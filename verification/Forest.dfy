/**
  Folder trees with their connections, the two flat lists they are stored as, and the proof that the
  home screen rebuilds the tree from the lists.
*/
module Forest {
  import opened Collections
  import opened Models
  import opened FolderTree

  datatype Tree = Leaf(connection: Connection) | Branch(folder: Folder, kids: seq<Tree>)

  // ---- Flattening, in document order ----

  function Folders(ts: seq<Tree>): seq<Folder>
    decreases ts
  {
    if ts == [] then []
    else (match ts[0]
          case Leaf(_) => []
          case Branch(f, kids) => [f] + Folders(kids))
         + Folders(ts[1..])
  }

  function Connections(ts: seq<Tree>): seq<Connection>
    decreases ts
  {
    if ts == [] then []
    else (match ts[0]
          case Leaf(c) => [c]
          case Branch(_, kids) => Connections(kids))
         + Connections(ts[1..])
  }

  /** The top-level connections and folders. */
  function Leaves(ts: seq<Tree>): seq<Connection> {
    if ts == [] then []
    else (if ts[0].Leaf? then [ts[0].connection] else []) + Leaves(ts[1..])
  }

  function Tops(ts: seq<Tree>): seq<Folder> {
    if ts == [] then []
    else (if ts[0].Branch? then [ts[0].folder] else []) + Tops(ts[1..])
  }

  /** The ids stored in the tree say where each item is; `key` is the id of the enclosing folder. */
  predicate Linked(ts: seq<Tree>, key: Option<string>)
    decreases ts
  {
    ts == []
    || ((match ts[0]
         case Leaf(c) => c.folderId == key
         case Branch(f, kids) => f.parentId == key && Linked(kids, Some(f.id)))
        && Linked(ts[1..], key))
  }

  // ---- The preorder a reader of the tree expects ----

  /** Connections before sub-folders, siblings in order, one indent a level. */
  function Preorder(ts: seq<Tree>, indent: nat): seq<Row>
    decreases ts, 1
  {
    ConnectionRows(Leaves(ts), indent) + BranchRows(ts, indent)
  }

  function BranchRows(ts: seq<Tree>, indent: nat): seq<Row>
    decreases ts, 0
  {
    if ts == [] then []
    else (match ts[0]
          case Leaf(_) => []
          case Branch(f, kids) => [FolderRow(f, |Leaves(kids)|, true, indent)] + Preorder(kids, indent + 1))
         + BranchRows(ts[1..], indent)
  }

  // ---- Looking up the lists finds the children ----

  /** Nothing in these lists is filed under any of `ids`. */
  ghost predicate Foreign(fs: seq<Folder>, cs: seq<Connection>, ids: set<string>) {
    && (forall f :: f in fs && f.parentId.Some? ==> f.parentId.value !in ids)
    && (forall c :: c in cs && c.folderId.Some? ==> c.folderId.value !in ids)
  }

  lemma {:induction false} ForeignLookup(fs: seq<Folder>, cs: seq<Connection>, ids: set<string>, id: string)
    requires Foreign(fs, cs, ids) && id in ids
    ensures ChildrenOf(fs, Some(id)) == [] && ConnectionsIn(cs, Some(id)) == []
  {
    NoChildren(fs, Some(id));
    NothingFiled(cs, Some(id));
  }

  /** A linked forest mentions only its own ids and the key of its surroundings. */
  lemma {:induction false} LinkedIsForeign(ts: seq<Tree>, key: Option<string>, ids: set<string>)
    requires Linked(ts, key)
    requires key.Some? ==> key.value !in ids
    requires FolderIds(Folders(ts)) !! ids
    ensures Foreign(Folders(ts), Connections(ts), ids)
    decreases ts
  {
    if ts != [] {
      LinkedIsForeign(ts[1..], key, ids);
      if ts[0].Branch? {
        var f, kids := ts[0].folder, ts[0].kids;
        assert f in Folders(ts);
        LinkedIsForeign(kids, Some(f.id), ids);
      }
    }
  }

  lemma {:induction false} LookupFindsTops(ts: seq<Tree>, key: Option<string>)
    requires Linked(ts, key)
    requires key.Some? ==> key.value !in FolderIds(Folders(ts))
    requires UniqueIds(Folders(ts))
    ensures ChildrenOf(Folders(ts), key) == Tops(ts) && ConnectionsIn(Connections(ts), key) == Leaves(ts)
    decreases ts
  {
    if ts != [] {
      var rest := ts[1..];
      match ts[0] {
        case Leaf(c) =>
          assert Folders(ts) == Folders(rest);
          LookupFindsTops(rest, key);
          assert Connections(ts) == [c] + Connections(rest);
        case Branch(f, kids) =>
          assert Folders(ts) == [f] + Folders(kids) + Folders(rest);
          assert f in Folders(ts);
          SplitIds(f, kids, rest);
          LookupFindsTops(rest, key);
          LookupPastBranch(f, kids, rest, key);
      }
    }
  }

  lemma {:induction false} LookupPastBranch(f: Folder, kids: seq<Tree>, rest: seq<Tree>, key: Option<string>)
    requires Linked(kids, Some(f.id)) && f.parentId == key && Some(f.id) != key
    requires key.Some? ==> key.value !in FolderIds(Folders(kids))
    ensures ChildrenOf([f] + Folders(kids) + Folders(rest), key) == [f] + ChildrenOf(Folders(rest), key)
    ensures ConnectionsIn(Connections(kids) + Connections(rest), key) == ConnectionsIn(Connections(rest), key)
  {
    NothingFiledUnder(kids, Some(f.id), key);
    ChildrenOfConcat([f] + Folders(kids), Folders(rest), key);
    assert ([f] + Folders(kids))[1..] == Folders(kids);
    ConnectionsInConcat(Connections(kids), Connections(rest), key);
  }

  /** Inside a folder nothing is filed under a key from outside. */
  lemma {:induction false} NothingFiledUnder(ts: seq<Tree>, own: Option<string>, key: Option<string>)
    requires Linked(ts, own) && own.Some? && own != key
    requires key.Some? ==> key.value !in FolderIds(Folders(ts))
    ensures ChildrenOf(Folders(ts), key) == [] && ConnectionsIn(Connections(ts), key) == []
  {
    if key.Some? {
      LinkedIsForeign(ts, own, {key.value});
      ForeignLookup(Folders(ts), Connections(ts), {key.value}, key.value);
    } else {
      EverythingFiled(ts, own);
      NoChildren(Folders(ts), key);
      NothingFiled(Connections(ts), key);
    }
  }

  lemma {:induction false} EverythingFiled(ts: seq<Tree>, own: Option<string>)
    requires Linked(ts, own) && own.Some?
    ensures forall f :: f in Folders(ts) ==> f.parentId.Some?
    ensures forall c :: c in Connections(ts) ==> c.folderId.Some?
    decreases ts
  {
    if ts != [] {
      EverythingFiled(ts[1..], own);
      if ts[0].Branch? {
        EverythingFiled(ts[0].kids, Some(ts[0].folder.id));
      }
    }
  }

  /** Unique ids of a whole list are unique in its parts, and the parts share none. */
  lemma {:induction false} UniqueApart(a: seq<Folder>, b: seq<Folder>)
    requires UniqueIds(a + b)
    ensures UniqueIds(a) && UniqueIds(b) && FolderIds(b) <= FolderIds(a + b) && FolderIds(a) !! FolderIds(b)
  {
    assert forall i :: 0 <= i < |a| ==> (a + b)[i] == a[i];
    assert forall i :: 0 <= i < |b| ==> (a + b)[|a| + i] == b[i];
  }

  lemma {:induction false} SplitIds(f: Folder, kids: seq<Tree>, rest: seq<Tree>)
    requires UniqueIds([f] + Folders(kids) + Folders(rest))
    ensures UniqueIds(Folders(kids)) && UniqueIds(Folders(rest))
    ensures f.id !in FolderIds(Folders(kids)) && f.id !in FolderIds(Folders(rest))
    ensures FolderIds(Folders(kids)) !! FolderIds(Folders(rest))
  {
    SplitUnique(f, Folders(kids), Folders(rest));
  }

  lemma {:induction false} SplitUnique(f: Folder, kids: seq<Folder>, rest: seq<Folder>)
    requires UniqueIds([f] + kids + rest)
    ensures UniqueIds(kids) && UniqueIds(rest)
    ensures f.id !in FolderIds(kids) && f.id !in FolderIds(rest) && FolderIds(kids) !! FolderIds(rest)
  {
    UniqueApart([f] + kids, rest);
    UniqueApart([f], kids);
    assert f in [f] && f in [f] + kids;
  }

  // ---- The rebuilding theorem ----

  /** Looking up every folder of `ts` in the lists of the screen finds what it holds in the tree. */
  ghost predicate Embedded(s: Screen, ts: seq<Tree>)
    decreases ts
  {
    ts == []
    || ((ts[0].Branch? ==>
           var key := Some(ts[0].folder.id);
           && ChildrenOf(s.folders, key) == Tops(ts[0].kids)
           && ConnectionsIn(s.connections, key) == Leaves(ts[0].kids)
           && Embedded(s, ts[0].kids))
        && Embedded(s, ts[1..]))
  }

  /** A forest stored somewhere inside larger lists, nothing around it filed under its folders. */
  ghost predicate Stored(
    s: Screen, ts: seq<Tree>, key: Option<string>,
    fs: (seq<Folder>, seq<Folder>), cs: (seq<Connection>, seq<Connection>))
  {
    && s.folders == fs.0 + Folders(ts) + fs.1
    && s.connections == cs.0 + Connections(ts) + cs.1
    && Linked(ts, key) && UniqueIds(Folders(ts))
    && (key.Some? ==> key.value !in FolderIds(Folders(ts)))
    && Foreign(fs.0, cs.0, FolderIds(Folders(ts)))
    && Foreign(fs.1, cs.1, FolderIds(Folders(ts)))
  }

  /** Around the contents of a first branch, nothing is filed under the branch or anything in it. */
  lemma {:induction false} KidsSurroundings(
    ts: seq<Tree>, key: Option<string>, fs: (seq<Folder>, seq<Folder>), cs: (seq<Connection>, seq<Connection>))
    requires Linked(ts, key) && UniqueIds(Folders(ts)) && ts != [] && ts[0].Branch?
    requires key.Some? ==> key.value !in FolderIds(Folders(ts))
    requires Foreign(fs.0, cs.0, FolderIds(Folders(ts))) && Foreign(fs.1, cs.1, FolderIds(Folders(ts)))
    ensures var f, kids, rest := ts[0].folder, ts[0].kids, ts[1..];
            var ids := FolderIds(Folders(kids)) + {f.id};
            && UniqueIds(Folders(kids)) && f.id !in FolderIds(Folders(kids))
            && Foreign(fs.0 + [f], cs.0, ids)
            && Foreign(Folders(rest) + fs.1, Connections(rest) + cs.1, ids)
  {
    var f, kids, rest := ts[0].folder, ts[0].kids, ts[1..];
    assert ts == [ts[0]] + rest;
    SplitIds(f, kids, rest);
    var ids := FolderIds(Folders(kids)) + {f.id};
    LinkedIsForeign(rest, key, ids);
    assert ids <= FolderIds(Folders(ts));
  }

  lemma {:induction false} StoredKids(
    s: Screen, ts: seq<Tree>, key: Option<string>,
    fs: (seq<Folder>, seq<Folder>), cs: (seq<Connection>, seq<Connection>))
    requires Stored(s, ts, key, fs, cs) && ts != [] && ts[0].Branch?
    ensures var f, rest := ts[0].folder, ts[1..];
            Stored(s, ts[0].kids, Some(f.id), (fs.0 + [f], Folders(rest) + fs.1), (cs.0, Connections(rest) + cs.1))
  {
    var f, kids, rest := ts[0].folder, ts[0].kids, ts[1..];
    KidsSurroundings(ts, key, fs, cs);
    Regroup(fs.0, [f], Folders(kids), Folders(rest), fs.1);
    Regroup(cs.0, [], Connections(kids), Connections(rest), cs.1);
    assert cs.0 + [] == cs.0 && [] + Connections(kids) == Connections(kids);
  }

  lemma {:induction false} Regroup<T>(a: seq<T>, x: seq<T>, b: seq<T>, c: seq<T>, d: seq<T>)
    ensures a + (x + b + c) + d == (a + x) + b + (c + d)
  {
  }

  lemma {:induction false} StoredRest(
    s: Screen, ts: seq<Tree>, key: Option<string>,
    fs: (seq<Folder>, seq<Folder>), cs: (seq<Connection>, seq<Connection>))
    requires Stored(s, ts, key, fs, cs) && ts != []
    ensures Stored(s, ts[1..], key, (fs.0 + Folders([ts[0]]), fs.1), (cs.0 + Connections([ts[0]]), cs.1))
  {
    var first, rest := [ts[0]], ts[1..];
    FoldersApart(ts);
    ConnectionsApart(ts);
    UniqueApart(Folders(first), Folders(rest));
    LinkedIsForeign(first, key, FolderIds(Folders(rest)));
    Assoc(fs.0, Folders(first), Folders(rest));
    Assoc(cs.0, Connections(first), Connections(rest));
  }

  lemma {:induction false} FoldersApart(ts: seq<Tree>)
    requires ts != []
    ensures Folders(ts) == Folders([ts[0]]) + Folders(ts[1..])
  {
    assert [ts[0]][1..] == [] && Folders([]) == [];
  }

  lemma {:induction false} ConnectionsApart(ts: seq<Tree>)
    requires ts != []
    ensures Connections(ts) == Connections([ts[0]]) + Connections(ts[1..])
  {
    assert [ts[0]][1..] == [] && Connections([]) == [];
  }

  lemma {:induction false} StoredIsEmbedded(
    s: Screen, ts: seq<Tree>, key: Option<string>,
    fs: (seq<Folder>, seq<Folder>), cs: (seq<Connection>, seq<Connection>))
    requires Stored(s, ts, key, fs, cs)
    ensures Embedded(s, ts)
    decreases ts
  {
    if ts != [] {
      var rest := ts[1..];
      if ts[0].Branch? {
        var f, kids := ts[0].folder, ts[0].kids;
        var fs', cs' := (fs.0 + [f], Folders(rest) + fs.1), (cs.0, Connections(rest) + cs.1);
        StoredKids(s, ts, key, fs, cs);
        KidsSurroundings(ts, key, fs, cs);
        StoredIsEmbedded(s, kids, Some(f.id), fs', cs');
        LookupInside(s, kids, f.id, fs', cs');
      }
      StoredRest(s, ts, key, fs, cs);
      StoredIsEmbedded(s, rest, key, (fs.0 + Folders([ts[0]]), fs.1), (cs.0 + Connections([ts[0]]), cs.1));
    }
  }

  lemma {:induction false} LookupInside(
    s: Screen, kids: seq<Tree>, id: string,
    fs: (seq<Folder>, seq<Folder>), cs: (seq<Connection>, seq<Connection>))
    requires s.folders == fs.0 + Folders(kids) + fs.1
    requires s.connections == cs.0 + Connections(kids) + cs.1
    requires Linked(kids, Some(id)) && UniqueIds(Folders(kids)) && id !in FolderIds(Folders(kids))
    requires Foreign(fs.0, cs.0, {id}) && Foreign(fs.1, cs.1, {id})
    ensures ChildrenOf(s.folders, Some(id)) == Tops(kids)
    ensures ConnectionsIn(s.connections, Some(id)) == Leaves(kids)
  {
    LookupFindsTops(kids, Some(id));
    ForeignLookup(fs.0, cs.0, {id}, id);
    ForeignLookup(fs.1, cs.1, {id}, id);
    ChildrenOfConcat(fs.0 + Folders(kids), fs.1, Some(id));
    ChildrenOfConcat(fs.0, Folders(kids), Some(id));
    ConnectionsInConcat(cs.0 + Connections(kids), cs.1, Some(id));
    ConnectionsInConcat(cs.0, Connections(kids), Some(id));
  }

  lemma {:induction false} EmbeddedRows(s: Screen, path: seq<Folder>, ts: seq<Tree>)
    requires UniqueIds(s.folders) && Chain(s.folders, path) && Embedded(s, ts)
    requires ChildrenOf(s.folders, KeyOf(path)) == Tops(ts)
    requires ConnectionsIn(s.connections, KeyOf(path)) == Leaves(ts)
    requires FolderIds(s.folders) <= s.expanded
    ensures Contents(s, path) == Preorder(ts, |path|)
    decreases ts, 1
  {
    EmbeddedForest(s, path, ts);
  }

  lemma {:induction false} EmbeddedForest(s: Screen, path: seq<Folder>, ts: seq<Tree>)
    requires UniqueIds(s.folders) && Chain(s.folders, path) && Embedded(s, ts)
    requires forall f :: f in Tops(ts) ==> f in ChildrenOf(s.folders, KeyOf(path))
    requires FolderIds(s.folders) <= s.expanded
    ensures ForestRows(s, path, Tops(ts)) == BranchRows(ts, |path|)
    decreases ts, 0
  {
    if ts != [] {
      var rest := ts[1..];
      assert forall f :: f in Tops(rest) ==> f in Tops(ts);
      EmbeddedForest(s, path, rest);
      if ts[0].Branch? {
        var f, kids := ts[0].folder, ts[0].kids;
        assert Tops(ts) == [f] + Tops(rest) && ts == [Branch(f, kids)] + rest && f in Tops(ts);
        EmbeddedBranch(s, path, f, kids);
        BranchBeforeRest(s, path, f, kids, rest);
      } else {
        assert Tops(ts) == Tops(rest);
      }
    }
  }

  lemma {:induction false} BranchBeforeRest(
    s: Screen, path: seq<Folder>, f: Folder, kids: seq<Tree>, rest: seq<Tree>)
    requires UniqueIds(s.folders) && Chain(s.folders, path) && Chain(s.folders, path + [f])
    requires forall k :: k in [f] + Tops(rest) ==> k in ChildrenOf(s.folders, KeyOf(path))
    requires forall k :: k in Tops(rest) ==> k in ChildrenOf(s.folders, KeyOf(path))
    requires FolderRows(s, path + [f]) == [FolderRow(f, |Leaves(kids)|, true, |path|)] + Preorder(kids, |path| + 1)
    requires ForestRows(s, path, Tops(rest)) == BranchRows(rest, |path|)
    ensures ForestRows(s, path, [f] + Tops(rest)) == BranchRows([Branch(f, kids)] + rest, |path|)
  {
    ForestRowsFirst(s, path, f, Tops(rest));
  }

  lemma {:induction false} EmbeddedBranch(s: Screen, path: seq<Folder>, f: Folder, kids: seq<Tree>)
    requires UniqueIds(s.folders) && Chain(s.folders, path) && f in ChildrenOf(s.folders, KeyOf(path))
    requires ChildrenOf(s.folders, Some(f.id)) == Tops(kids) && ConnectionsIn(s.connections, Some(f.id)) == Leaves(kids)
    requires Embedded(s, kids)
    requires FolderIds(s.folders) <= s.expanded
    ensures Chain(s.folders, path + [f])
    ensures FolderRows(s, path + [f]) == [FolderRow(f, |Leaves(kids)|, true, |path|)] + Preorder(kids, |path| + 1)
    decreases kids, 2
  {
    ChainExtends(s.folders, path, f);
    EmbeddedRows(s, path + [f], kids);
  }

  /**
    The home screen inverts flattening: for every linked forest with distinct folder ids, the rows built
    from the flat lists, all folders expanded, are the preorder of the forest.
  */
  lemma {:induction false} Rebuild(ts: seq<Tree>, expanded: set<string>)
    requires Linked(ts, None) && UniqueIds(Folders(ts))
    requires FolderIds(Folders(ts)) <= expanded
    ensures TreeRows(Screen(Folders(ts), Connections(ts), expanded)) == Preorder(ts, 0)
  {
    var s := Screen(Folders(ts), Connections(ts), expanded);
    assert [] + Folders(ts) + [] == Folders(ts) && [] + Connections(ts) + [] == Connections(ts);
    StoredIsEmbedded(s, ts, None, ([], []), ([], []));
    LookupFindsTops(ts, None);
    assert Chain(s.folders, []);
    EmbeddedRows(s, [], ts);
  }

  /** Every parent comes strictly before its children, and every connection is filed in a listed folder. */
  lemma {:induction false} ParentsComeFirst(ts: seq<Tree>, key: Option<string>, before: seq<Folder>)
    requires Linked(ts, key)
    requires key.Some? ==> key.value in FolderIds(before)
    ensures ParentsBefore(before + Folders(ts), |before|)
    ensures forall c :: c in Connections(ts) && c.folderId.Some? ==>
              c.folderId.value in FolderIds(before + Folders(ts))
  {
    FoldersAfterParents(ts, key, before);
    ConnectionsFiled(ts, key);
    forall f | f in before || f in Folders(ts)
      ensures f in before + Folders(ts)
    {
    }
  }

  lemma {:induction false} FoldersAfterParents(ts: seq<Tree>, key: Option<string>, before: seq<Folder>)
    requires Linked(ts, key)
    requires key.Some? ==> key.value in FolderIds(before)
    ensures ParentsBefore(before + Folders(ts), |before|)
    decreases ts, 1
  {
    if ts != [] {
      var rest := ts[1..];
      match ts[0] {
        case Leaf(c) =>
          assert Folders(ts) == Folders(rest);
          FoldersAfterParents(rest, key, before);
        case Branch(f, kids) =>
          BranchAfterParents(ts, key, before);
          assert Folders(ts) == [f] + Folders(kids) + Folders(rest);
      }
    }
  }

  lemma {:induction false} BranchAfterParents(ts: seq<Tree>, key: Option<string>, before: seq<Folder>)
    requires ts != [] && ts[0].Branch? && Linked(ts, key)
    requires key.Some? ==> key.value in FolderIds(before)
    ensures ParentsBefore(before + ([ts[0].folder] + Folders(ts[0].kids) + Folders(ts[1..])), |before|)
    decreases ts, 0
  {
    var f, kids, rest := ts[0].folder, ts[0].kids, ts[1..];
    FoldersAfterParents(kids, Some(f.id), before + [f]);
    FoldersAfterParents(rest, key, before + [f] + Folders(kids));
    ParentsJoin(before, f, Folders(kids), Folders(rest));
  }

  /** A connection is filed under the surroundings or a folder of the forest. */
  lemma {:induction false} ConnectionsFiled(ts: seq<Tree>, key: Option<string>)
    requires Linked(ts, key)
    ensures forall c :: c in Connections(ts) && c.folderId.Some? ==>
              c.folderId == key || c.folderId.value in FolderIds(Folders(ts))
    decreases ts
  {
    if ts != [] {
      ConnectionsFiled(ts[1..], key);
      FoldersApart(ts);
      if ts[0].Branch? {
        var f, kids := ts[0].folder, ts[0].kids;
        ConnectionsFiled(kids, Some(f.id));
        assert ts == [Branch(f, kids)] + ts[1..];
      }
    }
  }

  /** From the i-th on, parents are listed strictly before. */
  ghost predicate ParentsBefore(all: seq<Folder>, from: nat) {
    forall i :: from <= i < |all| && all[i].parentId.Some? ==> all[i].parentId.value in FolderIds(all[..i])
  }

  lemma {:induction false} ParentsJoin(before: seq<Folder>, f: Folder, kids: seq<Folder>, rest: seq<Folder>)
    requires f.parentId.Some? ==> f.parentId.value in FolderIds(before)
    requires ParentsBefore(before + [f] + kids, |before| + 1)
    requires ParentsBefore(before + [f] + kids + rest, |before| + 1 + |kids|)
    ensures ParentsBefore(before + ([f] + kids + rest), |before|)
  {
    var inner, all := before + [f] + kids, before + [f] + kids + rest;
    assert all == before + ([f] + kids + rest);
    forall i | |before| <= i < |all| && all[i].parentId.Some?
      ensures all[i].parentId.value in FolderIds(all[..i])
    {
      if i < |inner| {
        assert all[..i] == inner[..i];
        assert i == |before| ==> all[..i] == before;
      }
    }
  }
}
