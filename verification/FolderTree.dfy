/**
  What the home screen shows: the rows of the folder tree as a function of the flat folder and
  connection lists and of the expanded folders (lib/screens/home_screen.dart:642-756).

  A parent-pointer list is not a tree. The functions below recurse along chains: sequences of folders
  that start at a root and go from parent to child. Unique ids bound the length of every chain, which
  is why the rendering ends on any list, dangling parents and parent cycles included.
*/
module FolderTree {
  import opened Collections
  import opened Models

  datatype Screen = Screen(folders: seq<Folder>, connections: seq<Connection>, expanded: set<string>)

  /** One line of the list view. `indent` counts steps of 24 logical pixels. */
  datatype Row =
    | FolderRow(folder: Folder, count: nat, open: bool, indent: nat)
    | ConnectionRow(connection: Connection, indent: nat)

  // ---- Chains ----

  /** `path` goes from a root folder down, each folder the parent of the next. */
  ghost predicate Chain(folders: seq<Folder>, path: seq<Folder>) {
    && (path != [] ==> path[0].parentId == None)
    && (forall i :: 0 <= i < |path| ==> path[i] in folders)
    && (forall i, j :: 0 <= i && j == i + 1 && j < |path| ==> path[j].parentId == Some(path[i].id))
  }

  /** What the `parentId` of the children of the end of `path` must be. */
  function KeyOf(path: seq<Folder>): Option<string> {
    if path == [] then None else Some(Last(path).id)
  }

  /** A folder has one chain at most, since each folder has one parent. */
  lemma {:induction false} ChainIsUnique(folders: seq<Folder>, p: seq<Folder>, q: seq<Folder>)
    requires UniqueIds(folders) && Chain(folders, p) && Chain(folders, q)
    requires p != [] && q != [] && Last(p) == Last(q)
    ensures p == q
  {
    var p', q' := p[..|p| - 1], q[..|q| - 1];
    assert p' != [] ==> Last(p).parentId == Some(Last(p').id);
    assert q' != [] ==> Last(q).parentId == Some(Last(q').id);
    if p' != [] && q' != [] {
      ChainIsUnique(folders, p', q');
    }
    assert p == p' + [Last(p)] && q == q' + [Last(q)];
  }

  /** The termination measure of the rendering: a chain repeats no folder, so it is no longer than the list. */
  lemma {:induction false} ChainBound(folders: seq<Folder>, path: seq<Folder>)
    requires UniqueIds(folders) && Chain(folders, path)
    ensures NoDup(path) && |path| <= |folders|
  {
    forall i, j | 0 <= i < j < |path|
      ensures path[i] != path[j]
    {
      if path[i] == path[j] {
        ChainIsUnique(folders, path[..i + 1], path[..j + 1]);
        assert false;
      }
    }
    NoDupBound(path, folders);
  }

  lemma {:induction false} ChainAppend(folders: seq<Folder>, path: seq<Folder>, kid: Folder)
    requires Chain(folders, path) && kid in folders && kid.parentId == KeyOf(path)
    ensures Chain(folders, path + [kid])
  {
    var next := path + [kid];
    assert forall i :: 0 <= i < |path| ==> next[i] == path[i];
    assert next[|path|] == kid && (path != [] ==> next[|path| - 1] == Last(path));
  }

  lemma {:induction false} ChainExtends(folders: seq<Folder>, path: seq<Folder>, kid: Folder)
    requires UniqueIds(folders) && Chain(folders, path)
    requires kid in ChildrenOf(folders, KeyOf(path))
    ensures Chain(folders, path + [kid])
    ensures |path| < |folders|
  {
    ChainAppend(folders, path, kid);
    ChainBound(folders, path + [kid]);
  }

  // ---- Rows ----

  function ConnectionRows(connections: seq<Connection>, indent: nat): (rows: seq<Row>)
    ensures |rows| == |connections|
    ensures forall i :: 0 <= i < |rows| ==> rows[i] == ConnectionRow(connections[i], indent)
  {
    seq(|connections|, i requires 0 <= i < |connections| => ConnectionRow(connections[i], indent))
  }

  /** The rows below the end of `path`: its connections, then its sub-folders. */
  ghost function Contents(s: Screen, path: seq<Folder>): seq<Row>
    requires UniqueIds(s.folders) && Chain(s.folders, path)
    decreases |s.folders| - |path|, 1, 0
  {
    ChainBound(s.folders, path);
    ConnectionRows(ConnectionsIn(s.connections, KeyOf(path)), |path|)
    + ForestRows(s, path, ChildrenOf(s.folders, KeyOf(path)))
  }

  /** The rows of the folders `kids`, each a child of the end of `path`. */
  ghost function ForestRows(s: Screen, path: seq<Folder>, kids: seq<Folder>): seq<Row>
    requires UniqueIds(s.folders) && Chain(s.folders, path)
    requires forall k :: k in kids ==> k in ChildrenOf(s.folders, KeyOf(path))
    decreases |s.folders| - |path|, 0, |kids|
  {
    if kids == [] then []
    else
      ChainExtends(s.folders, path, kids[0]);
      FolderRows(s, path + [kids[0]]) + ForestRows(s, path, kids[1..])
  }

  /** The rows of the folder at the end of `path`: its header, and its contents when it is expanded. */
  ghost function FolderRows(s: Screen, path: seq<Folder>): seq<Row>
    requires UniqueIds(s.folders) && Chain(s.folders, path) && path != []
    decreases |s.folders| - |path|, 2, 0
  {
    ChainBound(s.folders, path);
    [Header(s, path)] + if Last(path).id in s.expanded then Contents(s, path) else []
  }

  lemma {:induction false} ForestRowsFirst(s: Screen, path: seq<Folder>, kid: Folder, kids: seq<Folder>)
    requires UniqueIds(s.folders) && Chain(s.folders, path)
    requires forall k :: k in [kid] + kids ==> k in ChildrenOf(s.folders, KeyOf(path))
    ensures Chain(s.folders, path + [kid])
    ensures forall k :: k in kids ==> k in [kid] + kids
    ensures ForestRows(s, path, [kid] + kids) == FolderRows(s, path + [kid]) + ForestRows(s, path, kids)
  {
    assert kid in [kid] + kids;
    ChainExtends(s.folders, path, kid);
    assert ([kid] + kids)[1..] == kids;
  }

  lemma {:induction false} OpenFolderRows(s: Screen, path: seq<Folder>)
    requires UniqueIds(s.folders) && Chain(s.folders, path) && path != []
    ensures Last(path).id !in s.expanded ==> FolderRows(s, path) == [Header(s, path)]
    ensures Last(path).id in s.expanded ==>
        FolderRows(s, path)
        == [Header(s, path)] + ConnectionRows(ConnectionsIn(s.connections, Some(Last(path).id)), |path|)
           + ForestRows(s, path, ChildrenOf(s.folders, Some(Last(path).id)))
  {
    ChainBound(s.folders, path);
    if Last(path).id in s.expanded {
      var own := ConnectionRows(ConnectionsIn(s.connections, Some(Last(path).id)), |path|);
      var below := ForestRows(s, path, ChildrenOf(s.folders, Some(Last(path).id)));
      assert FolderRows(s, path) == [Header(s, path)] + Contents(s, path) && Contents(s, path) == own + below;
      Assoc([Header(s, path)], own, below);
    }
  }

  /** One turn of the loop over the children of the end of `path`; the recursion gets closer to its bound. */
  lemma {:induction false} NextFolder(s: Screen, path: seq<Folder>, i: nat)
    requires UniqueIds(s.folders) && Chain(s.folders, path)
    requires i < |ChildrenOf(s.folders, KeyOf(path))|
    ensures var kids := ChildrenOf(s.folders, KeyOf(path));
            && Chain(s.folders, path + [kids[i]])
            && |path| < |s.folders|
            && ForestRows(s, path, kids[i..])
               == FolderRows(s, path + [kids[i]]) + ForestRows(s, path, kids[i + 1..])
  {
    var kids := ChildrenOf(s.folders, KeyOf(path));
    ChainExtends(s.folders, path, kids[i]);
    assert kids[i..][0] == kids[i] && kids[i..][1..] == kids[i + 1..];
  }

  function Header(s: Screen, path: seq<Folder>): Row
    requires path != []
  {
    var folder := Last(path);
    FolderRow(folder, |ConnectionsIn(s.connections, Some(folder.id))|, folder.id in s.expanded, |path| - 1)
  }

  ghost function TreeRows(s: Screen): seq<Row>
    requires UniqueIds(s.folders)
  {
    Contents(s, [])
  }

  // ---- The chains the rendering visits ----

  /** Every folder on the way to the end of `path` is expanded. */
  ghost predicate OpenChain(s: Screen, path: seq<Folder>) {
    Chain(s.folders, path) && forall i :: 0 <= i < |path| - 1 ==> path[i].id in s.expanded
  }

  ghost predicate Expanded(s: Screen, path: seq<Folder>) {
    path != [] ==> Last(path).id in s.expanded
  }

  ghost function VisitsBelow(s: Screen, path: seq<Folder>, kids: seq<Folder>): seq<seq<Folder>>
    requires UniqueIds(s.folders) && Chain(s.folders, path)
    requires forall k :: k in kids ==> k in ChildrenOf(s.folders, KeyOf(path))
    decreases |s.folders| - |path|, 0, |kids|
  {
    if kids == [] then []
    else
      ChainExtends(s.folders, path, kids[0]);
      VisitsFrom(s, path + [kids[0]]) + VisitsBelow(s, path, kids[1..])
  }

  /** The chains visited at `path` and below, in the order of the rows. */
  ghost function VisitsFrom(s: Screen, path: seq<Folder>): seq<seq<Folder>>
    requires UniqueIds(s.folders) && Chain(s.folders, path)
    decreases |s.folders| - |path|, 1, 0
  {
    ChainBound(s.folders, path);
    [path] + if Expanded(s, path) then VisitsBelow(s, path, ChildrenOf(s.folders, KeyOf(path))) else []
  }

  /** The rows that one visited chain contributes; the empty chain stands for the top of the list. */
  ghost function RowsAt(s: Screen, path: seq<Folder>): seq<Row> {
    (if path == [] then [] else [Header(s, path)])
    + if Expanded(s, path) then ConnectionRows(ConnectionsIn(s.connections, KeyOf(path)), |path|) else []
  }

  ghost function RowsOf(s: Screen, visits: seq<seq<Folder>>): seq<Row> {
    if visits == [] then [] else RowsAt(s, visits[0]) + RowsOf(s, visits[1..])
  }

  lemma {:induction false} RowsOfConcat(s: Screen, a: seq<seq<Folder>>, b: seq<seq<Folder>>)
    ensures RowsOf(s, a + b) == RowsOf(s, a) + RowsOf(s, b)
  {
    if a == [] {
      assert a + b == b;
    } else {
      assert (a + b)[1..] == a[1..] + b;
      RowsOfConcat(s, a[1..], b);
    }
  }

  lemma {:induction false} RowsFollowVisits(s: Screen, path: seq<Folder>)
    requires UniqueIds(s.folders) && Chain(s.folders, path)
    ensures RowsOf(s, VisitsFrom(s, path))
         == if path == [] then Contents(s, path) else FolderRows(s, path)
    decreases |s.folders| - |path|, 1, 0
  {
    ChainBound(s.folders, path);
    var kids := ChildrenOf(s.folders, KeyOf(path));
    if Expanded(s, path) {
      RowsFollowVisitsBelow(s, path, kids);
      RowsOfConcat(s, [path], VisitsBelow(s, path, kids));
      var header := if path == [] then [] else [Header(s, path)];
      Assoc(header, ConnectionRows(ConnectionsIn(s.connections, KeyOf(path)), |path|), ForestRows(s, path, kids));
    } else {
      assert VisitsFrom(s, path) == [path];
    }
  }

  lemma {:induction false} RowsFollowVisitsBelow(s: Screen, path: seq<Folder>, kids: seq<Folder>)
    requires UniqueIds(s.folders) && Chain(s.folders, path)
    requires forall k :: k in kids ==> k in ChildrenOf(s.folders, KeyOf(path))
    ensures RowsOf(s, VisitsBelow(s, path, kids)) == ForestRows(s, path, kids)
    decreases |s.folders| - |path|, 0, |kids|
  {
    if kids != [] {
      ChainExtends(s.folders, path, kids[0]);
      RowsFollowVisits(s, path + [kids[0]]);
      RowsFollowVisitsBelow(s, path, kids[1..]);
      RowsOfConcat(s, VisitsFrom(s, path + [kids[0]]), VisitsBelow(s, path, kids[1..]));
    }
  }

  /** The visits are exactly the open chains, each one once. */
  lemma {:induction false} VisitsAreOpenChains(s: Screen, path: seq<Folder>)
    requires UniqueIds(s.folders) && OpenChain(s, path)
    ensures NoDup(VisitsFrom(s, path))
    ensures forall v :: v in VisitsFrom(s, path) <==> OpenChain(s, v) && path <= v
    decreases |s.folders| - |path|, 1, 0
  {
    ChainBound(s.folders, path);
    var kids := ChildrenOf(s.folders, KeyOf(path));
    if Expanded(s, path) {
      ChildrenNoDup(s.folders, KeyOf(path));
      VisitsBelowAreOpenChains(s, path, kids);
    }
    forall v | OpenChain(s, v) && path < v
      ensures Expanded(s, path) && v[|path|] in kids
    {
      if path != [] {
        assert v[|path| - 1] == Last(path);
      }
    }
    var below := if Expanded(s, path) then VisitsBelow(s, path, kids) else [];
    assert VisitsFrom(s, path) == [path] + below;
    assert forall v :: v in VisitsFrom(s, path) <==> v == path || v in below;
  }

  lemma {:induction false} VisitsBelowAreOpenChains(s: Screen, path: seq<Folder>, kids: seq<Folder>)
    requires UniqueIds(s.folders) && OpenChain(s, path) && Expanded(s, path)
    requires NoDup(kids) && forall k :: k in kids ==> k in ChildrenOf(s.folders, KeyOf(path))
    ensures NoDup(VisitsBelow(s, path, kids))
    ensures forall v :: v in VisitsBelow(s, path, kids) <==> OpenChain(s, v) && path < v && v[|path|] in kids
    decreases |s.folders| - |path|, 0, |kids|
  {
    if kids != [] {
      var next := path + [kids[0]];
      ChainExtends(s.folders, path, kids[0]);
      VisitsAreOpenChains(s, next);
      VisitsBelowAreOpenChains(s, path, kids[1..]);
      var first, others := VisitsFrom(s, next), VisitsBelow(s, path, kids[1..]);
      forall v | OpenChain(s, v) && path < v
        ensures next <= v <==> v[|path|] == kids[0]
      {
        assert v == path + v[|path|..];
      }
      assert kids[0] !in kids[1..];
      forall v | v in first
        ensures v !in others
      {
        assert next <= v;
      }
      NoDupConcat(first, others);
    }
  }

  lemma {:induction false} NoDupConcat<T>(a: seq<T>, b: seq<T>)
    requires NoDup(a) && NoDup(b) && forall x :: x in a ==> x !in b
    ensures NoDup(a + b)
  {
    forall i, j | 0 <= i < j < |a + b|
      ensures (a + b)[i] != (a + b)[j]
    {
      if i < |a| <= j {
        assert a[i] in a && b[j - |a|] in b;
      }
    }
  }

  // ---- Which folders are shown ----

  /** `f` can be reached from a root through expanded folders only. */
  ghost predicate Visible(s: Screen, f: Folder) {
    exists path :: OpenChain(s, path) && path != [] && Last(path) == f
  }

  ghost function FolderIdsShown(rows: seq<Row>): seq<string> {
    if rows == [] then []
    else (if rows[0].FolderRow? then [rows[0].folder.id] else []) + FolderIdsShown(rows[1..])
  }

  lemma {:induction false} FolderIdsShownConcat(a: seq<Row>, b: seq<Row>)
    ensures FolderIdsShown(a + b) == FolderIdsShown(a) + FolderIdsShown(b)
  {
    if a == [] {
      assert a + b == b;
    } else {
      assert (a + b)[1..] == a[1..] + b;
      FolderIdsShownConcat(a[1..], b);
    }
  }

  lemma {:induction false} NoFolderInConnectionRows(connections: seq<Connection>, indent: nat)
    ensures FolderIdsShown(ConnectionRows(connections, indent)) == []
  {
    if connections != [] {
      NoFolderInConnectionRows(connections[1..], indent);
      assert ConnectionRows(connections, indent)[1..] == ConnectionRows(connections[1..], indent);
    }
  }

  ghost predicate NoneEmpty(visits: seq<seq<Folder>>) {
    forall i :: 0 <= i < |visits| ==> visits[i] != []
  }

  ghost function EndIds(visits: seq<seq<Folder>>): (ids: seq<string>)
    requires NoneEmpty(visits)
    ensures |ids| == |visits| && forall i :: 0 <= i < |ids| ==> ids[i] == Last(visits[i]).id
  {
    seq(|visits|, i requires 0 <= i < |visits| => Last(visits[i]).id)
  }

  lemma {:induction false} FoldersShownAtVisits(s: Screen, visits: seq<seq<Folder>>)
    requires NoneEmpty(visits)
    ensures FolderIdsShown(RowsOf(s, visits)) == EndIds(visits)
  {
    if visits != [] {
      var v := visits[0];
      assert v != [];
      FolderShownAt(s, v);
      FolderIdsShownConcat(RowsAt(s, v), RowsOf(s, visits[1..]));
      FoldersShownAtVisits(s, visits[1..]);
      assert EndIds(visits) == [Last(v).id] + EndIds(visits[1..]);
    }
  }

  lemma {:induction false} FolderShownAt(s: Screen, v: seq<Folder>)
    requires v != []
    ensures FolderIdsShown(RowsAt(s, v)) == [Last(v).id]
  {
    var own := if Expanded(s, v) then ConnectionRows(ConnectionsIn(s.connections, KeyOf(v)), |v|) else [];
    assert RowsAt(s, v) == [Header(s, v)] + own;
    NoFolderInConnectionRows(ConnectionsIn(s.connections, KeyOf(v)), |v|);
    FolderIdsShownConcat([Header(s, v)], own);
  }

  /** Every folder is shown once at most, and it is shown iff it is visible. */
  lemma {:induction false} EachVisibleFolderOnce(s: Screen)
    requires UniqueIds(s.folders)
    ensures NoDup(FolderIdsShown(TreeRows(s)))
    ensures forall f :: f in s.folders ==> (f.id in FolderIdsShown(TreeRows(s)) <==> Visible(s, f))
  {
    ShownIdsAreEndIds(s);
    var visits := VisitsBelow(s, [], ChildrenOf(s.folders, None));
    var ids := EndIds(visits);
    forall i, j | 0 <= i < j < |ids|
      ensures ids[i] != ids[j]
    {
      RootVisits(s, visits[i]);
      RootVisits(s, visits[j]);
      if ids[i] == ids[j] {
        ChainIsUnique(s.folders, visits[i], visits[j]);
        assert false;
      }
    }
    forall f | f in s.folders
      ensures f.id in ids <==> Visible(s, f)
    {
      if f.id in ids {
        var i :| 0 <= i < |ids| && ids[i] == f.id;
        RootVisits(s, visits[i]);
        assert Last(visits[i]) == f;
      }
      if Visible(s, f) {
        var path :| OpenChain(s, path) && path != [] && Last(path) == f;
        RootVisits(s, path);
        var i :| 0 <= i < |visits| && visits[i] == path;
        assert ids[i] == f.id;
      }
    }
  }

  lemma {:induction false} RootVisits(s: Screen, v: seq<Folder>)
    requires UniqueIds(s.folders)
    ensures var visits := VisitsBelow(s, [], ChildrenOf(s.folders, None));
            NoDup(visits) && (v in visits <==> OpenChain(s, v) && v != [])
  {
    ChildrenNoDup(s.folders, None);
    VisitsBelowAreOpenChains(s, [], ChildrenOf(s.folders, None));
    assert v != [] ==> [] < v;
  }

  lemma {:induction false} ShownIdsAreEndIds(s: Screen)
    requires UniqueIds(s.folders)
    ensures var visits := VisitsBelow(s, [], ChildrenOf(s.folders, None));
            && NoneEmpty(visits)
            && FolderIdsShown(TreeRows(s)) == EndIds(visits)
  {
    var roots := ChildrenOf(s.folders, None);
    var visits := VisitsBelow(s, [], roots);
    var unfiled := ConnectionRows(ConnectionsIn(s.connections, None), 0);
    ChildrenNoDup(s.folders, None);
    VisitsBelowAreOpenChains(s, [], roots);
    RowsFollowVisitsBelow(s, [], roots);
    forall i | 0 <= i < |visits|
      ensures visits[i] != []
    {
      assert visits[i] in visits;
    }
    FoldersShownAtVisits(s, visits);
    NoFolderInConnectionRows(ConnectionsIn(s.connections, None), 0);
    FolderIdsShownConcat(unfiled, RowsOf(s, visits));
  }

  /** No folder of the set is a root, and a listed parent of one is in the set too. */
  ghost predicate Stranded(folders: seq<Folder>, stranded: set<Folder>) {
    && (forall f :: f in stranded ==> f.parentId.Some?)
    && (forall f, g :: f in stranded && g in folders && f.parentId == Some(g.id) ==> g in stranded)
  }

  /**
    Folders whose parents stay among themselves or do not exist are never shown, whatever is expanded:
    those on a parent cycle, those below one, those with a dangling parent and those below these.
  */
  lemma {:induction false} StrandedFoldersAreHidden(s: Screen, stranded: set<Folder>)
    requires Stranded(s.folders, stranded)
    ensures forall f :: f in stranded ==> !Visible(s, f)
  {
    forall f, path | f in stranded && OpenChain(s, path) && path != [] && Last(path) == f
      ensures false
    {
      StrandedChain(s, stranded, path, |path| - 1);
    }
  }

  lemma {:induction false} StrandedChain(s: Screen, stranded: set<Folder>, path: seq<Folder>, i: nat)
    requires Stranded(s.folders, stranded)
    requires Chain(s.folders, path) && i < |path|
    ensures path[i] !in stranded
  {
    if i > 0 {
      StrandedChain(s, stranded, path, i - 1);
      assert path[i - 1] in s.folders;
    }
  }

  /** With every folder expanded, no others are hidden. */
  lemma {:induction false} HiddenIffStranded(s: Screen, f: Folder)
    requires FolderIds(s.folders) <= s.expanded && f in s.folders
    ensures !Visible(s, f) <==> exists stranded: set<Folder> :: f in stranded && Stranded(s.folders, stranded)
  {
    if !Visible(s, f) {
      var hidden := set g | g in s.folders && !Visible(s, g);
      HiddenAreStranded(s, hidden);
      assert f in hidden;
    }
    if stranded: set<Folder> :| f in stranded && Stranded(s.folders, stranded) {
      StrandedFoldersAreHidden(s, stranded);
    }
  }

  lemma {:induction false} HiddenAreStranded(s: Screen, hidden: set<Folder>)
    requires FolderIds(s.folders) <= s.expanded
    requires forall g :: g in hidden <==> g in s.folders && !Visible(s, g)
    ensures Stranded(s.folders, hidden)
  {
    forall f | f in hidden
      ensures f.parentId.Some?
    {
      if f.parentId == None {
        RootIsVisible(s, f);
      }
    }
    forall f, g | f in hidden && g in s.folders && f.parentId == Some(g.id)
      ensures g in hidden
    {
      if Visible(s, g) {
        ChildIsVisible(s, g, f);
      }
    }
  }

  lemma {:induction false} RootIsVisible(s: Screen, f: Folder)
    requires f in s.folders && f.parentId == None
    ensures Visible(s, f)
  {
    assert OpenChain(s, [f]) && Last([f]) == f;
  }

  lemma {:induction false} ChildIsVisible(s: Screen, parent: Folder, f: Folder)
    requires parent in s.folders && parent.id in s.expanded && Visible(s, parent)
    requires f in s.folders && f.parentId == Some(parent.id)
    ensures Visible(s, f)
  {
    var path: seq<Folder> :| OpenChain(s, path) && path != [] && Last(path) == parent;
    ChainAppend(s.folders, path, f);
    assert OpenChain(s, path + [f]) && Last(path + [f]) == f;
  }

  // ---- Which connections are shown ----

  ghost function ConnectionsShown(rows: seq<Row>): seq<Connection> {
    if rows == [] then []
    else (if rows[0].ConnectionRow? then [rows[0].connection] else []) + ConnectionsShown(rows[1..])
  }

  lemma {:induction false} ConnectionsShownConcat(a: seq<Row>, b: seq<Row>)
    ensures ConnectionsShown(a + b) == ConnectionsShown(a) + ConnectionsShown(b)
  {
    if a == [] {
      assert a + b == b;
    } else {
      assert (a + b)[1..] == a[1..] + b && (a + b)[0] == a[0];
      ConnectionsShownConcat(a[1..], b);
    }
  }

  lemma {:induction false} ConnectionRowsShow(connections: seq<Connection>, indent: nat)
    ensures ConnectionsShown(ConnectionRows(connections, indent)) == connections
  {
    if connections != [] {
      ConnectionRowsShow(connections[1..], indent);
      assert ConnectionRows(connections, indent)[1..] == ConnectionRows(connections[1..], indent);
    }
  }

  /** The connections filed under one of `keys`, key by key. */
  ghost function Gather(connections: seq<Connection>, keys: seq<Option<string>>): seq<Connection> {
    if keys == [] then [] else ConnectionsIn(connections, keys[0]) + Gather(connections, keys[1..])
  }

  /** The connections filed under one of `keys`, in list order. */
  ghost function Select(connections: seq<Connection>, keys: iset<Option<string>>): (chosen: seq<Connection>)
    ensures forall c :: c in chosen <==> c in connections && c.folderId in keys
  {
    if connections == [] then []
    else (if connections[0].folderId in keys then [connections[0]] else []) + Select(connections[1..], keys)
  }

  lemma {:induction false} GatherOne(c: Connection, rest: seq<Connection>, keys: seq<Option<string>>)
    requires NoDup(keys)
    ensures multiset(Gather([c] + rest, keys))
         == multiset(Gather(rest, keys)) + (if c.folderId in keys then multiset{c} else multiset{})
  {
    if keys != [] {
      GatherOne(c, rest, keys[1..]);
      assert ([c] + rest)[1..] == rest;
      assert keys[0] !in keys[1..];
      assert c.folderId in keys <==> c.folderId == keys[0] || c.folderId in keys[1..];
    }
  }

  lemma {:induction false} GatherNothing(keys: seq<Option<string>>)
    ensures Gather([], keys) == []
  {
    if keys != [] {
      GatherNothing(keys[1..]);
    }
  }

  lemma {:induction false} GatherIsSelect(connections: seq<Connection>, keys: seq<Option<string>>)
    requires NoDup(keys)
    ensures multiset(Gather(connections, keys)) == multiset(Select(connections, iset k | k in keys))
  {
    if connections == [] {
      GatherNothing(keys);
    } else {
      assert connections == [connections[0]] + connections[1..];
      GatherOne(connections[0], connections[1..], keys);
      GatherIsSelect(connections[1..], keys);
    }
  }

  /** The keys under which the visited, expanded chains look connections up. */
  ghost function OpenKeys(s: Screen, visits: seq<seq<Folder>>): seq<Option<string>> {
    if visits == [] then []
    else (if Expanded(s, visits[0]) then [KeyOf(visits[0])] else []) + OpenKeys(s, visits[1..])
  }

  lemma {:induction false} OpenKeysExact(s: Screen, visits: seq<seq<Folder>>)
    requires UniqueIds(s.folders) && NoDup(visits)
    requires forall v :: v in visits ==> Chain(s.folders, v)
    ensures NoDup(OpenKeys(s, visits))
    ensures forall k :: k in OpenKeys(s, visits) <==> exists v :: v in visits && Expanded(s, v) && KeyOf(v) == k
  {
    if visits != [] {
      var v, others := visits[0], visits[1..];
      OpenKeysExact(s, others);
      assert v !in others;
      forall w | w in others
        ensures KeyOf(w) != KeyOf(v)
      {
        if KeyOf(w) == KeyOf(v) && v != [] {
          ChainIsUnique(s.folders, v, w);
          assert false;
        }
      }
      assert KeyOf(v) !in OpenKeys(s, others);
      var first := if Expanded(s, v) then [KeyOf(v)] else [];
      assert OpenKeys(s, visits) == first + OpenKeys(s, others);
      forall k
        ensures k in OpenKeys(s, visits) <==> (Expanded(s, v) && k == KeyOf(v)) || k in OpenKeys(s, others)
      {
      }
    }
  }

  lemma {:induction false} ConnectionsShownAtVisits(s: Screen, visits: seq<seq<Folder>>)
    ensures ConnectionsShown(RowsOf(s, visits)) == Gather(s.connections, OpenKeys(s, visits))
  {
    if visits != [] {
      var v := visits[0];
      var own := ConnectionsIn(s.connections, KeyOf(v));
      ConnectionRowsShow(own, |v|);
      var header := if v == [] then [] else [Header(s, v)];
      var below := if Expanded(s, v) then ConnectionRows(own, |v|) else [];
      var shown := if Expanded(s, v) then own else [];
      ConnectionsShownConcat(header, below);
      ConnectionsShownConcat(RowsAt(s, v), RowsOf(s, visits[1..]));
      ConnectionsShownAtVisits(s, visits[1..]);
      assert ConnectionsShown(header) == [] && ConnectionsShown(below) == shown;
      if Expanded(s, v) {
        assert OpenKeys(s, visits)[1..] == OpenKeys(s, visits[1..]);
      } else {
        assert OpenKeys(s, visits) == OpenKeys(s, visits[1..]);
      }
    }
  }

  /** Under which folder ids a connection is shown: none at all, or a folder that is visible and expanded. */
  ghost predicate KeyShown(s: Screen, key: Option<string>) {
    key.Some? ==>
      key.value in s.expanded && exists f :: f in s.folders && f.id == key.value && Visible(s, f)
  }

  /**
    The connections on the screen are, with their multiplicity, the listed connections that have no
    folder or whose folder is itself shown and expanded. None appears twice, none of the others appears.
  */
  lemma {:induction false} EachShownConnectionOnce(s: Screen)
    requires UniqueIds(s.folders)
    ensures multiset(ConnectionsShown(TreeRows(s)))
         == multiset(Select(s.connections, iset k | KeyShown(s, k)))
  {
    RowsFollowVisits(s, []);
    var visits := VisitsFrom(s, []);
    VisitsAreOpenChains(s, []);
    ConnectionsShownAtVisits(s, visits);
    var keys := OpenKeys(s, visits);
    OpenKeysExact(s, visits);
    GatherIsSelect(s.connections, keys);
    forall k: Option<string>
      ensures k in keys <==> KeyShown(s, k)
    {
      if KeyShown(s, k) {
        KeyShownHasVisit(s, k);
      }
      if k in keys {
        var v :| v in visits && Expanded(s, v) && KeyOf(v) == k;
        assert v != [] ==> Visible(s, Last(v));
      }
    }
    assert (iset k | k in keys) == (iset k | KeyShown(s, k));
  }

  lemma {:induction false} KeyShownHasVisit(s: Screen, key: Option<string>)
    requires UniqueIds(s.folders) && KeyShown(s, key)
    ensures exists v :: OpenChain(s, v) && [] <= v && Expanded(s, v) && KeyOf(v) == key
  {
    if key == None {
      var top: seq<Folder> := [];
      assert OpenChain(s, top) && [] <= top && Expanded(s, top) && KeyOf(top) == key;
    } else {
      var f :| f in s.folders && f.id == key.value && Visible(s, f);
      var path :| OpenChain(s, path) && path != [] && Last(path) == f;
      assert [] <= path && Expanded(s, path) && KeyOf(path) == key;
    }
  }

  // ---- What a row says, and where it stands ----

  /**
    A header is as deep as the way to its folder is long, is open iff the folder is expanded, and counts the
    connections filed in it; a connection stands one step deeper than the folder it is filed in.
  */
  ghost predicate TellsTruth(s: Screen, row: Row) {
    match row
    case FolderRow(folder, count, open, indent) =>
      && (open <==> folder.id in s.expanded)
      && count == |Select(s.connections, iset{Some(folder.id)})|
      && exists path :: OpenChain(s, path) && path != [] && Last(path) == folder && indent == |path| - 1
    case ConnectionRow(c, indent) =>
      && c in s.connections
      && exists path :: OpenChain(s, path) && Expanded(s, path) && KeyOf(path) == c.folderId && indent == |path|
  }

  lemma {:induction false} RowsTellTruth(s: Screen)
    requires UniqueIds(s.folders)
    ensures forall i :: 0 <= i < |TreeRows(s)| ==> TellsTruth(s, TreeRows(s)[i])
  {
    RowsFollowVisits(s, []);
    VisitsAreOpenChains(s, []);
    VisitsTellTruth(s, VisitsFrom(s, []));
  }

  lemma {:induction false} VisitsTellTruth(s: Screen, visits: seq<seq<Folder>>)
    requires forall v :: v in visits ==> OpenChain(s, v)
    ensures forall i :: 0 <= i < |RowsOf(s, visits)| ==> TellsTruth(s, RowsOf(s, visits)[i])
  {
    if visits != [] {
      var v := visits[0];
      assert v in visits;
      VisitTellsTruth(s, v);
      VisitsTellTruth(s, visits[1..]);
    }
  }

  lemma {:induction false} VisitTellsTruth(s: Screen, v: seq<Folder>)
    requires OpenChain(s, v)
    ensures forall i :: 0 <= i < |RowsAt(s, v)| ==> TellsTruth(s, RowsAt(s, v)[i])
  {
    if v != [] {
      CountIsSelect(s.connections, Some(Last(v).id));
      assert TellsTruth(s, Header(s, v));
    }
    forall i | 0 <= i < |RowsAt(s, v)| && RowsAt(s, v)[i].ConnectionRow?
      ensures TellsTruth(s, RowsAt(s, v)[i])
    {
      var c := RowsAt(s, v)[i].connection;
      assert c in ConnectionsIn(s.connections, KeyOf(v));
    }
  }

  lemma {:induction false} CountIsSelect(connections: seq<Connection>, key: Option<string>)
    ensures ConnectionsIn(connections, key) == Select(connections, iset{key})
  {
    if connections != [] {
      CountIsSelect(connections[1..], key);
    }
  }

  /** Position `i` is in a block of connections of folder `key`, the first of them at `j`. */
  ghost predicate InBlock(rows: seq<Row>, key: Option<string>, j: nat, i: nat)
    requires j <= i < |rows|
  {
    forall k :: j <= k <= i ==> rows[k].ConnectionRow? && rows[k].connection.folderId == key
  }

  /** From the row at `i` up there are only connections of its folder, and then that folder's header. */
  ghost predicate UnderItsFolder(rows: seq<Row>, i: nat)
    requires i < |rows| && rows[i].ConnectionRow?
  {
    var key := rows[i].connection.folderId;
    exists j :: 0 <= j <= i && InBlock(rows, key, j, i)
                && (key.None? ==> j == 0)
                && (key.Some? ==> j > 0 && rows[j - 1].FolderRow? && rows[j - 1].folder.id == key.value)
  }

  /** Connections without a folder come first; each other one stands below the header of its folder. */
  lemma {:induction false} ConnectionsUnderTheirFolders(s: Screen)
    requires UniqueIds(s.folders)
    ensures forall i :: 0 <= i < |TreeRows(s)| && TreeRows(s)[i].ConnectionRow? ==> UnderItsFolder(TreeRows(s), i)
  {
    var visits := VisitsBelow(s, [], ChildrenOf(s.folders, None));
    ShownIdsAreEndIds(s);
    RowsFollowVisitsBelow(s, [], ChildrenOf(s.folders, None));
    VisitsUnderFolders(s, visits);
    UnfiledFirst(ConnectionsIn(s.connections, None), RowsOf(s, visits));
  }

  lemma {:induction false} UnfiledFirst(unfiled: seq<Connection>, others: seq<Row>)
    requires forall c :: c in unfiled ==> c.folderId == None
    requires forall i :: 0 <= i < |others| && others[i].ConnectionRow? ==> UnderAFolder(others, i)
    ensures var rows := ConnectionRows(unfiled, 0) + others;
            forall i :: 0 <= i < |rows| && rows[i].ConnectionRow? ==> UnderItsFolder(rows, i)
  {
    var first := ConnectionRows(unfiled, 0);
    var rows := first + others;
    forall i | 0 <= i < |rows| && rows[i].ConnectionRow?
      ensures UnderItsFolder(rows, i)
    {
      if i < |first| {
        forall k | 0 <= k <= i
          ensures rows[k].ConnectionRow? && rows[k].connection.folderId == None
        {
          assert rows[k] == first[k] && unfiled[k] in unfiled;
        }
        assert InBlock(rows, None, 0, i);
      } else {
        assert others[i - |first|] == rows[i];
        UnderFolderLater(first, others, i - |first|);
      }
    }
  }

  /** The same of the rows from some header on, where every block has one. */
  ghost predicate UnderAFolder(rows: seq<Row>, i: nat)
    requires i < |rows| && rows[i].ConnectionRow?
  {
    rows[i].connection.folderId.Some? && UnderItsFolder(rows, i)
  }

  lemma {:induction false} VisitsUnderFolders(s: Screen, visits: seq<seq<Folder>>)
    requires NoneEmpty(visits)
    ensures forall i :: 0 <= i < |RowsOf(s, visits)| && RowsOf(s, visits)[i].ConnectionRow? ==>
                          UnderAFolder(RowsOf(s, visits), i)
  {
    if visits != [] {
      var v := visits[0];
      assert v != [];
      var first, others := RowsAt(s, v), RowsOf(s, visits[1..]);
      VisitsUnderFolders(s, visits[1..]);
      var rows := first + others;
      forall i | 0 <= i < |rows| && rows[i].ConnectionRow?
        ensures UnderAFolder(rows, i)
      {
        if i < |first| {
          var key := KeyOf(v);
          forall k | 1 <= k < |first|
            ensures first[k].ConnectionRow? && first[k].connection.folderId == key
          {
            assert first[k].connection in ConnectionsIn(s.connections, key);
          }
          assert rows[0] == Header(s, v) && InBlock(rows, key, 1, i);
        } else {
          UnderFolderLater(first, others, i - |first|);
        }
      }
    }
  }

  lemma {:induction false} UnderFolderLater(first: seq<Row>, others: seq<Row>, i: nat)
    requires i < |others| && others[i].ConnectionRow? && UnderAFolder(others, i)
    ensures UnderAFolder(first + others, |first| + i)
  {
    var key := others[i].connection.folderId;
    var j :| 0 <= j <= i && InBlock(others, key, j, i) && j > 0 && others[j - 1].FolderRow?
             && others[j - 1].folder.id == key.value;
    var rows := first + others;
    assert forall k :: 0 <= k < |others| ==> rows[|first| + k] == others[k];
    forall k | |first| + j <= k <= |first| + i
      ensures rows[k].ConnectionRow? && rows[k].connection.folderId == key
    {
      assert rows[k] == others[k - |first|];
    }
    assert InBlock(rows, key, |first| + j, |first| + i) && rows[|first| + j - 1] == others[j - 1];
  }

  // ---- Filtering ----

  /** What is left of `rows` when only the connections satisfying `p` are listed: headers recount theirs. */
  ghost function Keep(p: Connection -> bool, connections: seq<Connection>, rows: seq<Row>): seq<Row> {
    if rows == [] then []
    else
      (match rows[0]
       case FolderRow(f, _, open, indent) =>
         [FolderRow(f, |ConnectionsIn(Filter(p, connections), Some(f.id))|, open, indent)]
       case ConnectionRow(c, _) => if p(c) then [rows[0]] else [])
      + Keep(p, connections, rows[1..])
  }

  lemma {:induction false} KeepConcat(p: Connection -> bool, connections: seq<Connection>, a: seq<Row>, b: seq<Row>)
    ensures Keep(p, connections, a + b) == Keep(p, connections, a) + Keep(p, connections, b)
  {
    if a == [] {
      assert a + b == b;
    } else {
      assert (a + b)[1..] == a[1..] + b;
      KeepConcat(p, connections, a[1..], b);
    }
  }

  lemma {:induction false} KeepConnectionRows(
    p: Connection -> bool, all: seq<Connection>, own: seq<Connection>, indent: nat)
    ensures Keep(p, all, ConnectionRows(own, indent)) == ConnectionRows(Filter(p, own), indent)
  {
    if own != [] {
      KeepConnectionRows(p, all, own[1..], indent);
      var rows := ConnectionRows(own, indent);
      assert rows[1..] == ConnectionRows(own[1..], indent) && rows[0] == ConnectionRow(own[0], indent);
      assert ConnectionRows([own[0]] + Filter(p, own[1..]), indent)
          == [ConnectionRow(own[0], indent)] + ConnectionRows(Filter(p, own[1..]), indent);
    }
  }

  /** Grouping the filtered list is filtering each group: grouping is a stable partition. */
  lemma {:induction false} FilterThenGroup(p: Connection -> bool, connections: seq<Connection>, key: Option<string>)
    ensures ConnectionsIn(Filter(p, connections), key) == Filter(p, ConnectionsIn(connections, key))
  {
    if connections != [] {
      FilterThenGroup(p, connections[1..], key);
    }
  }

  lemma {:induction false} FilterContents(s: Screen, p: Connection -> bool, path: seq<Folder>)
    requires UniqueIds(s.folders) && Chain(s.folders, path)
    ensures Contents(s.(connections := Filter(p, s.connections)), path) == Keep(p, s.connections, Contents(s, path))
    decreases |s.folders| - |path|, 1, 0
  {
    ChainBound(s.folders, path);
    var own, kids := ConnectionsIn(s.connections, KeyOf(path)), ChildrenOf(s.folders, KeyOf(path));
    FilterThenGroup(p, s.connections, KeyOf(path));
    KeepConnectionRows(p, s.connections, own, |path|);
    FilterForest(s, p, path, kids);
    KeepConcat(p, s.connections, ConnectionRows(own, |path|), ForestRows(s, path, kids));
  }

  lemma {:induction false} FilterFolder(s: Screen, p: Connection -> bool, path: seq<Folder>)
    requires UniqueIds(s.folders) && Chain(s.folders, path) && path != []
    ensures FolderRows(s.(connections := Filter(p, s.connections)), path) == Keep(p, s.connections, FolderRows(s, path))
    decreases |s.folders| - |path|, 2, 0
  {
    ChainBound(s.folders, path);
    FilterContents(s, p, path);
    var below := if Last(path).id in s.expanded then Contents(s, path) else [];
    assert FolderRows(s, path) == [Header(s, path)] + below;
    KeepConcat(p, s.connections, [Header(s, path)], below);
  }

  lemma {:induction false} FilterForest(s: Screen, p: Connection -> bool, path: seq<Folder>, kids: seq<Folder>)
    requires UniqueIds(s.folders) && Chain(s.folders, path)
    requires forall k :: k in kids ==> k in ChildrenOf(s.folders, KeyOf(path))
    ensures ForestRows(s.(connections := Filter(p, s.connections)), path, kids)
         == Keep(p, s.connections, ForestRows(s, path, kids))
    decreases |s.folders| - |path|, 0, |kids|
  {
    if kids != [] {
      ChainExtends(s.folders, path, kids[0]);
      FilterFolder(s, p, path + [kids[0]]);
      FilterForest(s, p, path, kids[1..]);
      KeepConcat(p, s.connections, FolderRows(s, path + [kids[0]]), ForestRows(s, path, kids[1..]));
    }
  }

  /**
    Filtering commutes with rendering: the rows of the filtered connections are the rows of all of them
    without the rejected connection rows, every header recounting what is left in its folder.
  */
  lemma {:induction false} FilterCommutes(s: Screen, p: Connection -> bool)
    requires UniqueIds(s.folders)
    ensures TreeRows(s.(connections := Filter(p, s.connections))) == Keep(p, s.connections, TreeRows(s))
  {
    FilterContents(s, p, []);
  }
}
