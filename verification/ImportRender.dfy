/**
  From the XML file to the screen: the import flattens the tree, the vault drops duplicates, the home
  screen rebuilds the tree, and what appears is the preorder of the file.
*/
module ImportRender {
  import opened Collections
  import opened Models
  import opened FolderTree
  import opened Forest
  import opened Import
  import opened VaultOps

  // ---- What a reader of the file expects to see ----

  /** A row without the ids that the import invents. */
  datatype Line =
    | FolderLine(name: string, count: nat, indent: nat)
    | ConnectionLine(connection: Connection, indent: nat)

  function Anonymous(row: Row): Line {
    match row
    case FolderRow(f, count, _, indent) => FolderLine(f.name, count, indent)
    case ConnectionRow(c, indent) => ConnectionLine(c.(id := "", folderId := None), indent)
  }

  function Lines(rows: seq<Row>): seq<Line> {
    if rows == [] then [] else [Anonymous(rows[0])] + Lines(rows[1..])
  }

  predicate IsPlain(x: Xml) {
    IsNode(x) && !IsContainer(x)
  }

  function PlainLines(env: Env, nodes: seq<Xml>, indent: nat): seq<Line> {
    if nodes == [] then []
    else (if IsPlain(nodes[0]) then [ConnectionLine(ToConnection(env, nodes[0], "", None), indent)] else [])
         + PlainLines(env, nodes[1..], indent)
  }

  function ContainerLines(env: Env, nodes: seq<Xml>, indent: nat): seq<Line>
    decreases nodes, 0
  {
    if nodes == [] then []
    else (if IsContainer(nodes[0]) then
            var inside := nodes[0].children;
            [FolderLine(NodeName(nodes[0]), |PlainLines(env, inside, indent + 1)|, indent)]
            + XmlLines(env, inside, indent + 1)
          else [])
         + ContainerLines(env, nodes[1..], indent)
  }

  /** The preorder of the file: connections before containers, siblings in order, one indent a level. */
  function XmlLines(env: Env, nodes: seq<Xml>, indent: nat): seq<Line>
    decreases nodes, 1
  {
    PlainLines(env, nodes, indent) + ContainerLines(env, nodes, indent)
  }

  function XmlEndpoint(env: Env, x: Xml): Endpoint
    requires IsNode(x)
  {
    EndpointOf(ToConnection(env, x, "", None))
  }

  /** The endpoints of the reachable connections, in document order. */
  function XmlEndpoints(env: Env, nodes: seq<Xml>): seq<Endpoint>
    decreases nodes
  {
    if nodes == [] then []
    else (if IsContainer(nodes[0]) then XmlEndpoints(env, nodes[0].children)
          else if IsNode(nodes[0]) then [XmlEndpoint(env, nodes[0])]
          else [])
         + XmlEndpoints(env, nodes[1..])
  }

  /** The file without the connections whose endpoint is in `seen` or came earlier, and the endpoints seen. */
  function Prune(env: Env, nodes: seq<Xml>, seen: set<Endpoint>): (seq<Xml>, set<Endpoint>)
    decreases nodes
  {
    if nodes == [] then ([], seen)
    else if IsContainer(nodes[0]) then
      var (inside, seen1) := Prune(env, nodes[0].children, seen);
      var (rest, seen2) := Prune(env, nodes[1..], seen1);
      ([nodes[0].(children := inside)] + rest, seen2)
    else if IsNode(nodes[0]) && XmlEndpoint(env, nodes[0]) in seen then
      Prune(env, nodes[1..], seen)
    else
      var (rest, seen2) :=
        Prune(env, nodes[1..], if IsNode(nodes[0]) then seen + {XmlEndpoint(env, nodes[0])} else seen);
      ([nodes[0]] + rest, seen2)
  }

  function AsSet(es: seq<Endpoint>): set<Endpoint> {
    set e | e in es
  }

  lemma {:induction false} DistinctNeedsNoPruning(env: Env, nodes: seq<Xml>, seen: set<Endpoint>)
    requires NoDup(XmlEndpoints(env, nodes)) && AsSet(XmlEndpoints(env, nodes)) !! seen
    ensures Prune(env, nodes, seen) == (nodes, seen + AsSet(XmlEndpoints(env, nodes)))
    decreases nodes
  {
    if nodes == [] {
      assert seen + AsSet([]) == seen;
    } else {
      var rest := nodes[1..];
      var first := if IsContainer(nodes[0]) then XmlEndpoints(env, nodes[0].children)
                   else if IsNode(nodes[0]) then [XmlEndpoint(env, nodes[0])]
                   else [];
      assert XmlEndpoints(env, nodes) == first + XmlEndpoints(env, rest);
      NoDupSplit(first, XmlEndpoints(env, rest));
      SetsApart(first, XmlEndpoints(env, rest), seen);
      DistinctNeedsNoPruning(env, rest, seen + AsSet(first));
      assert nodes == [nodes[0]] + rest;
      if IsContainer(nodes[0]) {
        DistinctNeedsNoPruning(env, nodes[0].children, seen);
        assert nodes[0].(children := nodes[0].children) == nodes[0];
      } else if IsNode(nodes[0]) {
        assert first[0] in AsSet(first) && seen + {first[0]} == seen + AsSet(first);
      } else {
        assert seen + AsSet(first) == seen;
      }
    }
  }

  lemma {:induction false} SetsApart(first: seq<Endpoint>, others: seq<Endpoint>, seen: set<Endpoint>)
    requires (forall e :: e in first ==> e !in others) && AsSet(first + others) !! seen
    ensures AsSet(first) !! seen && AsSet(others) !! seen + AsSet(first)
    ensures seen + AsSet(first + others) == seen + AsSet(first) + AsSet(others)
    ensures first == [] ==> seen + AsSet(first) == seen
    ensures |first| == 1 ==> AsSet(first) == {first[0]}
  {
    forall e
      ensures e in AsSet(first + others) <==> e in AsSet(first) || e in AsSet(others)
    {
      assert e in first + others <==> e in first || e in others;
    }
  }

  // ---- Deduplication, on the tree ----

  /** The forest that the vault's deduplication leaves, and the endpoints known after it. */
  function Dedup(ts: seq<Tree>, seen: set<Endpoint>, ids: seq<string>): (seq<Tree>, set<Endpoint>)
    requires |ids| == |Connections(ts)|
    decreases ts
  {
    if ts == [] then ([], seen)
    else
      match ts[0]
      case Leaf(c) =>
        if EndpointOf(c) in seen then Dedup(ts[1..], seen, ids[1..])
        else
          var (rest, seen2) := Dedup(ts[1..], seen + {EndpointOf(c)}, ids[1..]);
          ([Leaf(c.(id := ids[0]))] + rest, seen2)
      case Branch(f, kids) =>
        var (kids', seen1) := Dedup(kids, seen, ids[..|Connections(kids)|]);
        var (rest, seen2) := Dedup(ts[1..], seen1, ids[|Connections(kids)|..]);
        ([Branch(f, kids')] + rest, seen2)
  }

  lemma {:induction false} DedupKeepsFolders(ts: seq<Tree>, seen: set<Endpoint>, ids: seq<string>, key: Option<string>)
    requires |ids| == |Connections(ts)| && Linked(ts, key)
    ensures var ts' := Dedup(ts, seen, ids).0;
            Folders(ts') == Folders(ts) && Linked(ts', key)
    decreases ts
  {
    if ts != [] {
      match ts[0] {
        case Leaf(c) =>
          var seen' := if EndpointOf(c) in seen then seen else seen + {EndpointOf(c)};
          DedupKeepsFolders(ts[1..], seen', ids[1..], key);
          assert Folders(ts) == Folders(ts[1..]);
          var rest := Dedup(ts[1..], seen', ids[1..]).0;
          LeafLists(c.(id := ids[0]), rest);
          assert ([Leaf(c.(id := ids[0]))] + rest)[1..] == rest;
        case Branch(f, kids) =>
          var k := |Connections(kids)|;
          var (kids', seen1) := Dedup(kids, seen, ids[..k]);
          DedupKeepsFolders(kids, seen, ids[..k], Some(f.id));
          DedupKeepsFolders(ts[1..], seen1, ids[k..], key);
          var rest := Dedup(ts[1..], seen1, ids[k..]).0;
          BranchLists(f, kids', rest);
          assert ([Branch(f, kids')] + rest)[1..] == rest;
      }
    }
  }

  /** The vault's import of the flat list is deduplication on the tree. */
  lemma {:induction false} ImportIsDedup(ts: seq<Tree>, cs: seq<Connection>, ids: seq<string>)
    requires |ids| == |Connections(ts)|
    ensures var (ts', seen) := Dedup(ts, Endpoints(cs), ids);
            && ImportBatch(cs, Connections(ts), ids).0 == cs + Connections(ts')
            && Endpoints(cs + Connections(ts')) == seen
    decreases ts
  {
    if ts == [] {
      assert cs + [] == cs;
    } else {
      var rest := ts[1..];
      match ts[0] {
        case Leaf(c) =>
          var c' := c.(id := ids[0]);
          assert Connections(ts) == [c] + Connections(rest) && Connections(ts)[1..] == Connections(rest);
          if EndpointOf(c) in Endpoints(cs) {
            ImportIsDedup(rest, cs, ids[1..]);
          } else {
            EndpointsConcat(cs, [c']);
            assert Endpoints([c']) == {EndpointOf(c)};
            ImportIsDedup(rest, cs + [c'], ids[1..]);
            var rest' := Dedup(rest, Endpoints(cs) + {EndpointOf(c)}, ids[1..]).0;
            LeafLists(c', rest');
            Assoc(cs, [c'], Connections(rest'));
          }
        case Branch(f, kids) =>
          var k := |Connections(kids)|;
          var (kids', seen1) := Dedup(kids, Endpoints(cs), ids[..k]);
          ImportIsDedup(kids, cs, ids[..k]);
          ImportIsDedup(rest, cs + Connections(kids'), ids[k..]);
          var rest' := Dedup(rest, seen1, ids[k..]).0;
          ImportInTwo(cs, Connections(kids), Connections(rest), ids[..k], ids[k..]);
          Rejoin(ids, k);
          BranchLists(f, kids', rest');
          Assoc(cs, Connections(kids'), Connections(rest'));
      }
    }
  }

  lemma {:induction false} Rejoin<T>(xs: seq<T>, k: nat)
    requires k <= |xs|
    ensures xs[..k] + xs[k..] == xs
  {
  }

  // ---- The rows of the tree are the lines of the file ----

  lemma {:induction false} LinesConcat(a: seq<Row>, b: seq<Row>)
    ensures Lines(a + b) == Lines(a) + Lines(b)
  {
    if a == [] {
      assert a + b == b;
    } else {
      assert (a + b)[1..] == a[1..] + b;
      LinesConcat(a[1..], b);
    }
  }

  lemma {:induction false} LinesLength(rows: seq<Row>)
    ensures |Lines(rows)| == |rows|
  {
    if rows != [] {
      LinesLength(rows[1..]);
    }
  }

  lemma {:induction false} ConnectionRowsFirst(c: Connection, cs: seq<Connection>, indent: nat)
    ensures ConnectionRows([c] + cs, indent) == [ConnectionRow(c, indent)] + ConnectionRows(cs, indent)
  {
  }

  /** The deduplicated forest of `nodes`, as the import builds it. */
  ghost function Kept(env: Env, nodes: seq<Xml>, key: Option<string>, n: nat, seen: set<Endpoint>, ids: seq<string>)
    : (seq<Tree>, set<Endpoint>)
    requires |ids| == |Connections(Build(env, nodes, key, n).0)|
  {
    Dedup(Build(env, nodes, key, n).0, seen, ids)
  }

  lemma {:induction false} KeptLines(
    env: Env, nodes: seq<Xml>, key: Option<string>, n: nat, seen: set<Endpoint>, ids: seq<string>, indent: nat)
    requires |ids| == |Connections(Build(env, nodes, key, n).0)|
    ensures var (ts, after) := Kept(env, nodes, key, n, seen, ids);
            var (pruned, after') := Prune(env, nodes, seen);
            && after == after'
            && Lines(ConnectionRows(Leaves(ts), indent)) == PlainLines(env, pruned, indent)
            && Lines(BranchRows(ts, indent)) == ContainerLines(env, pruned, indent)
    decreases nodes
  {
    if nodes != [] {
      if IsContainer(nodes[0]) {
        var id := env.uuid(n);
        var (kids, n1) := Build(env, nodes[0].children, Some(id), n + 1);
        var k := |Connections(kids)|;
        var (kids', seen1) := Kept(env, nodes[0].children, Some(id), n + 1, seen, ids[..k]);
        KeptLines(env, nodes[0].children, Some(id), n + 1, seen, ids[..k], indent + 1);
        KeptLines(env, nodes[1..], key, n1, seen1, ids[k..], indent);
        var inside := Prune(env, nodes[0].children, seen).0;
        var rest, rest' := Kept(env, nodes[1..], key, n1, seen1, ids[k..]).0, Prune(env, nodes[1..], seen1).0;
        BranchLines(env, Folder(id, NodeName(nodes[0]), key), kids', rest, nodes[0].(children := inside), rest', indent);
      } else if IsNode(nodes[0]) {
        var e := XmlEndpoint(env, nodes[0]);
        var seen1 := if e in seen then seen else seen + {e};
        KeptLines(env, nodes[1..], key, n + 1, seen1, ids[1..], indent);
        if e !in seen {
          var rest, rest' := Kept(env, nodes[1..], key, n + 1, seen1, ids[1..]).0, Prune(env, nodes[1..], seen1).0;
          LeafLines(env, nodes[0], ids[0], key, rest, rest', indent);
        }
      } else {
        KeptLines(env, nodes[1..], key, n, seen, ids, indent);
        var rest' := Prune(env, nodes[1..], seen).0;
        assert ([nodes[0]] + rest')[1..] == rest';
      }
    }
  }

  lemma {:induction false} BranchLines(
    env: Env, f: Folder, kids: seq<Tree>, rest: seq<Tree>, x: Xml, rest': seq<Xml>, indent: nat)
    requires IsContainer(x) && f.name == NodeName(x)
    requires Lines(ConnectionRows(Leaves(kids), indent + 1)) == PlainLines(env, x.children, indent + 1)
    requires Lines(BranchRows(kids, indent + 1)) == ContainerLines(env, x.children, indent + 1)
    requires Lines(BranchRows(rest, indent)) == ContainerLines(env, rest', indent)
    ensures Leaves([Branch(f, kids)] + rest) == Leaves(rest)
    ensures PlainLines(env, [x] + rest', indent) == PlainLines(env, rest', indent)
    ensures Lines(BranchRows([Branch(f, kids)] + rest, indent)) == ContainerLines(env, [x] + rest', indent)
  {
    var header := FolderRow(f, |Leaves(kids)|, true, indent);
    LinesLength(ConnectionRows(Leaves(kids), indent + 1));
    LinesConcat(ConnectionRows(Leaves(kids), indent + 1), BranchRows(kids, indent + 1));
    LinesConcat([header], Preorder(kids, indent + 1));
    LinesConcat([header] + Preorder(kids, indent + 1), BranchRows(rest, indent));
    assert Lines([header]) == [Anonymous(header)];
  }

  lemma {:induction false} LeafLines(
    env: Env, x: Xml, id: string, key: Option<string>, rest: seq<Tree>, rest': seq<Xml>, indent: nat)
    requires IsPlain(x)
    requires Lines(ConnectionRows(Leaves(rest), indent)) == PlainLines(env, rest', indent)
    ensures var ts := [Leaf(ToConnection(env, x, id, key))] + rest;
            && Lines(ConnectionRows(Leaves(ts), indent)) == PlainLines(env, [x] + rest', indent)
            && BranchRows(ts, indent) == BranchRows(rest, indent)
            && ContainerLines(env, [x] + rest', indent) == ContainerLines(env, rest', indent)
  {
    var c := ToConnection(env, x, id, key);
    assert ([Leaf(c)] + rest)[1..] == rest && ([x] + rest')[1..] == rest';
    ConnectionRowsFirst(c, Leaves(rest), indent);
    LinesConcat([ConnectionRow(c, indent)], ConnectionRows(Leaves(rest), indent));
    assert Lines([ConnectionRow(c, indent)]) == [Anonymous(ConnectionRow(c, indent))];
  }

  // ---- The theorem ----

  /**
    For every file: importing it into an empty vault and showing the vault, all folders expanded, gives
    the preorder of the file without the connections whose endpoint came before.
  */
  lemma {:induction false} ImportThenRender(env: Env, nodes: seq<Xml>, n: nat, ids: seq<string>, expanded: set<string>)
    requires env.FreshIds()
    requires |ids| == |Connections(Build(env, nodes, None, n).0)|
    requires FolderIds(Folders(Build(env, nodes, None, n).0)) <= expanded
    ensures var ts := Build(env, nodes, None, n).0;
            var ops := ImportOps(Folders(ts), Connections(ts), ids);
            && (forall op :: op in ops ==> op.WellFormed())
            && CallersObey(ops, EMPTY_DATA)
            && var d := RunOps(ops, EMPTY_DATA);
               && UniqueIds(d.folders)
               && Lines(TreeRows(Screen(d.folders, d.connections, expanded)))
                  == XmlLines(env, Prune(env, nodes, {}).0, 0)
  {
    var ts := Build(env, nodes, None, n).0;
    ImportIsForest(env, nodes, n);
    assert [] + Folders(ts) == Folders(ts);
    ImportRun(Folders(ts), Connections(ts), ids, EMPTY_DATA);
    var ts' := Dedup(ts, {}, ids).0;
    ImportIsDedup(ts, [], ids);
    assert [] + Connections(ts') == Connections(ts');
    BuildIsLinked(env, nodes, None, n);
    DedupKeepsFolders(ts, {}, ids, None);
    Rebuild(ts', expanded);
    KeptLines(env, nodes, None, n, {}, ids, 0);
    LinesConcat(ConnectionRows(Leaves(ts'), 0), BranchRows(ts', 0));
  }

  /** When no endpoint repeats in the file, nothing is lost: the screen shows the preorder of the file. */
  lemma {:induction false} DistinctImportThenRender(
    env: Env, nodes: seq<Xml>, n: nat, ids: seq<string>, expanded: set<string>)
    requires env.FreshIds() && NoDup(XmlEndpoints(env, nodes))
    requires |ids| == |Connections(Build(env, nodes, None, n).0)|
    requires FolderIds(Folders(Build(env, nodes, None, n).0)) <= expanded
    ensures var ts := Build(env, nodes, None, n).0;
            var ops := ImportOps(Folders(ts), Connections(ts), ids);
            && (forall op :: op in ops ==> op.WellFormed())
            && var d := RunOps(ops, EMPTY_DATA);
               && UniqueIds(d.folders)
               && Lines(TreeRows(Screen(d.folders, d.connections, expanded))) == XmlLines(env, nodes, 0)
  {
    ImportThenRender(env, nodes, n, ids, expanded);
    DistinctNeedsNoPruning(env, nodes, {});
  }
}
