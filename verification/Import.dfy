/**
  The mRemoteNG import (rust/src/api/import.rs): a recursive walk over an XML tree that fills two flat
  lists, and the tree that those lists encode.
*/
module Import {
  import opened Collections
  import opened Models
  import opened Forest

  datatype Xml = Element(tag: string, attributes: map<string, string>, children: seq<Xml>) | Other

  /** Library functions the walk calls: the n-th UUID drawn and `to_uppercase`. */
  datatype Env = Env(uuid: nat -> string, upper: string -> string) {
    /** Random UUIDs never collide. */
    ghost predicate FreshIds() {
      forall i, j :: i != j ==> uuid(i) != uuid(j)
    }
  }

  function Attribute(attributes: map<string, string>, name: string, default: string): string {
    if name in attributes then attributes[name] else default
  }

  function NonEmpty(attributes: map<string, string>, name: string): Option<string> {
    if name in attributes && attributes[name] != "" then Some(attributes[name]) else None
  }

  function ParseProtocol(s: string): Protocol {
    match s
    case "RDP" => Rdp
    case "VNC" => Vnc
    case "HTTP" => Http
    case "HTTPS" => Https
    case _ => Ssh
  }

  function ParseDigits(s: string): Option<nat> {
    if s == "" || !('0' <= s[|s| - 1] <= '9') then None
    else
      var digit := s[|s| - 1] as int - '0' as int;
      if |s| == 1 then Some(digit)
      else
        var high :- ParseDigits(s[..|s| - 1]);
        Some(10 * high + digit)
  }

  /** A decimal number of 16 bits, with an optional plus sign. */
  function ParsePort(s: string): Option<u16> {
    var n :- ParseDigits(if s != "" && s[0] == '+' then s[1..] else s);
    if n < 0x1_0000 then Some(n) else None
  }

  predicate IsNode(x: Xml) {
    x.Element? && x.tag == "Node"
  }

  predicate IsContainer(x: Xml) {
    IsNode(x) && Attribute(x.attributes, "Type", "Connection") == "Container"
  }

  function NodeName(x: Xml): string
    requires IsNode(x)
  {
    Attribute(x.attributes, "Name", "Unnamed")
  }

  function ToConnection(env: Env, x: Xml, id: string, key: Option<string>): Connection
    requires IsNode(x)
  {
    var a := x.attributes;
    var port := ParsePort(Attribute(a, "Port", "22"));
    Connection(
      id, NodeName(x), ParseProtocol(env.upper(Attribute(a, "Protocol", "SSH"))), Attribute(a, "Hostname", ""),
      if port.Some? then port.value else 22,
      NonEmpty(a, "Username"), NonEmpty(a, "Password"), None, None, key, [], NonEmpty(a, "Description"), None,
      DEFAULT_TIMEOUT, None)
  }

  // ---- The tree behind the lists ----

  /** The forest of the Node elements among `nodes`, its ids drawn in document order from the n-th on. */
  function Build(env: Env, nodes: seq<Xml>, key: Option<string>, n: nat): (r: (seq<Tree>, nat))
    ensures n <= r.1
    decreases nodes
  {
    if nodes == [] then ([], n)
    else if IsContainer(nodes[0]) then
      var id := env.uuid(n);
      var (kids, n1) := Build(env, nodes[0].children, Some(id), n + 1);
      var (rest, n2) := Build(env, nodes[1..], key, n1);
      ([Branch(Folder(id, NodeName(nodes[0]), key), kids)] + rest, n2)
    else if IsNode(nodes[0]) then
      var (rest, n2) := Build(env, nodes[1..], key, n + 1);
      ([Leaf(ToConnection(env, nodes[0], env.uuid(n), key))] + rest, n2)
    else Build(env, nodes[1..], key, n)
  }

  /** The Node elements whose enclosing Node elements are all containers. */
  function CountNodes(nodes: seq<Xml>): nat
    decreases nodes
  {
    if nodes == [] then 0
    else (if IsContainer(nodes[0]) then 1 + CountNodes(nodes[0].children) else if IsNode(nodes[0]) then 1 else 0)
         + CountNodes(nodes[1..])
  }

  function CountContainers(nodes: seq<Xml>): nat
    decreases nodes
  {
    if nodes == [] then 0
    else (if IsContainer(nodes[0]) then 1 + CountContainers(nodes[0].children) else 0) + CountContainers(nodes[1..])
  }

  /** The ids of folders and connections, in document order. */
  function Ids(ts: seq<Tree>): seq<string>
    decreases ts
  {
    if ts == [] then []
    else (match ts[0]
          case Leaf(c) => [c.id]
          case Branch(f, kids) => [f.id] + Ids(kids))
         + Ids(ts[1..])
  }

  function Drawn(env: Env, n: nat, m: nat): (ids: seq<string>)
    requires n <= m
    ensures |ids| == m - n && forall i :: 0 <= i < |ids| ==> ids[i] == env.uuid(n + i)
  {
    seq(m - n, i requires 0 <= i < m - n => env.uuid(n + i))
  }

  lemma {:induction false} DrawnSplit(env: Env, n: nat, m: nat, k: nat)
    requires n <= m <= k
    ensures Drawn(env, n, k) == Drawn(env, n, m) + Drawn(env, m, k)
    ensures m == n + 1 ==> Drawn(env, n, m) == [env.uuid(n)]
  {
  }

  lemma {:induction false} BranchLists(folder: Folder, kids: seq<Tree>, rest: seq<Tree>)
    ensures var ts := [Branch(folder, kids)] + rest;
            && Folders(ts) == [folder] + Folders(kids) + Folders(rest)
            && Connections(ts) == Connections(kids) + Connections(rest)
            && Ids(ts) == [folder.id] + Ids(kids) + Ids(rest)
  {
    assert ([Branch(folder, kids)] + rest)[1..] == rest;
  }

  lemma {:induction false} LeafLists(c: Connection, rest: seq<Tree>)
    ensures var ts := [Leaf(c)] + rest;
            && Folders(ts) == Folders(rest)
            && Connections(ts) == [c] + Connections(rest)
            && Ids(ts) == [c.id] + Ids(rest)
  {
    assert ([Leaf(c)] + rest)[1..] == rest;
    assert [] + Folders(rest) == Folders(rest);
  }

  /** How the walk continues after its first node. */
  lemma {:induction false} BuildFirst(env: Env, nodes: seq<Xml>, key: Option<string>, n: nat)
    requires nodes != []
    ensures IsContainer(nodes[0]) ==>
              var id := env.uuid(n);
              var (kids, n1) := Build(env, nodes[0].children, Some(id), n + 1);
              var (rest, n2) := Build(env, nodes[1..], key, n1);
              Build(env, nodes, key, n) == ([Branch(Folder(id, NodeName(nodes[0]), key), kids)] + rest, n2)
    ensures IsNode(nodes[0]) && !IsContainer(nodes[0]) ==>
              var (rest, n2) := Build(env, nodes[1..], key, n + 1);
              Build(env, nodes, key, n) == ([Leaf(ToConnection(env, nodes[0], env.uuid(n), key))] + rest, n2)
    ensures !IsNode(nodes[0]) ==> Build(env, nodes, key, n) == Build(env, nodes[1..], key, n)
  {
  }

  /** Ids are handed out in document order, one to each reachable Node element. */
  lemma {:induction false} BuildDrawsInOrder(env: Env, nodes: seq<Xml>, key: Option<string>, n: nat)
    ensures var (ts, m) := Build(env, nodes, key, n);
            Ids(ts) == Drawn(env, n, m)
    decreases nodes
  {
    if nodes != [] {
      BuildFirst(env, nodes, key, n);
      if IsContainer(nodes[0]) {
        var id := env.uuid(n);
        var (kids, n1) := Build(env, nodes[0].children, Some(id), n + 1);
        var (rest, n2) := Build(env, nodes[1..], key, n1);
        BuildDrawsInOrder(env, nodes[0].children, Some(id), n + 1);
        BuildDrawsInOrder(env, nodes[1..], key, n1);
        BranchLists(Folder(id, NodeName(nodes[0]), key), kids, rest);
        DrawnSplit(env, n, n + 1, n1);
        DrawnSplit(env, n, n1, n2);
      } else if IsNode(nodes[0]) {
        var (rest, n2) := Build(env, nodes[1..], key, n + 1);
        BuildDrawsInOrder(env, nodes[1..], key, n + 1);
        LeafLists(ToConnection(env, nodes[0], env.uuid(n), key), rest);
        DrawnSplit(env, n, n + 1, n2);
      } else {
        BuildDrawsInOrder(env, nodes[1..], key, n);
      }
    }
  }

  /** Every reachable container becomes a folder of its own, whatever its name, and nothing else does. */
  lemma {:induction false} BuildCounts(env: Env, nodes: seq<Xml>, key: Option<string>, n: nat)
    ensures var ts := Build(env, nodes, key, n).0;
            && |Folders(ts)| == CountContainers(nodes)
            && |Folders(ts)| + |Connections(ts)| == CountNodes(nodes)
    decreases nodes
  {
    if nodes != [] {
      BuildFirst(env, nodes, key, n);
      if IsContainer(nodes[0]) {
        var id := env.uuid(n);
        var (kids, n1) := Build(env, nodes[0].children, Some(id), n + 1);
        BuildCounts(env, nodes[0].children, Some(id), n + 1);
        BuildCounts(env, nodes[1..], key, n1);
        BranchLists(Folder(id, NodeName(nodes[0]), key), kids, Build(env, nodes[1..], key, n1).0);
      } else if IsNode(nodes[0]) {
        BuildCounts(env, nodes[1..], key, n + 1);
        LeafLists(ToConnection(env, nodes[0], env.uuid(n), key), Build(env, nodes[1..], key, n + 1).0);
      } else {
        BuildCounts(env, nodes[1..], key, n);
      }
    }
  }

  lemma {:induction false} IdsCover(ts: seq<Tree>)
    ensures forall f :: f in Folders(ts) ==> f.id in Ids(ts)
    ensures forall c :: c in Connections(ts) ==> c.id in Ids(ts)
    decreases ts
  {
    if ts != [] {
      IdsCover(ts[1..]);
      if ts[0].Branch? {
        IdsCover(ts[0].kids);
      }
    }
  }

  ghost predicate UniqueConnectionIds(cs: seq<Connection>) {
    forall i, j :: 0 <= i < j < |cs| ==> cs[i].id != cs[j].id
  }

  /** No two of these have the same id. */
  ghost predicate AllDistinct(fs: seq<Folder>, cs: seq<Connection>) {
    && UniqueIds(fs) && UniqueConnectionIds(cs)
    && forall f, c :: f in fs && c in cs ==> f.id != c.id
  }

  ghost predicate Within(fs: seq<Folder>, cs: seq<Connection>, ids: seq<string>) {
    (forall f :: f in fs ==> f.id in ids) && (forall c :: c in cs ==> c.id in ids)
  }

  lemma {:induction false} DistinctIds(ts: seq<Tree>)
    requires NoDup(Ids(ts))
    ensures AllDistinct(Folders(ts), Connections(ts))
    decreases ts, 0
  {
    if ts != [] {
      var rest := ts[1..];
      var (fs, cs, first) := match ts[0]
                             case Leaf(c) => ([], [c], [c.id])
                             case Branch(f, kids) => ([f] + Folders(kids), Connections(kids), [f.id] + Ids(kids));
      NoDupSplit(first, Ids(rest));
      DistinctIds(rest);
      IdsCover(rest);
      if ts[0].Branch? {
        BranchDistinct(ts[0].folder, ts[0].kids);
      }
      JoinDistinct(fs, cs, first, Folders(rest), Connections(rest), Ids(rest));
    }
  }

  lemma {:induction false} BranchDistinct(f: Folder, kids: seq<Tree>)
    requires NoDup([f.id] + Ids(kids))
    ensures AllDistinct([f] + Folders(kids), Connections(kids))
    ensures Within([f] + Folders(kids), Connections(kids), [f.id] + Ids(kids))
    decreases kids, 1
  {
    NoDupSplit([f.id], Ids(kids));
    DistinctIds(kids);
    IdsCover(kids);
    assert f.id in [f.id];
    JoinDistinct([f], [], [f.id], Folders(kids), Connections(kids), Ids(kids));
    assert [] + Connections(kids) == Connections(kids);
  }

  lemma {:induction false} JoinDistinct(
    fs: seq<Folder>, cs: seq<Connection>, ids: seq<string>, fs': seq<Folder>, cs': seq<Connection>, ids': seq<string>)
    requires AllDistinct(fs, cs) && Within(fs, cs, ids) && AllDistinct(fs', cs') && Within(fs', cs', ids')
    requires forall id :: id in ids ==> id !in ids'
    ensures AllDistinct(fs + fs', cs + cs') && Within(fs + fs', cs + cs', ids + ids')
  {
  }

  lemma {:induction false} NoDupSplit<T>(a: seq<T>, b: seq<T>)
    requires NoDup(a + b)
    ensures NoDup(a) && NoDup(b) && forall x :: x in a ==> x !in b
  {
    assert forall i :: 0 <= i < |a| ==> (a + b)[i] == a[i];
    assert forall i :: 0 <= i < |b| ==> (a + b)[|a| + i] == b[i];
  }

  /**
    What the import promises of its two lists: together they hold exactly the reachable Node elements,
    all ids are distinct, every parent comes strictly before its children, and every connection is
    filed in a listed folder or in none.
  */
  lemma {:induction false} ImportIsForest(env: Env, nodes: seq<Xml>, n: nat)
    requires env.FreshIds()
    ensures var ts := Build(env, nodes, None, n).0;
            var fs, cs := Folders(ts), Connections(ts);
            && |fs| == CountContainers(nodes) && |fs| + |cs| == CountNodes(nodes)
            && UniqueIds(fs) && UniqueConnectionIds(cs)
            && (forall f, c :: f in fs && c in cs ==> f.id != c.id)
            && (forall i :: 0 <= i < |fs| && fs[i].parentId.Some? ==> fs[i].parentId.value in FolderIds(fs[..i]))
            && (forall c :: c in cs && c.folderId.Some? ==> c.folderId.value in FolderIds(fs))
  {
    var ts := Build(env, nodes, None, n).0;
    BuildDrawsInOrder(env, nodes, None, n);
    BuildCounts(env, nodes, None, n);
    DistinctIds(ts);
    BuildIsLinked(env, nodes, None, n);
    ParentsComeFirst(ts, None, []);
    assert [] + Folders(ts) == Folders(ts);
  }

  lemma {:induction false} BuildIsLinked(env: Env, nodes: seq<Xml>, key: Option<string>, n: nat)
    ensures Linked(Build(env, nodes, key, n).0, key)
    decreases nodes
  {
    if nodes != [] {
      var n1 := if IsContainer(nodes[0]) then Build(env, nodes[0].children, Some(env.uuid(n)), n + 1).1
                else if IsNode(nodes[0]) then n + 1 else n;
      BuildIsLinked(env, nodes[1..], key, n1);
      if IsContainer(nodes[0]) {
        BuildIsLinked(env, nodes[0].children, Some(env.uuid(n)), n + 1);
      }
    }
  }

  // ---- The walk itself ----

  /** The name-to-id map after meeting `fs`: a later folder of the same name takes the entry over. */
  function Remember(m: map<string, string>, fs: seq<Folder>): map<string, string>
    decreases fs
  {
    if fs == [] then m else Remember(m[fs[0].name := fs[0].id], fs[1..])
  }

  lemma {:induction false} RememberConcat(m: map<string, string>, a: seq<Folder>, b: seq<Folder>)
    ensures Remember(m, a + b) == Remember(Remember(m, a), b)
    decreases a
  {
    if a == [] {
      assert a + b == b;
    } else {
      assert (a + b)[1..] == a[1..] + b;
      RememberConcat(m[a[0].name := a[0].id], a[1..], b);
    }
  }

  class Importer {
    const env: Env
    var connections: seq<Connection>
    var folders: seq<Folder>
    var folderMap: map<string, string>
    var drawn: nat

    constructor (env: Env, drawn: nat)
      ensures this.env == env && this.drawn == drawn && connections == [] && folders == [] && folderMap == map[]
    {
      this.env, this.drawn := env, drawn;
      connections, folders, folderMap := [], [], map[];
    }

    function State(): Lists
      reads this
    {
      Lists(connections, folders, folderMap, drawn)
    }

    method ParseNodes(parent: Xml, key: Option<string>)
      requires parent.Element?
      modifies this
      ensures State() == Fill(env, old(State()), parent.children, key)
      decreases parent
    {
      var nodes := parent.children;
      ghost var start := State();
      assert nodes[..|nodes|] == nodes;
      FillNothing(env, start, key);
      for i := 0 to |nodes|
        invariant State() == Fill(env, start, nodes[..i], key)
      {
        var node := nodes[i];
        ghost var now := State();
        FillOneMore(env, start, nodes, i, key);
        if IsNode(node) {
          var name := NodeName(node);
          if Attribute(node.attributes, "Type", "Connection") == "Container" {
            var id := env.uuid(drawn);
            drawn := drawn + 1;
            folders := folders + [Folder(id, name, key)];
            folderMap := folderMap[name := id];
            assert State() == Entered(env, now, node, key);
            ParseNodes(node, Some(id));
          } else {
            connections := connections + [ToConnection(env, node, env.uuid(drawn), key)];
            drawn := drawn + 1;
          }
        }
      }
    }
  }

  /** What the walk has gathered so far. */
  datatype Lists = Lists(
    connections: seq<Connection>, folders: seq<Folder>, folderMap: map<string, string>, drawn: nat)

  /** What walking over `nodes` makes of `lists`: it appends the two flattenings of their forest. */
  function Fill(env: Env, lists: Lists, nodes: seq<Xml>, key: Option<string>): Lists {
    var (ts, n) := Build(env, nodes, key, lists.drawn);
    Lists(lists.connections + Connections(ts), lists.folders + Folders(ts),
          Remember(lists.folderMap, Folders(ts)), n)
  }

  lemma {:induction false} FillNothing(env: Env, lists: Lists, key: Option<string>)
    ensures Fill(env, lists, [], key) == lists
  {
    assert lists.connections + [] == lists.connections && lists.folders + [] == lists.folders;
  }

  lemma {:induction false} FillConcat(env: Env, lists: Lists, a: seq<Xml>, b: seq<Xml>, key: Option<string>)
    ensures Fill(env, lists, a + b, key) == Fill(env, Fill(env, lists, a, key), b, key)
  {
    BuildConcat(env, a, b, key, lists.drawn);
    var (ts, m) := Build(env, a, key, lists.drawn);
    var us := Build(env, b, key, m).0;
    ListsConcat(ts, us);
    RememberConcat(lists.folderMap, Folders(ts), Folders(us));
    Assoc(lists.connections, Connections(ts), Connections(us));
    Assoc(lists.folders, Folders(ts), Folders(us));
  }

  /** What the walk does with one child. */
  function FillOne(env: Env, now: Lists, node: Xml, key: Option<string>): Lists {
    if IsContainer(node) then Fill(env, Entered(env, now, node, key), node.children, Some(env.uuid(now.drawn)))
    else if IsNode(node) then
      now.(connections := now.connections + [ToConnection(env, node, env.uuid(now.drawn), key)], drawn := now.drawn + 1)
    else now
  }

  /** A container's own folder is listed before the walk goes on inside. */
  function Entered(env: Env, now: Lists, node: Xml, key: Option<string>): Lists
    requires IsNode(node)
  {
    var id := env.uuid(now.drawn);
    Lists(now.connections, now.folders + [Folder(id, NodeName(node), key)], now.folderMap[NodeName(node) := id],
          now.drawn + 1)
  }

  lemma {:induction false} FillSingle(env: Env, now: Lists, node: Xml, key: Option<string>)
    ensures Fill(env, now, [node], key) == FillOne(env, now, node, key)
  {
    var id := env.uuid(now.drawn);
    assert [node][1..] == [];
    BuildFirst(env, [node], key, now.drawn);
    if IsContainer(node) {
      FillBranch(env, now, node, key);
    } else if IsNode(node) {
      LeafLists(ToConnection(env, node, id, key), []);
    }
    FillNothing(env, now, key);
  }

  lemma {:induction false} FillBranch(env: Env, now: Lists, node: Xml, key: Option<string>)
    requires IsContainer(node)
    ensures Fill(env, now, [node], key) == FillOne(env, now, node, key)
  {
    var id := env.uuid(now.drawn);
    var folder := Folder(id, NodeName(node), key);
    var kids := Build(env, node.children, Some(id), now.drawn + 1).0;
    assert [node][1..] == [];
    BuildFirst(env, [node], key, now.drawn);
    BranchLists(folder, kids, []);
    assert [folder] + Folders(kids) + [] == [folder] + Folders(kids) && Connections(kids) + [] == Connections(kids);
    Assoc(now.folders, [folder], Folders(kids));
    RememberConcat(now.folderMap, [folder], Folders(kids));
    assert Remember(now.folderMap, [folder]) == now.folderMap[folder.name := id];
  }

  /** One turn of the loop. */
  lemma {:induction false} FillOneMore(env: Env, lists: Lists, nodes: seq<Xml>, i: nat, key: Option<string>)
    requires i < |nodes|
    ensures Fill(env, lists, nodes[..i + 1], key) == FillOne(env, Fill(env, lists, nodes[..i], key), nodes[i], key)
  {
    TakeOneMore(nodes, i + 1);
    FillConcat(env, lists, nodes[..i], [nodes[i]], key);
    FillSingle(env, Fill(env, lists, nodes[..i], key), nodes[i], key);
  }

  lemma {:induction false} BuildConcat(env: Env, a: seq<Xml>, b: seq<Xml>, key: Option<string>, n: nat)
    ensures var (ts, m) := Build(env, a, key, n);
            var (us, k) := Build(env, b, key, m);
            Build(env, a + b, key, n) == (ts + us, k)
    decreases a
  {
    if a == [] {
      assert a + b == b;
      assert [] + Build(env, b, key, n).0 == Build(env, b, key, n).0;
    } else {
      assert (a + b)[1..] == a[1..] + b && (a + b)[0] == a[0];
      BuildFirst(env, a, key, n);
      BuildFirst(env, a + b, key, n);
      var n1 := if IsContainer(a[0]) then Build(env, a[0].children, Some(env.uuid(n)), n + 1).1
                else if IsNode(a[0]) then n + 1 else n;
      BuildConcat(env, a[1..], b, key, n1);
      var (ts, m) := Build(env, a, key, n);
      if IsNode(a[0]) {
        Assoc([ts[0]], ts[1..], Build(env, b, key, m).0);
      }
    }
  }

  lemma {:induction false} ListsConcat(a: seq<Tree>, b: seq<Tree>)
    ensures Folders(a + b) == Folders(a) + Folders(b)
    ensures Connections(a + b) == Connections(a) + Connections(b)
  {
    FoldersConcat(a, b);
    ConnectionsConcat(a, b);
  }

  lemma {:induction false} FoldersConcat(a: seq<Tree>, b: seq<Tree>)
    ensures Folders(a + b) == Folders(a) + Folders(b)
    decreases a
  {
    if a == [] {
      assert a + b == b;
    } else {
      assert (a + b)[1..] == a[1..] + b && (a + b)[0] == a[0];
      FoldersConcat(a[1..], b);
    }
  }

  lemma {:induction false} ConnectionsConcat(a: seq<Tree>, b: seq<Tree>)
    ensures Connections(a + b) == Connections(a) + Connections(b)
    decreases a
  {
    if a == [] {
      assert a + b == b;
    } else {
      assert (a + b)[1..] == a[1..] + b && (a + b)[0] == a[0];
      ConnectionsConcat(a[1..], b);
    }
  }

  /** The first element tagged `Connections`, in document order. */
  function FindConnections(nodes: seq<Xml>): (r: Option<Xml>)
    ensures r.Some? ==> r.value.Element?
    decreases nodes
  {
    if nodes == [] then None
    else if nodes[0].Element? && nodes[0].tag == "Connections" then Some(nodes[0])
    else
      var inside := if nodes[0].Element? then FindConnections(nodes[0].children) else None;
      if inside.Some? then inside else FindConnections(nodes[1..])
  }

  /** The elements of a document in document order: each before what is inside it. */
  function Descendants(nodes: seq<Xml>): seq<Xml>
    decreases nodes
  {
    if nodes == [] then []
    else
      (if nodes[0].Element? then [nodes[0]] + Descendants(nodes[0].children) else []) + Descendants(nodes[1..])
  }

  ghost predicate IsStart(x: Xml) {
    x.Element? && x.tag == "Connections"
  }

  /** `x` is the first of these elements to have the tag. */
  ghost predicate FirstStart(xs: seq<Xml>, x: Xml) {
    exists i :: 0 <= i < |xs| && xs[i] == x && IsStart(x) && forall j :: 0 <= j < i ==> !IsStart(xs[j])
  }

  /** The search finds the first such element of the whole document, and fails only if there is none. */
  lemma {:induction false} FindsFirst(nodes: seq<Xml>)
    ensures FindConnections(nodes).Some? ==> FirstStart(Descendants(nodes), FindConnections(nodes).value)
    ensures FindConnections(nodes).None? ==> forall x :: x in Descendants(nodes) ==> !IsStart(x)
    decreases nodes
  {
    if nodes != [] {
      var x, rest := nodes[0], Descendants(nodes[1..]);
      FindsFirst(nodes[1..]);
      if x.Element? {
        var inside := Descendants(x.children);
        FindsFirst(x.children);
        if IsStart(x) {
          assert ([x] + inside + rest)[0] == x;
        } else if FindConnections(x.children).Some? {
          FirstLater([x], inside, rest, FindConnections(x.children).value);
        } else if FindConnections(nodes[1..]).Some? {
          FirstLater([x] + inside, rest, [], FindConnections(nodes[1..]).value);
          assert [x] + inside + rest + [] == [x] + inside + rest;
        }
      } else {
        assert [] + rest == rest;
      }
    }
  }

  lemma {:induction false} FirstLater(before: seq<Xml>, xs: seq<Xml>, after: seq<Xml>, x: Xml)
    requires FirstStart(xs, x) && forall y :: y in before ==> !IsStart(y)
    ensures FirstStart(before + xs + after, x)
  {
    var i :| 0 <= i < |xs| && xs[i] == x && IsStart(x) && forall j :: 0 <= j < i ==> !IsStart(xs[j]);
    var all := before + xs + after;
    assert all[|before| + i] == x;
    forall j | 0 <= j < |before| + i
      ensures !IsStart(all[j])
    {
      assert all[j] == if j < |before| then before[j] else xs[j - |before|];
    }
  }

  /** `parse_mremoteng_xml`, from the parsed document on. */
  method ParseDocument(env: Env, root: Xml, drawn: nat)
    returns (r: Option<(seq<Connection>, seq<Folder>)>, after: nat)
    ensures r.None? <==> FindConnections([root]).None?
    ensures r.None? ==> after == drawn
    ensures r.Some? ==>
              var (ts, n) := Build(env, FindConnections([root]).value.children, None, drawn);
              r.value == (Connections(ts), Folders(ts)) && after == n
  {
    var importer := new Importer(env, drawn);
    var start := FindConnections([root]);
    if start.None? {
      return None, drawn;
    }
    importer.ParseNodes(start.value, None);
    ghost var ts := Build(env, start.value.children, None, drawn).0;
    assert [] + Folders(ts) == Folders(ts) && [] + Connections(ts) == Connections(ts);
    r, after := Some((importer.connections, importer.folders)), importer.drawn;
  }
}
