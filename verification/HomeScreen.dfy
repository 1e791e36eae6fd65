/** The home screen's state and the code that turns it into rows (lib/screens/home_screen.dart). */
module HomeScreen {
  import opened Collections
  import opened Models
  import opened FolderTree

  /** The search text (already in lower case), the protocol and the folder the user filters by. */
  datatype Criteria = Criteria(
    lower: string -> string,
    query: string,
    protocol: Option<Protocol>,
    folderId: Option<string>)
  {
    predicate Accepts(c: Connection) {
      && (query == []
          || Contains(lower(c.name), query)
          || Contains(lower(c.host), query)
          || (c.username.Some? && Contains(lower(c.username.value), query))
          || exists i :: 0 <= i < |c.tags| && Contains(lower(c.tags[i]), query))
      && (protocol == None || Some(c.protocol) == protocol)
      && (folderId == None || c.folderId == folderId)
    }
  }

  predicate Contains(text: string, part: string) {
    exists i :: 0 <= i <= |text| && part <= text[i..]
  }

  // ---- What a filter asks ----

  /** The part stands somewhere in the text. */
  ghost predicate Has(text: string, part: string) {
    exists a, b :: text == a + part + b
  }

  /** What the user has asked for is met: each criterion that is set, by itself. */
  ghost predicate Meets(criteria: Criteria, c: Connection) {
    && (criteria.protocol.Some? ==> c.protocol == criteria.protocol.value)
    && (criteria.folderId.Some? ==> c.folderId.Some? && c.folderId.value == criteria.folderId.value)
    && (criteria.query != "" ==>
          || Has(criteria.lower(c.name), criteria.query)
          || Has(criteria.lower(c.host), criteria.query)
          || (c.username.Some? && Has(criteria.lower(c.username.value), criteria.query))
          || exists tag :: tag in c.tags && Has(criteria.lower(tag), criteria.query))
  }

  /**
    The list shows the connections that meet the criteria and whose folder is open, each as often as it is in
    the vault, and no others.
  */
  ghost predicate ListsWhatMeets(rows: seq<Row>, s: Screen, criteria: Criteria)
    requires UniqueIds(s.folders)
  {
    forall c :: multiset(ConnectionsShown(rows))[c]
                == if Meets(criteria, c) && KeyShown(s, c.folderId) then multiset(s.connections)[c] else 0
  }

  lemma {:induction false} AcceptsWhatMeets(criteria: Criteria, c: Connection)
    ensures criteria.Accepts(c) <==> Meets(criteria, c)
  {
    ContainsWhatItHas(criteria.lower(c.name), criteria.query);
    ContainsWhatItHas(criteria.lower(c.host), criteria.query);
    if c.username.Some? {
      ContainsWhatItHas(criteria.lower(c.username.value), criteria.query);
    }
    forall tag
      ensures Contains(criteria.lower(tag), criteria.query) <==> Has(criteria.lower(tag), criteria.query)
    {
      ContainsWhatItHas(criteria.lower(tag), criteria.query);
    }
  }

  lemma {:induction false} ContainsWhatItHas(text: string, part: string)
    ensures Contains(text, part) <==> Has(text, part)
  {
    if i :| 0 <= i <= |text| && part <= text[i..] {
      assert text == text[..i] + part + text[i + |part|..];
    }
    if a, b :| text == a + part + b {
      assert text[|a|..] == part + b;
    }
  }

  /** What the rendering of the filtered connections shows. */
  lemma {:induction false} FilterLists(s: Screen, criteria: Criteria)
    requires UniqueIds(s.folders)
    ensures ListsWhatMeets(TreeRows(s.(connections := Filter(criteria.Accepts, s.connections))), s, criteria)
  {
    var filtered := s.(connections := Filter(criteria.Accepts, s.connections));
    var keys := iset k | KeyShown(s, k);
    EachShownConnectionOnce(filtered);
    forall k: Option<string>
      ensures KeyShown(filtered, k) <==> KeyShown(s, k)
    {
      SameFoldersShown(s, filtered, k);
    }
    assert (iset k | KeyShown(filtered, k)) == keys;
    forall c
      ensures multiset(Select(filtered.connections, keys))[c]
           == if Meets(criteria, c) && KeyShown(s, c.folderId) then multiset(s.connections)[c] else 0
    {
      AcceptsWhatMeets(criteria, c);
      CountSelected(filtered.connections, keys, c);
      CountFiltered(criteria.Accepts, s.connections, c);
    }
  }

  lemma {:induction false} SameFoldersShown(s: Screen, t: Screen, key: Option<string>)
    requires s.folders == t.folders && s.expanded == t.expanded
    ensures KeyShown(s, key) <==> KeyShown(t, key)
  {
    forall path: seq<Folder>
      ensures OpenChain(s, path) <==> OpenChain(t, path)
    {
    }
    forall f
      ensures Visible(s, f) <==> Visible(t, f)
    {
      if path :| OpenChain(s, path) && path != [] && Last(path) == f {
        assert OpenChain(t, path);
      }
      if path :| OpenChain(t, path) && path != [] && Last(path) == f {
        assert OpenChain(s, path);
      }
    }
  }

  lemma {:induction false} CountSelected(cs: seq<Connection>, keys: iset<Option<string>>, c: Connection)
    ensures multiset(Select(cs, keys))[c] == if c.folderId in keys then multiset(cs)[c] else 0
  {
    if cs != [] {
      CountSelected(cs[1..], keys, c);
      assert cs == [cs[0]] + cs[1..];
    }
  }

  lemma {:induction false} CountFiltered(p: Connection -> bool, cs: seq<Connection>, c: Connection)
    ensures multiset(Filter(p, cs))[c] == if p(c) then multiset(cs)[c] else 0
  {
    if cs != [] {
      CountFiltered(p, cs[1..], c);
      assert cs == [cs[0]] + cs[1..];
    }
  }

  /** `groups` maps every folder key in use to its connections, in list order. */
  ghost predicate Groups(groups: map<Option<string>, seq<Connection>>, connections: seq<Connection>) {
    && (forall c :: c in connections ==> c.folderId in groups)
    && (forall k :: k in groups ==> groups[k] != [] && groups[k] == ConnectionsIn(connections, k))
  }

  /** The body of the screen: a notice, or the list. */
  datatype View = NoConnections | NoMatches | List(rows: seq<Row>)

  class State {
    var connections: seq<Connection>
    var folders: seq<Folder>
    var expanded: set<string>
    var criteria: Criteria

    constructor (criteria: Criteria)
      ensures connections == [] && folders == [] && expanded == {} && this.criteria == criteria
    {
      connections, folders, expanded := [], [], {};
      this.criteria := criteria;
    }

    function FilteredConnections(): seq<Connection>
      reads this
    {
      Filter(criteria.Accepts, connections)
    }

    method ToggleFolder(id: string)
      modifies this`expanded
      ensures id in expanded <==> id !in old(expanded)
      ensures expanded - {id} == old(expanded) - {id}
    {
      if id in expanded {
        expanded := expanded - {id};
      } else {
        expanded := expanded + {id};
      }
    }

    method GroupByFolder(list: seq<Connection>) returns (grouped: map<Option<string>, seq<Connection>>)
      ensures Groups(grouped, list)
    {
      grouped := map[];
      for i := 0 to |list|
        invariant Groups(grouped, list[..i])
      {
        var c := list[i];
        GroupsGrow(grouped, list[..i], c);
        assert list[..i + 1] == list[..i] + [c];
        if c.folderId !in grouped {
          grouped := grouped[c.folderId := []];
        }
        grouped := grouped[c.folderId := grouped[c.folderId] + [c]];
      }
      assert list[..|list|] == list;
    }

    /** The loop over a group, which the source writes once for the root and once for a folder. */
    method AddConnections(rows: seq<Row>, list: seq<Connection>, indent: nat) returns (more: seq<Row>)
      ensures more == rows + ConnectionRows(list, indent)
    {
      more := rows;
      for i := 0 to |list|
        invariant more == rows + ConnectionRows(list[..i], indent)
      {
        more := more + [ConnectionRow(list[i], indent)];
      }
      assert list[..|list|] == list;
    }

    /** The loop over folders, which the source writes once for the roots and once for sub-folders. */
    method AddFolders(rows: seq<Row>, kids: seq<Folder>, grouped: map<Option<string>, seq<Connection>>, depth: nat,
                      ghost list: seq<Connection>, ghost path: seq<Folder>)
      returns (more: seq<Row>)
      requires UniqueIds(folders) && Groups(grouped, list)
      requires Chain(folders, path) && kids == ChildrenOf(folders, KeyOf(path)) && depth == |path|
      ensures more == rows + ForestRows(Screen(folders, list, expanded), path, kids)
      decreases |folders| - |path|, 0
    {
      ghost var s := Screen(folders, list, expanded);
      more := rows;
      assert kids[0..] == kids;
      for i := 0 to |kids|
        invariant more + ForestRows(s, path, kids[i..]) == rows + ForestRows(s, path, kids)
      {
        NextFolder(s, path, i);
        var below := BuildFolder(kids[i], grouped, depth, list, path + [kids[i]]);
        more := more + below;
      }
    }

    /** What belongs on the screen for the folder at the end of `path`. */
    ghost function RowsAtEndOf(path: seq<Folder>, list: seq<Connection>): seq<Row>
      reads this
      requires UniqueIds(folders) && Chain(folders, path) && path != []
    {
      FolderRows(Screen(folders, list, expanded), path)
    }

    /** The rows of the folder at the end of the ghost chain `path`, at depth `depth`. */
    method BuildFolder(folder: Folder, grouped: map<Option<string>, seq<Connection>>, depth: nat,
                       ghost list: seq<Connection>, ghost path: seq<Folder>)
      returns (rows: seq<Row>)
      requires UniqueIds(folders) && Groups(grouped, list)
      requires Chain(folders, path) && path != [] && Last(path) == folder && depth == |path| - 1
      ensures rows == RowsAtEndOf(path, list)
      decreases |folders| - |path|, 1
    {
      ghost var s := Screen(folders, list, expanded);
      var isExpanded := folder.id in expanded;
      var own := if Some(folder.id) in grouped then grouped[Some(folder.id)] else [];
      var kids := ChildrenOf(folders, Some(folder.id));
      UngroupedIsEmpty(grouped, list, Some(folder.id));
      OpenFolderRows(s, path);

      rows := [FolderRow(folder, |own|, isExpanded, depth)];
      if isExpanded {
        rows := AddConnections(rows, own, depth + 1);
        rows := AddFolders(rows, kids, grouped, depth + 1, list, path);
      }
    }

    /** The rows of the whole list, from the grouped connections. */
    method BuildTree(grouped: map<Option<string>, seq<Connection>>, ghost list: seq<Connection>)
      returns (rows: seq<Row>)
      requires UniqueIds(folders) && Groups(grouped, list)
      ensures rows == TreeRows(Screen(folders, list, expanded))
    {
      rows := [];
      var roots := ChildrenOf(folders, None);
      UngroupedIsEmpty(grouped, list, None);
      if None in grouped {
        var unfiled := grouped[None];
        rows := AddConnections(rows, unfiled, 0);
      }
      rows := AddFolders(rows, roots, grouped, 0, list, []);
    }

    /** The list view of the screen: filter, group, build. */
    method Build() returns (rows: seq<Row>)
      requires UniqueIds(folders)
      ensures rows == TreeRows(Screen(folders, FilteredConnections(), expanded))
      ensures rows == Keep(criteria.Accepts, connections, TreeRows(Screen(folders, connections, expanded)))
      ensures ListsWhatMeets(rows, Screen(folders, connections, expanded), criteria)
    {
      var list := FilteredConnections();
      var grouped := GroupByFolder(list);
      rows := BuildTree(grouped, list);
      FilterCommutes(Screen(folders, connections, expanded), criteria.Accepts);
      FilterLists(Screen(folders, connections, expanded), criteria);
    }

    /** The list gives way to a notice when there is no connection to list; the folders are not shown then. */
    method Show() returns (view: View)
      requires UniqueIds(folders)
      ensures view.NoConnections? <==> connections == []
      ensures view.NoMatches? <==> connections != [] && forall c :: c in connections ==> !Meets(criteria, c)
      ensures view.List? ==> view.rows == TreeRows(Screen(folders, FilteredConnections(), expanded))
      ensures view.List? ==> ListsWhatMeets(view.rows, Screen(folders, connections, expanded), criteria)
    {
      NoneAccepted(criteria.Accepts, connections);
      forall c
        ensures criteria.Accepts(c) <==> Meets(criteria, c)
      {
        AcceptsWhatMeets(criteria, c);
      }
      if connections == [] {
        return NoConnections;
      }
      if FilteredConnections() == [] {
        return NoMatches;
      }
      var rows := Build();
      view := List(rows);
    }
  }

  lemma {:induction false} NoneAccepted(p: Connection -> bool, cs: seq<Connection>)
    ensures Filter(p, cs) == [] <==> forall c :: c in cs ==> !p(c)
  {
    if cs != [] {
      NoneAccepted(p, cs[1..]);
    }
  }

  lemma {:induction false} GroupsGrow(
    grouped: map<Option<string>, seq<Connection>>, seen: seq<Connection>, c: Connection)
    requires Groups(grouped, seen)
    ensures var group := if c.folderId in grouped then grouped[c.folderId] else [];
            Groups(grouped[c.folderId := group + [c]], seen + [c])
  {
    forall k: Option<string>
      ensures ConnectionsIn(seen + [c], k) == ConnectionsIn(seen, k) + (if c.folderId == k then [c] else [])
    {
      ConnectionsInConcat(seen, [c], k);
    }
    UngroupedIsEmpty(grouped, seen, c.folderId);
  }

  lemma {:induction false} UngroupedIsEmpty(
    grouped: map<Option<string>, seq<Connection>>, list: seq<Connection>, key: Option<string>)
    requires Groups(grouped, list)
    ensures key !in grouped ==> ConnectionsIn(list, key) == []
  {
    if key !in grouped {
      NothingFiled(list, key);
    }
  }
}
