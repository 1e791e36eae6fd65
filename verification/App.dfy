/**
  The application's operations on the one global vault (rust/src/api/app.rs), each a change of the vault
  followed by a save of its own, and what a user sees who imports a file into a new vault.
*/
module App {
  import opened Collections
  import opened Models
  import opened FolderTree
  import opened Forest
  import opened Import
  import opened VaultOps
  import opened VaultFile
  import opened Vault
  import opened ImportRender
  import HomeScreen

  /** What the machine supplies for a save: a nonce, and whether the file can be written. */
  datatype SaveLuck = SaveLuck(nonce: seq<byte>, writable: bool)

  /** Saving with this luck writes the file. */
  ghost predicate Saves(vault: Vault, luck: SaveLuck)
    reads vault
  {
    && vault.state.Some? && vault.masterKey.Some? && luck.writable
    && FileText(vault.pr, vault.state.value, vault.masterKey.value, luck.nonce).Ok?
  }

  /** The file at `path` is the vault as it is now, the other files as they were. */
  ghost predicate Saved(vault: Vault, files: map<string, string>, was: map<string, string>, path: string, luck: SaveLuck)
    reads vault
  {
    && Saves(vault, luck)
    && files == was[path := FileText(vault.pr, vault.state.value, vault.masterKey.value, luck.nonce).value]
  }

  method CreateVault(vault: Vault, disk: Disk, password: string, path: string, salt: string, luck: SaveLuck)
    returns (r: Result<(), Error>)
    requires vault.pr.Lawful() && |luck.nonce| == NONCE_SIZE
    modifies vault, disk
    ensures r.Ok? ==> vault.Agrees(password) && vault.state.Some? && vault.state.value.data == EMPTY_DATA
    ensures r.Ok? ==> Saved(vault, disk.files, old(disk.files), path, luck)
    ensures r.Err? ==> disk.files == old(disk.files)
    ensures r.Ok? <==> vault.pr.hash(password, salt).Some? && vault.pr.derive(password, salt).Some? && luck.writable
  {
    var created :- vault.Create(password, salt);
    SavedFileOpens(vault.pr, vault.state.value, vault.masterKey.value, luck.nonce, password);
    r := vault.SaveToFile(disk, path, luck.nonce, luck.writable);
  }

  /** The loop over the imported folders; on a locked vault, the first of them ends it. */
  method AddFolders(vault: Vault, fs: seq<Folder>) returns (r: Result<(), Error>)
    modifies vault`state
    ensures old(vault.state).None? ==> vault.state == None && (r.Ok? ==> fs == []) && (r.Err? ==> r.error == VaultLocked)
    ensures old(vault.state).Some? ==>
              var d := old(vault.state).value.data;
              r.Ok? && vault.state == Some(old(vault.state).value.(data := d.(folders := d.folders + fs)))
  {
    ghost var before := if vault.state.Some? then vault.state.value.data.folders else [];
    assert before + fs[..0] == before;
    for i := 0 to |fs|
      invariant old(vault.state).None? ==> vault.state == None && i == 0
      invariant old(vault.state).Some? ==>
                  vault.state == Some(old(vault.state).value.(data :=
                                        old(vault.state).value.data.(folders := before + fs[..i])))
    {
      TakeOneMore(fs, i + 1);
      Assoc(before, fs[..i], [fs[i]]);
      var filed :- vault.AddFolder(fs[i]);
    }
    assert fs[..|fs|] == fs;
    r := Ok(());
  }

  /** The data after a file's import, and the numbers of connections added and of folders. */
  function Imported(env: Env, nodes: seq<Xml>, drawn: nat, d: VaultData): (VaultData, (nat, nat)) {
    var (ts, n) := Build(env, nodes, None, drawn);
    var (cs, added) := ImportBatch(d.connections, Connections(ts), Drawn(env, n, n + |Connections(ts)|));
    (VaultData(cs, d.folders + Folders(ts)), (added, |Folders(ts)|))
  }

  /** No UUID still to be drawn is among these ids; with random ones, none ever is. */
  ghost predicate Undrawn(env: Env, drawn: nat, ids: seq<string>) {
    forall i, k: nat :: 0 <= i < |ids| && k >= drawn ==> ids[i] != env.uuid(k)
  }

  /** The old lists stay in front, and each item in them keeps its id. */
  ghost predicate Grows(d: VaultData, after: VaultData) {
    d.connections <= after.connections && d.folders <= after.folders
  }

  /** Ids stay distinct, and what is new has ids that nothing else has. */
  ghost predicate IdsStayDistinct(env: Env, drawn: nat, d: VaultData, after: VaultData)
    requires Grows(d, after)
  {
    var cs, fs := after.connections, after.folders;
    && (UniqueConnectionIds(d.connections) && Undrawn(env, drawn, IdsOfConnections(d.connections))
        ==> UniqueConnectionIds(cs))
    && (UniqueIds(d.folders) && Undrawn(env, drawn, IdsOfFolders(d.folders)) ==> UniqueIds(fs))
    && (forall i, j :: |d.connections| <= i < |cs| && |d.folders| <= j < |fs| ==> cs[i].id != fs[j].id)
    && (forall i, j :: |d.connections| <= i < j < |cs| ==> cs[i].id != cs[j].id)
  }

  /** What an import leaves in the vault: its folders, its new connections, and distinct ids for all of them. */
  ghost predicate Arrived(
    env: Env, nodes: seq<Xml>, drawn: nat, d: VaultData, after: VaultData, counts: (nat, nat))
  {
    && Grows(d, after)
    && |after.connections| == |d.connections| + counts.0
    && |after.folders| == |d.folders| + counts.1 && counts.1 == CountContainers(nodes)
    && NoNewTwin(d.connections, after.connections)
    && AllArrived(after.connections, Connections(Build(env, nodes, None, drawn).0))
    && (env.FreshIds() ==> IdsStayDistinct(env, drawn, d, after))
  }

  lemma {:induction false} ImportArrives(env: Env, nodes: seq<Xml>, drawn: nat, d: VaultData)
    ensures var (after, counts) := Imported(env, nodes, drawn, d);
            Arrived(env, nodes, drawn, d, after, counts)
  {
    var (ts, n) := Build(env, nodes, None, drawn);
    var ids := Drawn(env, n, n + |Connections(ts)|);
    var (cs, added) := ImportBatch(d.connections, Connections(ts), ids);
    BuildCounts(env, nodes, None, drawn);
    ImportDoes(d.connections, Connections(ts), ids);
    ImportCounts(d.connections, Connections(ts), ids);
    assert d.folders <= d.folders + Folders(ts);
    if env.FreshIds() {
      BuildDrawsInOrder(env, nodes, None, drawn);
      IdsCover(ts);
      DistinctIds(ts);
      ConnectionIdsStayDistinct(env, drawn, n, d.connections, cs, Connections(ts), ids);
      FolderIdsStayDistinct(env, drawn, n, d.folders, Folders(ts));
      NewIdsApart(env, drawn, n, d.connections, cs, Connections(ts), ids, Folders(ts));
      assert forall j :: |d.folders| <= j < |d.folders + Folders(ts)| ==>
                           (d.folders + Folders(ts))[j] in Folders(ts);
    }
  }

  lemma {:induction false} NewIsDrawn(
    env: Env, n: nat, cs: seq<Connection>, after: seq<Connection>, batch: seq<Connection>, ids: seq<string>, i: nat)
    returns (k: nat)
    requires ids == Drawn(env, n, n + |batch|) && NewFrom(cs, after, batch, ids) && |cs| <= i < |after|
    ensures k < |batch| && after[i] == batch[k].(id := env.uuid(n + k))
  {
    assert Picked(after[i], batch, ids);
    k :| 0 <= k < |batch| && after[i] == batch[k].(id := ids[k]);
  }

  /** Of two new connections, each was drawn a UUID of its own: were it the same, they would be twins. */
  lemma {:induction false} TwoNewDiffer(
    env: Env, n: nat, cs: seq<Connection>, after: seq<Connection>, batch: seq<Connection>, ids: seq<string>, i: nat,
    j: nat)
    requires env.FreshIds() && ids == Drawn(env, n, n + |batch|) && NewFrom(cs, after, batch, ids)
    requires NoNewTwin(cs, after) && |cs| <= i < j < |after|
    ensures after[i].id != after[j].id
  {
    var k := NewIsDrawn(env, n, cs, after, batch, ids, i);
    var m := NewIsDrawn(env, n, cs, after, batch, ids, j);
    assert !Twins(after[i], after[j]);
  }

  lemma {:induction false} OldAndNewDiffer(
    env: Env, n: nat, cs: seq<Connection>, after: seq<Connection>, batch: seq<Connection>, ids: seq<string>, i: nat,
    j: nat)
    requires ids == Drawn(env, n, n + |batch|) && cs <= after && NewFrom(cs, after, batch, ids)
    requires Undrawn(env, n, IdsOfConnections(cs)) && i < |cs| <= j < |after|
    ensures after[i].id != after[j].id
  {
    var m := NewIsDrawn(env, n, cs, after, batch, ids, j);
    assert after[i] == cs[i] && IdsOfConnections(cs)[i] != env.uuid(n + m);
  }

  lemma {:induction false} ConnectionIdsStayDistinct(
    env: Env, drawn: nat, n: nat, cs: seq<Connection>, after: seq<Connection>, batch: seq<Connection>, ids: seq<string>)
    requires env.FreshIds() && drawn <= n && ids == Drawn(env, n, n + |batch|)
    requires cs <= after && NewFrom(cs, after, batch, ids) && NoNewTwin(cs, after)
    ensures forall i, j :: |cs| <= i < j < |after| ==> after[i].id != after[j].id
    ensures UniqueConnectionIds(cs) && Undrawn(env, drawn, IdsOfConnections(cs)) ==> UniqueConnectionIds(after)
  {
    forall i, j | |cs| <= i < j < |after|
      ensures after[i].id != after[j].id
    {
      TwoNewDiffer(env, n, cs, after, batch, ids, i, j);
    }
    if UniqueConnectionIds(cs) && Undrawn(env, drawn, IdsOfConnections(cs)) {
      forall i, j | 0 <= i < |cs| <= j < |after|
        ensures after[i].id != after[j].id
      {
        OldAndNewDiffer(env, n, cs, after, batch, ids, i, j);
      }
      assert forall i :: 0 <= i < |cs| ==> after[i] == cs[i];
    }
  }

  lemma {:induction false} FolderIdsStayDistinct(env: Env, drawn: nat, n: nat, fs: seq<Folder>, more: seq<Folder>)
    requires drawn <= n && UniqueIds(more) && forall f :: f in more ==> f.id in Drawn(env, drawn, n)
    ensures UniqueIds(fs) && Undrawn(env, drawn, IdsOfFolders(fs)) ==> UniqueIds(fs + more)
  {
    if UniqueIds(fs) && Undrawn(env, drawn, IdsOfFolders(fs)) {
      forall i, j | 0 <= i < |fs| <= j < |fs + more|
        ensures (fs + more)[i].id != (fs + more)[j].id
      {
        assert more[j - |fs|] in more;
        var k :| 0 <= k < n - drawn && Drawn(env, drawn, n)[k] == more[j - |fs|].id;
        assert IdsOfFolders(fs)[i] != env.uuid(drawn + k);
      }
    }
  }

  /** The folders' UUIDs were drawn before the first of the connections'. */
  lemma {:induction false} NewIdsApart(
    env: Env, drawn: nat, n: nat, cs: seq<Connection>, after: seq<Connection>, batch: seq<Connection>, ids: seq<string>,
    fs: seq<Folder>)
    requires env.FreshIds() && drawn <= n && ids == Drawn(env, n, n + |batch|) && NewFrom(cs, after, batch, ids)
    requires forall f :: f in fs ==> f.id in Drawn(env, drawn, n)
    ensures forall i, f :: |cs| <= i < |after| && f in fs ==> after[i].id != f.id
  {
    forall i, f | |cs| <= i < |after| && f in fs
      ensures after[i].id != f.id
    {
      var m := NewIsDrawn(env, n, cs, after, batch, ids, i);
      var k :| 0 <= k < n - drawn && Drawn(env, drawn, n)[k] == f.id;
      assert env.uuid(n + m) != env.uuid(drawn + k);
    }
  }

  /**
    `import_mremoteng_xml`, with the UUIDs counted. A file without the expected element changes nothing; a
    failing save leaves the import in memory and the file as it was.
  */
  method ImportXml(vault: Vault, disk: Disk, env: Env, root: Xml, drawn: nat, path: string, luck: SaveLuck)
    returns (r: Result<(nat, nat), Error>)
    modifies vault`state, disk
    ensures FindConnections([root]).None? ==>
              r == Err(NoConnectionsElement) && vault.state == old(vault.state) && disk.files == old(disk.files)
    ensures FindConnections([root]).Some? && old(vault.state).None? ==>
              r == Err(VaultLocked) && vault.state == None && disk.files == old(disk.files)
    ensures FindConnections([root]).Some? && old(vault.state).Some? ==>
              var nodes, d := FindConnections([root]).value.children, old(vault.state).value.data;
              var (after, counts) := Imported(env, nodes, drawn, d);
              && vault.state == Some(old(vault.state).value.(data := after))
              && Arrived(env, nodes, drawn, d, after, counts)
              && (r.Ok? <==> Saves(vault, luck))
              && (r.Ok? ==> r.value == counts && Saved(vault, disk.files, old(disk.files), path, luck))
              && (r.Err? ==> disk.files == old(disk.files))
  {
    var parsed, n := ParseDocument(env, root, drawn);
    if parsed.None? {
      return Err(NoConnectionsElement);
    }
    var (connections, folders) := parsed.value;
    ghost var before := vault.state;
    r := ImportLists(vault, disk, connections, folders, Drawn(env, n, n + |connections|), path, luck);
    if before.Some? {
      ImportArrives(env, FindConnections([root]).value.children, drawn, before.value.data);
    }
  }

  /** The import from its two lists on. */
  method ImportLists(
    vault: Vault, disk: Disk, connections: seq<Connection>, folders: seq<Folder>, ids: seq<string>, path: string,
    luck: SaveLuck)
    returns (r: Result<(nat, nat), Error>)
    requires |ids| == |connections|
    modifies vault`state, disk
    ensures old(vault.state).None? ==> r == Err(VaultLocked) && vault.state == None && disk.files == old(disk.files)
    ensures old(vault.state).Some? ==>
              var d := old(vault.state).value.data;
              var (imported, added) := ImportBatch(d.connections, connections, ids);
              && vault.state == Some(old(vault.state).value.(data := VaultData(imported, d.folders + folders)))
              && (r.Ok? <==> Saves(vault, luck))
              && (r.Ok? ==> r.value == (added, |folders|) && Saved(vault, disk.files, old(disk.files), path, luck))
              && (r.Err? ==> disk.files == old(disk.files))
  {
    var filed :- AddFolders(vault, folders);
    var added :- vault.ImportConnections(connections, ids);
    var saved :- vault.SaveToFile(disk, path, luck.nonce, luck.writable);
    r := Ok((added, |folders|));
  }

  /** With everything expanded, this data is shown as the preorder of the file, less its repeated connections. */
  ghost predicate Shows(env: Env, nodes: seq<Xml>, d: VaultData) {
    && UniqueIds(d.folders)
    && Lines(TreeRows(Screen(d.folders, d.connections, FolderIds(d.folders))))
       == XmlLines(env, Prune(env, nodes, {}).0, 0)
  }

  lemma {:induction false} ImportShows(env: Env, nodes: seq<Xml>, drawn: nat)
    requires env.FreshIds()
    ensures Shows(env, nodes, Imported(env, nodes, drawn, EMPTY_DATA).0)
  {
    var (ts, n) := Build(env, nodes, None, drawn);
    TreeShows(env, nodes, drawn, ts, Drawn(env, n, n + |Connections(ts)|));
  }

  lemma {:induction false} TreeShows(env: Env, nodes: seq<Xml>, drawn: nat, ts: seq<Tree>, ids: seq<string>)
    requires env.FreshIds() && ts == Build(env, nodes, None, drawn).0 && |ids| == |Connections(ts)|
    ensures Shows(env, nodes, VaultData(ImportBatch([], Connections(ts), ids).0, [] + Folders(ts)))
  {
    ImportedIntoNothing(Folders(ts), Connections(ts), ids);
    RunShows(env, nodes, drawn, ts, ids);
  }

  lemma {:induction false} ImportedIntoNothing(
    folders: seq<Folder>, connections: seq<Connection>, ids: seq<string>)
    requires |ids| == |connections|
    ensures forall op :: op in ImportOps(folders, connections, ids) ==> op.WellFormed()
    ensures RunOps(ImportOps(folders, connections, ids), EMPTY_DATA)
         == VaultData(ImportBatch([], connections, ids).0, [] + folders)
  {
    ImportRun(folders, connections, ids, EMPTY_DATA);
  }

  lemma {:induction false} RunShows(env: Env, nodes: seq<Xml>, drawn: nat, ts: seq<Tree>, ids: seq<string>)
    requires env.FreshIds() && ts == Build(env, nodes, None, drawn).0 && |ids| == |Connections(ts)|
    requires forall op :: op in ImportOps(Folders(ts), Connections(ts), ids) ==> op.WellFormed()
    requires RunOps(ImportOps(Folders(ts), Connections(ts), ids), EMPTY_DATA).folders == [] + Folders(ts)
    ensures Shows(env, nodes, RunOps(ImportOps(Folders(ts), Connections(ts), ids), EMPTY_DATA))
  {
    assert [] + Folders(ts) == Folders(ts);
    ImportThenRender(env, nodes, drawn, ids, FolderIds(Folders(ts)));
  }

  /**
    From the file to the screen, on the objects: an import into an unlocked, empty vault, shown without a
    filter and with every folder expanded, is the preorder of the file without its repeated connections. A
    file of containers only shows none of them.
  */
  method ImportAndShow(
    vault: Vault, disk: Disk, env: Env, root: Xml, drawn: nat, path: string, luck: SaveLuck, lower: string -> string)
    returns (view: HomeScreen.View)
    requires env.FreshIds() && FindConnections([root]).Some?
    requires vault.state.Some? && vault.state.value.data == EMPTY_DATA
    modifies vault`state, disk
    ensures var nodes := FindConnections([root]).value.children;
            if CountNodes(nodes) == CountContainers(nodes) then view == HomeScreen.NoConnections
            else view.List? && Lines(view.rows) == XmlLines(env, Prune(env, nodes, {}).0, 0)
  {
    var r := ImportXml(vault, disk, env, root, drawn, path, luck);
    ImportShows(env, FindConnections([root]).value.children, drawn);
    ImportsNothing(env, FindConnections([root]).value.children, drawn);
    view := ShowAll(vault.state.value.data, lower);
  }

  /** Connections arrive unless the file has none: the first of them is never a duplicate. */
  lemma {:induction false} ImportsNothing(env: Env, nodes: seq<Xml>, drawn: nat)
    ensures Imported(env, nodes, drawn, EMPTY_DATA).0.connections == [] <==> CountNodes(nodes) == CountContainers(nodes)
  {
    var (ts, n) := Build(env, nodes, None, drawn);
    BuildCounts(env, nodes, None, drawn);
    FirstArrives(Connections(ts), Drawn(env, n, n + |Connections(ts)|));
  }

  lemma {:induction false} FirstArrives(batch: seq<Connection>, ids: seq<string>)
    requires |ids| == |batch|
    ensures ImportBatch([], batch, ids).0 == [] <==> batch == []
  {
    if batch != [] {
      ImportAddsFirstOccurrences([] + [batch[0].(id := ids[0])], batch[1..], ids[1..]);
    }
  }

  /** The home screen after a start, every folder opened and nothing filtered. */
  method ShowAll(d: VaultData, lower: string -> string) returns (view: HomeScreen.View)
    requires UniqueIds(d.folders)
    ensures view == if d.connections == [] then HomeScreen.NoConnections
                    else HomeScreen.List(TreeRows(Screen(d.folders, d.connections, FolderIds(d.folders))))
  {
    var screen := new HomeScreen.State(HomeScreen.Criteria(lower, "", None, None));
    screen.connections, screen.folders, screen.expanded := d.connections, d.folders, FolderIds(d.folders);
    NoFilter(screen.criteria, screen.connections);
    HomeScreen.NoneAccepted(screen.criteria.Accepts, screen.connections);
    view := screen.Show();
  }

  /** Without criteria, everything is listed. */
  lemma {:induction false} NoFilter(criteria: HomeScreen.Criteria, cs: seq<Connection>)
    requires criteria.query == "" && criteria.protocol == None && criteria.folderId == None
    ensures Filter(criteria.Accepts, cs) == cs
  {
    if cs != [] {
      NoFilter(criteria, cs[1..]);
    }
  }
}
