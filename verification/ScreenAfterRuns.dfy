/** What the screen shows after runs of vault operations, and how operations take folders off it. */
module ScreenAfterRuns {
  import opened Collections
  import opened Models
  import opened FolderTree
  import opened VaultOps

  /**
    After every run in which callers obey, the rendering is defined and shows each visible folder once
    and each connection of a shown, expanded folder or of none once.
  */
  lemma {:induction false} ScreenIsExactAfterRuns(ops: seq<Op>, d: VaultData, expanded: set<string>)
    requires forall op :: op in ops ==> op.WellFormed()
    requires Consistent(d) && CallersObey(ops, d)
    ensures var after := RunOps(ops, d);
            var s := Screen(after.folders, after.connections, expanded);
            && UniqueIds(s.folders)
            && NoDup(FolderIdsShown(TreeRows(s)))
            && (forall f :: f in s.folders ==> (f.id in FolderIdsShown(TreeRows(s)) <==> Visible(s, f)))
            && multiset(ConnectionsShown(TreeRows(s))) == multiset(Select(s.connections, iset k | KeyShown(s, k)))
  {
    RunsKeepConsistent(ops, d);
    var after := RunOps(ops, d);
    EachVisibleFolderOnce(Screen(after.folders, after.connections, expanded));
    EachShownConnectionOnce(Screen(after.folders, after.connections, expanded));
  }

  /** Moving a folder into its own child succeeds, and takes both off the screen whatever is expanded. */
  lemma {:induction false} MoveIntoChildHidesBoth(d: VaultData, a: Folder, b: Folder, expanded: set<string>)
    requires Consistent(d) && a in d.folders && b in d.folders
    requires a.id != b.id && b.parentId == Some(a.id)
    ensures var a' := a.(parentId := Some(b.id));
            var r := Apply(UpdateFolder(a'), d);
            && r.Ok? && Consistent(r.value) && a' in r.value.folders && b in r.value.folders
            && var s := Screen(r.value.folders, r.value.connections, expanded);
               !Visible(s, a') && !Visible(s, b)
  {
    var a' := a.(parentId := Some(b.id));
    ApplyKeepsConsistent(UpdateFolder(a'), d);
    var pos := FolderAt(d.folders, a.id).value;
    var after := Apply(UpdateFolder(a'), d).value;
    assert after.folders[pos] == a';
    var i :| 0 <= i < |d.folders| && d.folders[i] == b;
    assert after.folders[i] == b;
    StrandedFoldersAreHidden(Screen(after.folders, after.connections, expanded), {a', b});
  }

  /** Deleting a folder takes its child folders off the screen, although they stay in the list. */
  lemma {:induction false} DeleteHidesChildren(d: VaultData, id: string, expanded: set<string>)
    requires Consistent(d) && Apply(DeleteFolder(id), d).Ok?
    ensures var after := Apply(DeleteFolder(id), d).value;
            var s := Screen(after.folders, after.connections, expanded);
            forall f :: f in d.folders && f.id != id && f.parentId == Some(id) ==>
              f in after.folders && !Visible(s, f)
  {
    DeleteFolderExactly(d, id);
    var after := Apply(DeleteFolder(id), d).value;
    var children := set f | f in after.folders && f.parentId == Some(id);
    StrandedFoldersAreHidden(Screen(after.folders, after.connections, expanded), children);
  }

  /** Such a child is only a move away: filed at the root, it is on the screen whatever is expanded. */
  lemma {:induction false} MoveBringsChildBack(d: VaultData, id: string, f: Folder, expanded: set<string>)
    requires Consistent(d) && Apply(DeleteFolder(id), d).Ok?
    requires f in d.folders && f.id != id && f.parentId == Some(id)
    ensures var f' := f.(parentId := None);
            var r := Apply(UpdateFolder(f'), Apply(DeleteFolder(id), d).value);
            r.Ok? && f' in r.value.folders && Visible(Screen(r.value.folders, r.value.connections, expanded), f')
  {
    DeleteFolderExactly(d, id);
    var after, f' := Apply(DeleteFolder(id), d).value, f.(parentId := None);
    assert f in after.folders;
    var pos := FolderAt(after.folders, f.id).value;
    var r := Apply(UpdateFolder(f'), after);
    assert r.value.folders[pos] == f';
    assert OpenChain(Screen(r.value.folders, r.value.connections, expanded), [f']) && Last([f']) == f';
  }

  // ---- Exactly when an operation takes folders off the screen ----

  /** Some chain leads from a root to `f`. */
  ghost predicate Rooted(folders: seq<Folder>, f: Folder) {
    exists path :: Chain(folders, path) && path != [] && Last(path) == f
  }

  ghost predicate AllRooted(folders: seq<Folder>) {
    forall f :: f in folders ==> Rooted(folders, f)
  }

  /** The folder `a` moves to the root, or below a folder that is not itself below `a` or `a`. */
  ghost predicate MovesClear(folders: seq<Folder>, a: Folder) {
    a.parentId == None || exists path :: LeadsClear(folders, path, a)
  }

  /** A chain to the new parent of `a` that does not pass through `a`. */
  ghost predicate LeadsClear(folders: seq<Folder>, path: seq<Folder>, a: Folder) {
    && Chain(folders, path) && path != [] && a.parentId == Some(Last(path).id)
    && forall i :: 0 <= i < |path| ==> path[i].id != a.id
  }

  /** From a list in which every folder can be reached, an update keeps all of them so iff it moves clear. */
  lemma {:induction false} UpdateKeepsAllRooted(folders: seq<Folder>, pos: nat, a: Folder)
    requires UniqueIds(folders) && pos < |folders| && folders[pos].id == a.id && AllRooted(folders)
    ensures AllRooted(folders[pos := a]) <==> MovesClear(folders, a)
  {
    UpdateKeepsRooted(folders, pos, a);
    AllRootedAfter(folders, pos, a);
  }

  lemma {:induction false} AllRootedAfter(folders: seq<Folder>, pos: nat, a: Folder)
    requires UniqueIds(folders) && pos < |folders| && folders[pos].id == a.id && AllRooted(folders)
    ensures AllRooted(folders[pos := a]) <==> StayRooted(folders, pos, a)
  {
    var after := folders[pos := a];
    assert after[pos] == a;
    forall f | f in folders && f.id != a.id
      ensures f in after
    {
      var k :| 0 <= k < |folders| && folders[k] == f;
      assert after[k] == f;
    }
    forall f | f in after && f != a
      ensures f in folders && f.id != a.id
    {
    }
    assert folders[pos] in folders;
  }

  lemma {:induction false} RootedMovesClear(folders: seq<Folder>, pos: nat, a: Folder)
    requires UniqueIds(folders) && pos < |folders| && folders[pos].id == a.id && Rooted(folders[pos := a], a)
    ensures MovesClear(folders, a)
  {
    var after := folders[pos := a];
    if a.parentId != None {
      var path: seq<Folder> :| Chain(after, path) && path != [] && Last(path) == a;
      ParentLeadsClear(folders, pos, a, path);
    }
  }

  lemma {:induction false} OnlyOneHasId(folders: seq<Folder>, pos: nat, f: Folder)
    requires UniqueIds(folders) && pos < |folders| && f in folders && f.id == folders[pos].id
    ensures f == folders[pos]
  {
  }

  lemma {:induction false} ParentLeadsClear(folders: seq<Folder>, pos: nat, a: Folder, path: seq<Folder>)
    requires UniqueIds(folders) && pos < |folders| && folders[pos].id == a.id && a.parentId != None
    requires Chain(folders[pos := a], path) && path != [] && Last(path) == a
    ensures LeadsClear(folders, path[..|path| - 1], a)
  {
    var after, parents := folders[pos := a], path[..|path| - 1];
    ChainBound(after, path);
    forall i | 0 <= i < |parents|
      ensures parents[i] in folders && parents[i].id != a.id
    {
      assert path[i] in after && path[i] != a;
      if path[i].id == a.id {
        OnlyOneHasId(after, pos, path[i]);
      }
    }
  }

  lemma {:induction false} MovedIsRooted(folders: seq<Folder>, pos: nat, a: Folder)
    requires UniqueIds(folders) && pos < |folders| && folders[pos].id == a.id && MovesClear(folders, a)
    ensures Rooted(folders[pos := a], a)
  {
    var after := folders[pos := a];
    assert after[pos] == a;
    if a.parentId == None {
      assert Chain(after, [a]) && Last([a]) == a;
    } else {
      var path :| LeadsClear(folders, path, a);
      forall i | 0 <= i < |path|
        ensures path[i] in after
      {
        var k :| 0 <= k < |folders| && folders[k] == path[i];
        assert after[k] == path[i];
      }
      ChainAppend(after, path, a);
      assert Last(path + [a]) == a;
    }
  }

  /** What a chain led to before, with `a` in its new place, a chain leads to after. */
  lemma {:induction false} RootedAfterMove(folders: seq<Folder>, pos: nat, a: Folder, path: seq<Folder>)
    requires pos < |folders| && folders[pos].id == a.id && Rooted(folders[pos := a], a)
    requires Chain(folders, path) && path != []
    ensures Rooted(folders[pos := a], if Last(path).id == a.id then a else Last(path))
  {
    var after, f := folders[pos := a], Last(path);
    if f.id != a.id {
      var k :| 0 <= k < |folders| && folders[k] == f;
      assert after[k] == f;
      if |path| == 1 {
        assert Chain(after, [f]) && Last([f]) == f;
      } else {
        var parents := path[..|path| - 1];
        RootedAfterMove(folders, pos, a, parents);
        var parent := if Last(parents).id == a.id then a else Last(parents);
        assert f.parentId == Some(Last(parents).id);
        var to :| Chain(after, to) && to != [] && Last(to) == parent;
        ChainAppend(after, to, f);
        assert Last(to + [f]) == f;
      }
    }
  }

  // ---- The same from any list ----

  /** A chain without this id is a chain of every list that has the folders of other ids. */
  lemma {:induction false} ChainWithout(folders: seq<Folder>, after: seq<Folder>, path: seq<Folder>, id: string)
    requires Chain(folders, path) && forall i :: 0 <= i < |path| ==> path[i].id != id
    requires forall f :: f in folders && f.id != id ==> f in after
    ensures Chain(after, path)
  {
  }

  /** No chain passes through a folder that cannot be reached. */
  lemma {:induction false} ChainAvoids(folders: seq<Folder>, path: seq<Folder>, gone: Folder)
    requires UniqueIds(folders) && Chain(folders, path) && gone in folders && !Rooted(folders, gone)
    ensures forall i :: 0 <= i < |path| ==> path[i].id != gone.id
  {
    forall i | 0 <= i < |path|
      ensures path[i].id != gone.id
    {
      assert Chain(folders, path[..i + 1]) && Last(path[..i + 1]) == path[i];
      assert path[i] in folders && path[i] != gone;
    }
  }

  /** What could be reached before can be reached after, `a` itself in its new place. */
  ghost predicate StayRooted(folders: seq<Folder>, pos: nat, a: Folder)
    requires pos < |folders|
  {
    forall f :: f in folders && Rooted(folders, f) ==> Rooted(folders[pos := a], if f.id == a.id then a else f)
  }

  /** From any list, an update keeps in reach what was iff the folder was not, or it moves clear. */
  lemma {:induction false} UpdateKeepsRooted(folders: seq<Folder>, pos: nat, a: Folder)
    requires UniqueIds(folders) && pos < |folders| && folders[pos].id == a.id
    ensures StayRooted(folders, pos, a) <==> !Rooted(folders, folders[pos]) || MovesClear(folders, a)
  {
    if !Rooted(folders, folders[pos]) {
      forall f | f in folders && Rooted(folders, f)
        ensures f.id != a.id && Rooted(folders[pos := a], f)
      {
        FarFromMove(folders, pos, a, f);
      }
    } else if MovesClear(folders, a) {
      MovedIsRooted(folders, pos, a);
      forall f | f in folders && Rooted(folders, f)
        ensures Rooted(folders[pos := a], if f.id == a.id then a else f)
      {
        var path: seq<Folder> :| Chain(folders, path) && path != [] && Last(path) == f;
        RootedAfterMove(folders, pos, a, path);
      }
    } else if Rooted(folders[pos := a], a) {
      RootedMovesClear(folders, pos, a);
    }
  }

  lemma {:induction false} FarFromMove(folders: seq<Folder>, pos: nat, a: Folder, f: Folder)
    requires UniqueIds(folders) && pos < |folders| && folders[pos].id == a.id && !Rooted(folders, folders[pos])
    requires f in folders && Rooted(folders, f)
    ensures f.id != a.id && Rooted(folders[pos := a], f)
  {
    var after := folders[pos := a];
    var path: seq<Folder> :| Chain(folders, path) && path != [] && Last(path) == f;
    ChainAvoids(folders, path, folders[pos]);
    forall g | g in folders && g.id != a.id
      ensures g in after
    {
      var k :| 0 <= k < |folders| && folders[k] == g;
      assert after[k] == g;
    }
    ChainWithout(folders, after, path, a.id);
  }

  /** From any list, a removal keeps the others in reach iff the removed one was not, or has no child folder. */
  lemma {:induction false} RemovalKeepsRooted(folders: seq<Folder>, after: seq<Folder>, gone: Folder)
    requires UniqueIds(folders) && gone in folders
    requires forall f :: f in after <==> f in folders && f.id != gone.id
    ensures (forall f :: f in after && Rooted(folders, f) ==> Rooted(after, f))
       <==> !Rooted(folders, gone) || forall f :: f in folders ==> f.parentId != Some(gone.id)
  {
    if !Rooted(folders, gone) {
      forall f | f in after && Rooted(folders, f)
        ensures Rooted(after, f)
      {
        var path: seq<Folder> :| Chain(folders, path) && path != [] && Last(path) == f;
        ChainAvoids(folders, path, gone);
        ChainWithout(folders, after, path, gone.id);
      }
    } else if f :| f in folders && f.parentId == Some(gone.id) {
      ChildIsLost(folders, after, gone, f);
    } else {
      forall f | f in after && Rooted(folders, f)
        ensures Rooted(after, f)
      {
        ChildlessIsNotMissed(folders, after, gone, f);
      }
    }
  }

  lemma {:induction false} ChildIsLost(folders: seq<Folder>, after: seq<Folder>, gone: Folder, f: Folder)
    requires UniqueIds(folders) && gone in folders && Rooted(folders, gone)
    requires forall f :: f in after <==> f in folders && f.id != gone.id
    requires f in folders && f.parentId == Some(gone.id)
    ensures f in after && Rooted(folders, f) && !Rooted(after, f)
  {
    var path: seq<Folder> :| Chain(folders, path) && path != [] && Last(path) == gone;
    ChainAppend(folders, path, f);
    assert Last(path + [f]) == f;
    NoOwnParent(folders, f);
    ChildOfNone(after, f);
  }

  lemma {:induction false} ChildlessIsNotMissed(folders: seq<Folder>, after: seq<Folder>, gone: Folder, f: Folder)
    requires forall f :: f in after <==> f in folders && f.id != gone.id
    requires forall f :: f in folders ==> f.parentId != Some(gone.id)
    requires f in after && Rooted(folders, f)
    ensures Rooted(after, f)
  {
    var path: seq<Folder> :| Chain(folders, path) && path != [] && Last(path) == f;
    forall i | 0 <= i < |path|
      ensures path[i].id != gone.id
    {
      assert i < |path| - 1 ==> path[i + 1] in folders && path[i + 1].parentId == Some(path[i].id);
    }
    ChainWithout(folders, after, path, gone.id);
  }

  /** From such a list, taking one folder away keeps the others so iff it has no child folder. */
  lemma {:induction false} RemovalKeepsAllRooted(folders: seq<Folder>, after: seq<Folder>, gone: Folder)
    requires UniqueIds(folders) && AllRooted(folders) && gone in folders
    requires forall f :: f in after <==> f in folders && f.id != gone.id
    ensures AllRooted(after) <==> forall f :: f in folders ==> f.parentId != Some(gone.id)
  {
    RemovalKeepsRooted(folders, after, gone);
  }

  lemma {:induction false} ChildOfNone(folders: seq<Folder>, f: Folder)
    requires f.parentId.Some? && forall g :: g in folders ==> g.id != f.parentId.value
    ensures !Rooted(folders, f)
  {
    forall path: seq<Folder> | Chain(folders, path) && path != []
      ensures Last(path) != f
    {
      if |path| > 1 {
        assert path[|path| - 2] in folders;
      }
    }
  }

  /** A folder that can be reached is not its own parent. */
  lemma {:induction false} NoOwnParent(folders: seq<Folder>, f: Folder)
    requires UniqueIds(folders) && Rooted(folders, f)
    ensures f.parentId != Some(f.id)
  {
    var path: seq<Folder> :| Chain(folders, path) && path != [] && Last(path) == f;
    if f.parentId == Some(f.id) {
      ChainBound(folders, path);
      var k :| 0 <= k < |folders| && folders[k] == f;
      OnlyOneHasId(folders, k, path[|path| - 2]);
    }
  }

  /**
    Exactly when `update_folder` takes folders off the screen that could be reached: unless the folder moves
    to the root or below a listed folder that is neither itself nor below it.
  */
  lemma {:induction false} UpdateHidesExactly(d: VaultData, a: Folder)
    requires Consistent(d) && AllRooted(d.folders) && Apply(UpdateFolder(a), d).Ok?
    ensures AllRooted(Apply(UpdateFolder(a), d).value.folders) <==> MovesClear(d.folders, a)
  {
    UpdateKeepsAllRooted(d.folders, FolderAt(d.folders, a.id).value, a);
  }

  /** Exactly when `delete_folder` does: when the folder has child folders. */
  lemma {:induction false} DeleteHidesExactly(d: VaultData, id: string)
    requires Consistent(d) && AllRooted(d.folders) && Apply(DeleteFolder(id), d).Ok?
    ensures AllRooted(Apply(DeleteFolder(id), d).value.folders)
       <==> forall f :: f in d.folders ==> f.parentId != Some(id)
  {
    var gone := d.folders[FolderAt(d.folders, id).value];
    var after := Apply(DeleteFolder(id), d).value.folders;
    DeleteFolderExactly(d, id);
    RemovalKeepsAllRooted(d.folders, after, gone);
  }

  /** Exactly when `add_folder`, given a fresh id, adds one that cannot be reached. */
  lemma {:induction false} AddKeepsAllRooted(folders: seq<Folder>, f: Folder)
    requires UniqueIds(folders + [f]) && AllRooted(folders)
    ensures AllRooted(folders + [f]) <==> f.parentId == None || f.parentId.value in FolderIds(folders)
  {
    var after := folders + [f];
    assert after[|folders|] == f;
    forall g | g in folders
      ensures Rooted(after, g)
    {
      var path: seq<Folder> :| Chain(folders, path) && path != [] && Last(path) == g;
      assert Chain(after, path);
    }
    if Rooted(after, f) && f.parentId.Some? && f.parentId.value !in FolderIds(folders) {
      NoOwnParent(after, f);
      ChildOfNone(after, f);
    }
    if f.parentId == None {
      assert Chain(after, [f]) && Last([f]) == f;
    } else if f.parentId.value in FolderIds(folders) {
      var parent :| parent in folders && parent.id == f.parentId.value;
      var path: seq<Folder> :| Chain(after, path) && path != [] && Last(path) == parent;
      ChainAppend(after, path, f);
      assert Last(path + [f]) == f;
    }
  }

  /** The operation leaves no folder out of reach. */
  ghost predicate LeavesReachable(op: Op, d: VaultData) {
    match op
    case AddFolder(f) => f.parentId == None || f.parentId.value in FolderIds(d.folders)
    case UpdateFolder(f) => MovesClear(d.folders, f)
    case DeleteFolder(id) => forall f :: f in d.folders ==> f.parentId != Some(id)
    case _ => true
  }

  lemma {:induction false} ReachableExactly(op: Op, d: VaultData)
    requires Consistent(d) && CallerObeys(op, d) && AllRooted(d.folders) && Apply(op, d).Ok?
    ensures AllRooted(Apply(op, d).value.folders) <==> LeavesReachable(op, d)
  {
    ApplyKeepsConsistent(op, d);
    match op
    case AddFolder(f) => AddKeepsAllRooted(d.folders, f);
    case UpdateFolder(f) => UpdateHidesExactly(d, f);
    case DeleteFolder(id) => DeleteHidesExactly(d, id);
    case _ =>
  }

  /** Every operation of the run that succeeds leaves no folder out of reach. */
  ghost predicate AllLeaveReachable(ops: seq<Op>, d: VaultData)
    requires forall op :: op in ops ==> op.WellFormed()
    decreases ops
  {
    ops != [] ==>
      var r := Apply(ops[0], d);
      && (r.Ok? ==> LeavesReachable(ops[0], d))
      && AllLeaveReachable(ops[1..], if r.Ok? then r.value else d)
  }

  /** Over every run of such operations, every folder can still be reached. */
  lemma {:induction false} RunsKeepAllRooted(ops: seq<Op>, d: VaultData)
    requires forall op :: op in ops ==> op.WellFormed()
    requires Consistent(d) && CallersObey(ops, d) && AllLeaveReachable(ops, d) && AllRooted(d.folders)
    ensures AllRooted(RunOps(ops, d).folders)
    decreases ops
  {
    if ops != [] {
      var r := Apply(ops[0], d);
      if r.Ok? {
        ApplyKeepsConsistent(ops[0], d);
        ReachableExactly(ops[0], d);
      }
      RunsKeepAllRooted(ops[1..], if r.Ok? then r.value else d);
    }
  }

  /** With every folder expanded, all of them are then on the screen, and every connection once. */
  lemma {:induction false} RunsKeepAllVisible(ops: seq<Op>, d: VaultData, s: Screen)
    requires forall op :: op in ops ==> op.WellFormed()
    requires Consistent(d) && CallersObey(ops, d) && AllLeaveReachable(ops, d) && AllRooted(d.folders)
    requires s.folders == RunOps(ops, d).folders && s.connections == RunOps(ops, d).connections
    requires FolderIds(s.folders) <= s.expanded
    ensures forall f :: f in s.folders ==> Visible(s, f)
    ensures UniqueIds(s.folders) && multiset(ConnectionsShown(TreeRows(s))) == multiset(s.connections)
  {
    RunsKeepAllRooted(ops, d);
    RunsKeepConsistent(ops, d);
    forall f | f in s.folders
      ensures Visible(s, f)
    {
    }
    EachShownConnectionOnce(s);
    SelectAll(s.connections, iset k | KeyShown(s, k));
  }

  lemma {:induction false} SelectAll(connections: seq<Connection>, keys: iset<Option<string>>)
    requires forall c :: c in connections ==> c.folderId in keys
    ensures Select(connections, keys) == connections
  {
    if connections != [] {
      SelectAll(connections[1..], keys);
    }
  }
}
