/**
  Reference integrity when calls overlap. What a caller makes sure of when a call starts, that the folders it
  names exist, must still hold when the call comes to its turn. It does as long as deletions of folders, and
  calls that replace the whole state, keep apart from calls that file connections.
*/
module Integrity {
  import opened Collections
  import opened Models
  import opened Json
  import opened VaultOps
  import opened VaultFile
  import opened Concurrency
  import opened Solo
  import opened KeyAgreement
  import Durability

  // ---- What is still to come of a call ----

  function FolderOf(c: Connection): set<string> {
    if c.folderId.Some? then {c.folderId.value} else {}
  }

  function FoldersOf(cs: seq<Connection>): set<string> {
    set c, id | c in cs && id in FolderOf(c) :: id
  }

  /** The folders that a section files connections under, and the folder it adds. */
  function Named(a: Action): set<string> {
    if !a.Mutate? then {}
    else
      match a.op
      case AddConnection(c) => FolderOf(c)
      case UpdateConnection(c) => FolderOf(c)
      case ReplaceConnections(cs) => FoldersOf(cs)
      case ImportConnections(cs, _) => FoldersOf(cs)
      case _ => {}
  }

  function Added(a: Action): set<string> {
    if a.Mutate? && a.op.AddFolder? then {a.op.folder.id} else {}
  }

  function AllNamed(todo: seq<Action>): set<string> {
    if todo == [] then {} else Named(todo[0]) + AllNamed(todo[1..])
  }

  function AllAdded(todo: seq<Action>): set<string> {
    if todo == [] then {} else Added(todo[0]) + AllAdded(todo[1..])
  }

  ghost predicate Deletes(todo: seq<Action>) {
    exists i :: 0 <= i < |todo| && todo[i].Mutate? && todo[i].op.DeleteFolder?
  }

  /** Each section names only folders listed or added before it, and adds only new ones. */
  predicate Grounded(todo: seq<Action>, ids: set<string>) {
    todo == []
    || (Named(todo[0]) <= ids && Added(todo[0]) !! ids && Grounded(todo[1..], ids + Added(todo[0])))
  }

  // ---- Which calls keep apart ----

  ghost predicate Replaces(w: World, t: nat)
    requires t < |w.threads|
  {
    (w.threads[t].call.CreateVault? || w.threads[t].call.UnlockVault?) && !w.threads[t].Idle()
  }

  ghost predicate Apart(w: World, t: nat, u: nat)
    requires t < |w.threads| && u < |w.threads|
  {
    var a, b := w.threads[t].todo, w.threads[u].todo;
    && AllAdded(a) !! AllAdded(b)
    && (Deletes(a) ==> AllNamed(b) == {})
    && (Replaces(w, t) ==> AllNamed(b) == {} && AllAdded(b) == {})
  }

  /**
    A caller names only folders that exist in an unlocked vault, gives new folders new ids, and starts no call
    that must keep apart from one under way.
  */
  ghost predicate Careful(pr: Primitives, w: World, move: Move) {
    move.Start? && Next(pr, w, move).Some? ==>
      var w' := Next(pr, w, move).value;
      && (w.mem.Some? ==> Grounded(w'.threads[move.t].todo, FolderIds(w.mem.value.data.folders)))
      && (forall u :: 0 <= u < |w.threads| && u != move.t ==> Apart(w', move.t, u) && Apart(w', u, move.t))
      && (forall i :: 0 <= i < |w'.threads[move.t].todo| && w'.threads[move.t].todo[i].Save? ==>
                        |w'.threads[move.t].todo[i].nonce| == NONCE_SIZE)
  }

  // ---- The invariant ----

  /** A call that replaces the state mutates nothing, and a lock brings nothing in. */
  ghost predicate EditsNothing(call: Call, todo: seq<Action>) {
    forall i :: 0 <= i < |todo| ==> !todo[i].Mutate? && (call.LockVault? ==> !todo[i].PutState? && !todo[i].ReadFile?)
  }

  ghost predicate ThreadSound(w: World, t: nat)
    requires t < |w.threads|
  {
    var todo := w.threads[t].todo;
    && (forall i :: 0 <= i < |todo| && todo[i].Save? ==> |todo[i].nonce| == NONCE_SIZE)
    && (forall i :: 0 <= i < |todo| && todo[i].PutState? ==> Consistent(todo[i].vs.data))
    && (if w.threads[t].call.IsLifecycle() then EditsNothing(w.threads[t].call, todo) else Plain(todo))
    && (Deletes(todo) ==> AllNamed(todo) == {})
    && (w.mem.Some? ==> Grounded(todo, FolderIds(w.mem.value.data.folders)))
  }

  /** Whatever a file opens to is consistent. */
  ghost predicate FilesSound(pr: Primitives, disk: map<string, string>) {
    forall path, p :: path in disk && OpenFile(pr, disk[path], p).Ok? ==>
      Consistent(OpenFile(pr, disk[path], p).value.0.data)
  }

  ghost predicate Sound(pr: Primitives, w: World) {
    && LocksHeld(w)
    && (forall t :: 0 <= t < |w.threads| ==> ThreadSound(w, t))
    && (forall t, u :: 0 <= t < |w.threads| && 0 <= u < |w.threads| && t != u ==> Apart(w, t, u))
    && (w.mem.Some? ==> Consistent(w.mem.value.data))
    && FilesSound(pr, w.disk)
  }

  // ---- Single facts ----

  lemma {:induction false} GroundedMore(todo: seq<Action>, ids: set<string>, more: set<string>)
    requires Grounded(todo, ids) && more !! AllAdded(todo)
    ensures Grounded(todo, ids + more)
    decreases |todo|
  {
    if todo != [] {
      assert ids + more + Added(todo[0]) == (ids + Added(todo[0])) + more;
      GroundedMore(todo[1..], ids + Added(todo[0]), more);
    }
  }

  /** What names no folder is grounded in fewer. */
  lemma {:induction false} GroundedLess(todo: seq<Action>, ids: set<string>, fewer: set<string>)
    requires Grounded(todo, ids) && AllNamed(todo) == {} && fewer <= ids
    ensures Grounded(todo, fewer)
    decreases |todo|
  {
    if todo != [] {
      assert Named(todo[0]) == {};
      GroundedLess(todo[1..], ids + Added(todo[0]), fewer + Added(todo[0]));
    }
  }

  /** What names and adds none is grounded in any. */
  lemma {:induction false} GroundedAnyway(todo: seq<Action>, ids: set<string>)
    requires AllNamed(todo) == {} && AllAdded(todo) == {}
    ensures Grounded(todo, ids)
    decreases |todo|
  {
    if todo != [] {
      assert Named(todo[0]) == {} && Added(todo[0]) == {} && ids + {} == ids;
      GroundedAnyway(todo[1..], ids);
    }
  }

  lemma {:induction false} NoMutations(todo: seq<Action>)
    requires forall i :: 0 <= i < |todo| ==> !todo[i].Mutate?
    ensures AllNamed(todo) == {} && AllAdded(todo) == {}
    decreases |todo|
  {
    if todo != [] {
      NoMutations(todo[1..]);
    }
  }

  /** A grounded operation is one that a careful caller may perform. */
  lemma {:induction false} GroundedObeys(op: Op, d: VaultData)
    requires op.WellFormed() && Named(Mutate(op)) <= FolderIds(d.folders) && Added(Mutate(op)) !! FolderIds(d.folders)
    ensures CallerObeys(op, d)
  {
    match op
    case ReplaceConnections(cs) => AllRefer(cs, d.folders);
    case ImportConnections(cs, _) => AllRefer(cs, d.folders);
    case _ =>
  }

  lemma {:induction false} AllRefer(cs: seq<Connection>, folders: seq<Folder>)
    requires FoldersOf(cs) <= FolderIds(folders)
    ensures forall c :: c in cs ==> Refers(c.folderId, folders)
  {
    forall c | c in cs && c.folderId.Some?
      ensures c.folderId.value in FolderIds(folders)
    {
      assert c.folderId.value in FolderOf(c);
      assert c.folderId.value in FoldersOf(cs);
    }
  }

  /** The folder ids after an operation. */
  lemma {:induction false} IdsAfter(op: Op, d: VaultData)
    requires op.WellFormed() && Consistent(d) && Apply(op, d).Ok?
    ensures var before, after := FolderIds(d.folders), FolderIds(Apply(op, d).value.folders);
            if op.DeleteFolder? then after <= before else after == before + Added(Mutate(op))
  {
    match op
    case AddFolder(f) =>
    case UpdateFolder(f) =>
      var pos := FolderAt(d.folders, f.id).value;
      IdsOfUpdated(d.folders, pos, f);
    case DeleteFolder(id) =>
      var pos := FolderAt(d.folders, id).value;
    case _ =>
  }

  lemma {:induction false} IdsOfUpdated(folders: seq<Folder>, pos: nat, f: Folder)
    requires pos < |folders| && folders[pos].id == f.id
    ensures FolderIds(folders[pos := f]) == FolderIds(folders)
  {
    var after := folders[pos := f];
    assert after[pos] == f;
    forall id | id in FolderIds(folders)
      ensures id in FolderIds(after)
    {
      var k :| 0 <= k < |folders| && folders[k].id == id;
      assert after[k] in after && after[k].id == id;
    }
    forall id | id in FolderIds(after)
      ensures id in FolderIds(folders)
    {
      var k :| 0 <= k < |after| && after[k].id == id;
      assert folders[k] in folders && folders[k].id == id;
    }
  }

  /** A file saved from consistent data opens to nothing else. */
  lemma {:induction false} SaveIsSound(
    pr: Primitives, disk: map<string, string>, path: string, vs: VaultState, key: Key, nonce: seq<byte>)
    requires pr.Lawful() && pr.Authentic() && |nonce| == NONCE_SIZE
    requires FilesSound(pr, disk) && Consistent(vs.data) && FileText(pr, vs, key, nonce).Ok?
    ensures FilesSound(pr, disk[path := FileText(pr, vs, key, nonce).value])
  {
    forall p | OpenFile(pr, FileText(pr, vs, key, nonce).value, p).Ok?
      ensures OpenFile(pr, FileText(pr, vs, key, nonce).value, p).value.0.data == Erase(vs.data)
    {
      SavedFileOpensToItself(pr, vs, key, nonce, p);
    }
  }

  // ---- Steps ----

  /** What a step of thread `t` may be: inside a section, the end of the call, or the end of a section. */
  ghost predicate Stays(w: World, w': World, t: nat)
    requires t < |w.threads| == |w'.threads|
  {
    (w'.threads[t].todo == w.threads[t].todo || w'.threads[t].todo == []) && w'.mem == w.mem && w'.disk == w.disk
  }

  ghost predicate Changes(w: World, w': World, t: nat)
    requires t < |w.threads| == |w'.threads| && w.threads[t].todo != [] && w.threads[t].todo[0].Mutate?
  {
    var op := w.threads[t].todo[0].op;
    && op.WellFormed() && w.mem.Some? && Apply(op, w.mem.value.data).Ok?
    && w'.mem == Some(w.mem.value.(data := Apply(op, w.mem.value.data).value))
    && w'.threads[t].todo == w.threads[t].todo[1..] && w'.disk == w.disk
  }

  ghost predicate Saves(pr: Primitives, w: World, w': World, t: nat)
    requires t < |w.threads| == |w'.threads| && w.threads[t].todo != [] && w.threads[t].todo[0].Save?
  {
    var save := w.threads[t].todo[0];
    && w.mem.Some? && w.key.Some? && FileText(pr, w.mem.value, w.key.value, save.nonce).Ok?
    && w'.disk == w.disk[save.path := FileText(pr, w.mem.value, w.key.value, save.nonce).value]
    && w'.mem == w.mem && w'.threads[t].todo == w.threads[t].todo[1..]
  }

  ghost predicate Reads(pr: Primitives, w: World, w': World, t: nat)
    requires t < |w.threads| == |w'.threads| && w.threads[t].todo != [] && w.threads[t].todo[0].ReadFile?
  {
    var read := w.threads[t].todo[0];
    && read.path in w.disk && OpenFile(pr, w.disk[read.path], read.password).Ok?
    && var (vs, key) := OpenFile(pr, w.disk[read.path], read.password).value;
       && w'.threads[t].todo == [PutState(vs), PutKey(key)] + w.threads[t].todo[1..]
       && w'.mem == w.mem && w'.disk == w.disk
  }

  /** What a step does, told by the section it is in. */
  ghost predicate Moves(pr: Primitives, w: World, w': World, t: nat)
    requires t < |w.threads| == |w'.threads| && w.threads[t].todo != []
  {
    var rest := w.threads[t].todo[1..];
    || Stays(w, w', t)
    || match w.threads[t].todo[0]
       case Mutate(_) => Changes(w, w', t)
       case Save(_, _) => Saves(pr, w, w', t)
       case ReadFile(_, _) => Reads(pr, w, w', t)
       case PutState(vs) => w'.mem == Some(vs) && w'.disk == w.disk && w'.threads[t].todo == rest
       case ClearState => w'.mem == None && w'.disk == w.disk && w'.threads[t].todo == rest
       case _ => w'.mem == w.mem && w'.disk == w.disk && w'.threads[t].todo == rest
  }

  lemma {:induction false} StepKinds(pr: Primitives, w: World, w': World, t: nat, writable: bool)
    requires Stepped(pr, w, w', t, writable)
    ensures w'.threads[t].call == w.threads[t].call && Moves(pr, w, w', t)
  {
    if !Silent(w, w', t) {
      assert Completes(pr, w, w', t, writable);
    }
  }

  /** Thread `t` has no more to come than before, and the others the same. */
  lemma {:induction false} StillApart(w: World, w': World, t: nat)
    requires t < |w.threads| == |w'.threads|
    requires forall u :: 0 <= u < |w.threads| && u != t ==> w'.threads[u] == w.threads[u]
    requires AllNamed(w'.threads[t].todo) <= AllNamed(w.threads[t].todo)
    requires AllAdded(w'.threads[t].todo) <= AllAdded(w.threads[t].todo)
    requires Deletes(w'.threads[t].todo) ==> Deletes(w.threads[t].todo)
    requires w'.threads[t].call == w.threads[t].call && !w.threads[t].Idle()
    requires forall u, v :: 0 <= u < |w.threads| && 0 <= v < |w.threads| && u != v ==> Apart(w, u, v)
    ensures forall u, v :: 0 <= u < |w'.threads| && 0 <= v < |w'.threads| && u != v ==> Apart(w', u, v)
  {
    forall u, v | 0 <= u < |w'.threads| && 0 <= v < |w'.threads| && u != v
      ensures Apart(w', u, v)
    {
      assert Apart(w, u, v);
    }
  }

  /** After a section that adds no folder, with memory as it was. */
  lemma {:induction false} SoundRest(w: World, w': World, t: nat)
    requires t < |w.threads| == |w'.threads| && w.threads[t].todo != [] && ThreadSound(w, t)
    requires w'.threads[t].todo == w.threads[t].todo[1..] && w'.threads[t].call == w.threads[t].call
    requires w'.mem == w.mem || w'.mem == None
    requires Added(w.threads[t].todo[0]) == {}
    ensures ThreadSound(w', t)
  {
    if w.mem.Some? {
      assert FolderIds(w.mem.value.data.folders) + {} == FolderIds(w.mem.value.data.folders);
    }
  }

  lemma {:induction false} ChangeSound(pr: Primitives, w: World, w': World, t: nat, u: nat)
    requires Sound(pr, w) && t < |w.threads| == |w'.threads| && u < |w.threads|
    requires w.threads[t].todo != [] && w.threads[t].todo[0].Mutate? && Changes(w, w', t)
    requires w'.threads[t].call == w.threads[t].call
    requires forall v :: 0 <= v < |w.threads| && v != t ==> w'.threads[v] == w.threads[v]
    ensures ThreadSound(w', u)
  {
    var op, d, todo := w.threads[t].todo[0].op, w.mem.value.data, w.threads[t].todo;
    assert ThreadSound(w, t) && ThreadSound(w, u);
    var before, after := FolderIds(d.folders), FolderIds(w'.mem.value.data.folders);
    IdsAfter(op, d);
    if op.DeleteFolder? {
      assert Deletes(todo);
      assert u != t ==> Apart(w, t, u);
      assert AllNamed(w'.threads[u].todo) == {} && Grounded(w'.threads[u].todo, before) by {
        assert before + {} == before;
      }
      GroundedLess(w'.threads[u].todo, before, after);
    } else if u != t {
      assert Apart(w, t, u);
      assert Added(todo[0]) !! AllAdded(w.threads[u].todo);
      GroundedMore(w.threads[u].todo, before, Added(todo[0]));
    }
  }

  lemma {:induction false} ChangeKeepsConsistent(w: World, w': World, t: nat)
    requires t < |w.threads| == |w'.threads| && ThreadSound(w, t) && w.mem.Some? && Consistent(w.mem.value.data)
    requires w.threads[t].todo != [] && w.threads[t].todo[0].Mutate? && Changes(w, w', t)
    ensures Consistent(w'.mem.value.data)
  {
    GroundedObeys(w.threads[t].todo[0].op, w.mem.value.data);
    ApplyKeepsConsistent(w.threads[t].todo[0].op, w.mem.value.data);
  }

  /** A put finds nobody with anything to file or add. */
  lemma {:induction false} PutSound(pr: Primitives, w: World, w': World, t: nat, u: nat)
    requires Sound(pr, w) && t < |w.threads| == |w'.threads| && u < |w.threads|
    requires w.threads[t].todo != [] && w.threads[t].todo[0].PutState? && w'.threads[t].todo == w.threads[t].todo[1..]
    requires w'.threads[t].call == w.threads[t].call
    requires forall v :: 0 <= v < |w.threads| && v != t ==> w'.threads[v] == w.threads[v]
    ensures ThreadSound(w', u)
  {
    assert ThreadSound(w, t) && ThreadSound(w, u);
    assert Replaces(w, t);
    if u == t {
      NoMutations(w.threads[t].todo);
    } else {
      assert Apart(w, t, u);
    }
    if w'.mem.Some? {
      GroundedAnyway(w'.threads[u].todo, FolderIds(w'.mem.value.data.folders));
    }
  }

  lemma {:induction false} ReadSound(pr: Primitives, w: World, w': World, t: nat)
    requires t < |w.threads| == |w'.threads| && ThreadSound(w, t) && FilesSound(pr, w.disk)
    requires w.threads[t].todo != [] && w.threads[t].todo[0].ReadFile? && Reads(pr, w, w', t)
    requires w'.threads[t].call == w.threads[t].call
    ensures ThreadSound(w', t)
    ensures AllNamed(w'.threads[t].todo) == {} && AllAdded(w'.threads[t].todo) == {} && !Deletes(w'.threads[t].todo)
  {
    var todo, todo', read := w.threads[t].todo, w'.threads[t].todo, w.threads[t].todo[0];
    var (vs, key) := OpenFile(pr, w.disk[read.path], read.password).value;
    assert w.threads[t].call.IsLifecycle();
    NoMutations(todo');
    if w'.mem.Some? {
      GroundedAnyway(todo', FolderIds(w'.mem.value.data.folders));
    }
    assert !w.threads[t].call.LockVault?;
  }

  lemma {:induction false} GoSound(pr: Primitives, w: World, t: nat, writable: bool)
    requires pr.Lawful() && pr.Authentic() && Sound(pr, w) && Next(pr, w, Go(t, writable)).Some?
    ensures Sound(pr, Next(pr, w, Go(t, writable)).value)
  {
    var w' := Next(pr, w, Go(t, writable)).value;
    StepKeepsLocks(pr, w, Go(t, writable));
    StepIsSection(pr, w, t, writable);
    forall u | 0 <= u < |w'.threads|
      ensures ThreadSound(w', u)
    {
      GoKeepsThread(pr, w, w', t, writable, u);
    }
    GoKeepsApart(pr, w, w', t, writable);
    GoKeepsData(pr, w, w', t, writable);
  }

  lemma {:induction false} GoKeepsThread(pr: Primitives, w: World, w': World, t: nat, writable: bool, u: nat)
    requires pr.Lawful() && Sound(pr, w) && Stepped(pr, w, w', t, writable) && u < |w.threads|
    ensures u < |w'.threads| && ThreadSound(w', u)
  {
    StepKinds(pr, w, w', t, writable);
    assert ThreadSound(w, t) && ThreadSound(w, u);
    var action := w.threads[t].todo[0];
    if Stays(w, w', t) {
    } else if action.Mutate? {
      ChangeSound(pr, w, w', t, u);
    } else if action.PutState? {
      PutSound(pr, w, w', t, u);
    } else if u == t {
      if action.ReadFile? {
        ReadSound(pr, w, w', t);
      } else {
        SoundRest(w, w', t);
      }
    } else {
    }
  }

  lemma {:induction false} GoKeepsApart(pr: Primitives, w: World, w': World, t: nat, writable: bool)
    requires pr.Lawful() && Sound(pr, w) && Stepped(pr, w, w', t, writable)
    ensures forall u, v :: 0 <= u < |w'.threads| && 0 <= v < |w'.threads| && u != v ==> Apart(w', u, v)
  {
    StepKinds(pr, w, w', t, writable);
    assert ThreadSound(w, t);
    if !Stays(w, w', t) && w.threads[t].todo[0].ReadFile? {
      ReadSound(pr, w, w', t);
    }
    StillApart(w, w', t);
  }

  lemma {:induction false} GoKeepsData(pr: Primitives, w: World, w': World, t: nat, writable: bool)
    requires pr.Lawful() && pr.Authentic() && Sound(pr, w) && Stepped(pr, w, w', t, writable)
    ensures (w'.mem.Some? ==> Consistent(w'.mem.value.data)) && FilesSound(pr, w'.disk)
  {
    StepKinds(pr, w, w', t, writable);
    assert ThreadSound(w, t);
    if !Stays(w, w', t) {
      if w.threads[t].todo[0].Mutate? {
        ChangeKeepsConsistent(w, w', t);
      } else if w.threads[t].todo[0].Save? {
        var save := w.threads[t].todo[0];
        SaveIsSound(pr, w.disk, save.path, w.mem.value, w.key.value, save.nonce);
      }
    }
  }

  lemma {:induction false} ScriptSound(pr: Primitives, call: Call)
    requires call.WellFormed()
    ensures var todo := Script(pr, call);
            && (forall i :: 0 <= i < |todo| && todo[i].PutState? ==> Consistent(todo[i].vs.data))
            && (if call.IsLifecycle() then EditsNothing(call, todo) else Plain(todo))
            && (Deletes(todo) ==> AllNamed(todo) == {})
  {
    var todo := Script(pr, call);
    match call {
      case Edit(op, path, nonce) =>
        assert todo[1..] == [Save(path, nonce)] && todo[1..][1..] == [];
        assert AllNamed(todo) == Named(Mutate(op)) + (Named(Save(path, nonce)) + AllNamed(todo[1..][1..]));
      case ImportXml(folders, connections, ids, path, nonce) =>
        var ops := ImportOps(folders, connections, ids);
        assert forall i :: 0 <= i < |ops| ==> !ops[i].DeleteFolder?;
      case _ =>
    }
  }

  lemma {:induction false} StartSound(pr: Primitives, w: World, t: nat, call: Call)
    requires Sound(pr, w) && Careful(pr, w, Start(t, call)) && Next(pr, w, Start(t, call)).Some?
    ensures Sound(pr, Next(pr, w, Start(t, call)).value)
  {
    var w' := Next(pr, w, Start(t, call)).value;
    StepKeepsLocks(pr, w, Start(t, call));
    ScriptSound(pr, call);
    forall u | 0 <= u < |w'.threads|
      ensures ThreadSound(w', u)
    {
      assert ThreadSound(w, u);
      if u != t {
      }
    }
    forall u, v | 0 <= u < |w'.threads| && 0 <= v < |w'.threads| && u != v
      ensures Apart(w', u, v)
    {
      assert Apart(w, u, v);
    }
  }

  // ---- Runs ----

  /**
    Reference integrity over every run of any number of threads whose callers are careful: folder ids stay
    unique and every connection in memory is filed in an existing folder or in none, after every step; and
    so it is with whatever the files open to.
  */
  lemma {:induction false} CarefulRunsKeepConsistent(pr: Primitives, run: seq<World>, moves: seq<Move>, n: nat)
    requires pr.Lawful() && pr.Authentic() && IsRun(pr, run, moves) && Initial(run[0]) && FilesSound(pr, run[0].disk)
    requires forall i :: 0 <= i < |moves| ==> Careful(pr, run[i], moves[i])
    requires n < |run|
    ensures run[n].mem.Some? ==> Consistent(run[n].mem.value.data)
    ensures FilesSound(pr, run[n].disk)
  {
    RunSound(pr, run, moves, n);
  }

  lemma {:induction false} RunSound(pr: Primitives, run: seq<World>, moves: seq<Move>, n: nat)
    requires pr.Lawful() && pr.Authentic() && IsRun(pr, run, moves) && Initial(run[0]) && FilesSound(pr, run[0].disk)
    requires forall i :: 0 <= i < |moves| ==> Careful(pr, run[i], moves[i])
    requires n < |run|
    ensures Sound(pr, run[n])
  {
    if n == 0 {
    } else {
      RunSound(pr, run, moves, n - 1);
      assert StepAt(pr, run, moves, n - 1) && Careful(pr, run[n - 1], moves[n - 1]);
      match moves[n - 1] {
        case Start(t, call) => StartSound(pr, run[n - 1], t, call);
        case Go(t, writable) => GoSound(pr, run[n - 1], t, writable);
      }
    }
  }

  // ---- An overlap that is not careful ----

  /** A thread's next mutation succeeds. */
  lemma {:induction false} ReachesChanged(
    pr: Primitives, w: World, mid: World, t: nat, op: Op, d: VaultData, rest: seq<Action>)
    returns (after: World)
    requires Reaches(pr, w, mid) && Free(mid, t) && mid.threads[t].todo == [Mutate(op)] + rest
    requires op.WellFormed() && mid.mem.Some? && Apply(op, mid.mem.value.data) == Ok(d)
    ensures Reaches(pr, w, after)
    ensures after == With(mid, t, mid.threads[t].(todo := rest, dirty := true)).(mem := Some(mid.mem.value.(data := d)))
  {
    ReachesSection(pr, w, mid, t, true);
    after := AfterSection(pr, mid, t, true);
    assert ([Mutate(op)] + rest)[1..] == rest;
  }

  /** The import of one folder and a connection in it. */
  function SmallImport(f: Folder, c: Connection, id: string, path: string, nonce: seq<byte>): Call {
    ImportXml([f], [c], [id], path, nonce)
  }

  /**
    A file's folder is deleted between the two mutations of its import. The import goes on, and files its
    connection under a folder that is listed no more; the connection can then not be seen.
  */
  lemma {:induction false} DeleteDuringImportStrands(
    pr: Primitives, w: World, mid: World, f: Folder, c: Connection, id: string, path: string, nonce: seq<byte>)
    returns (end: World)
    requires Reaches(pr, w, mid) && Free(mid, 0) && Free(mid, 1)
    requires mid.threads[0].Idle() && mid.threads[1].Idle() && mid.mem.Some?
    requires f.id !in FolderIds(mid.mem.value.data.folders) && c.folderId == Some(f.id)
    requires EndpointOf(c) !in Endpoints(Unfile(mid.mem.value.data.connections, f.id))
    ensures Reaches(pr, w, end) && end.mem.Some?
    ensures |end.threads| == |mid.threads| && end.threads[1] == Durability.Owing(Edit(DeleteFolder(f.id), path, nonce))
    ensures end.threads[0] == Thread(Outside, [Save(path, nonce)], SmallImport(f, c, id, path, nonce), true)
    ensures end.mem.value.data
         == VaultData(Unfile(mid.mem.value.data.connections, f.id) + [c.(id := id)], mid.mem.value.data.folders)
    ensures !Consistent(end.mem.value.data)
  {
    var d := mid.mem.value.data;
    var unfiled := Unfile(d.connections, f.id);
    var deleted := ReachesFolderDeleted(pr, w, mid, f, c, id, path, nonce);
    ImportOne(unfiled, c, id);
    var filed := VaultData(unfiled + [c.(id := id)], d.folders);
    end := ReachesChanged(pr, w, deleted, 0, ImportConnections([c], [id]), filed, [Save(path, nonce)]);
  }

  /** The import of one folder and one connection, its folder added, and the folder deleted by another call. */
  lemma {:induction false} ReachesFolderDeleted(
    pr: Primitives, w: World, mid: World, f: Folder, c: Connection, id: string, path: string, nonce: seq<byte>)
    returns (deleted: World)
    requires Reaches(pr, w, mid) && Free(mid, 0) && Free(mid, 1)
    requires mid.threads[0].Idle() && mid.threads[1].Idle() && mid.mem.Some?
    requires f.id !in FolderIds(mid.mem.value.data.folders)
    ensures Reaches(pr, w, deleted) && Free(deleted, 0) && deleted.mem.Some?
    ensures var rest := [Mutate(ImportConnections([c], [id]))] + [Save(path, nonce)];
            && |deleted.threads| == |mid.threads|
            && deleted.threads[0] == Thread(Outside, rest, SmallImport(f, c, id, path, nonce), true)
            && deleted.threads[1] == Durability.Owing(Edit(DeleteFolder(f.id), path, nonce))
    ensures deleted.mem.value.data
         == VaultData(Unfile(mid.mem.value.data.connections, f.id), mid.mem.value.data.folders)
  {
    var d := mid.mem.value.data;
    var half := ReachesFolderAdded(pr, w, mid, f, c, id, path, nonce);
    LastFolderAt(d.folders, f);
    deleted := Durability.ReachesMutated(pr, w, half, 1, Edit(DeleteFolder(f.id), path, nonce),
                                         VaultData(Unfile(d.connections, f.id), d.folders));
  }

  /** The first mutation of the import. */
  lemma {:induction false} ReachesFolderAdded(
    pr: Primitives, w: World, mid: World, f: Folder, c: Connection, id: string, path: string, nonce: seq<byte>)
    returns (half: World)
    requires Reaches(pr, w, mid) && Free(mid, 0) && mid.threads[0].Idle() && mid.mem.Some?
    ensures Reaches(pr, w, half)
    ensures var rest := [Mutate(ImportConnections([c], [id]))] + [Save(path, nonce)];
            var d := mid.mem.value.data;
            half == With(mid, 0, Thread(Outside, rest, SmallImport(f, c, id, path, nonce), true))
                      .(mem := Some(mid.mem.value.(data := d.(folders := d.folders + [f]))))
  {
    var d, importing := mid.mem.value.data, SmallImport(f, c, id, path, nonce);
    var begun := ReachesBegun(pr, w, mid, 0, importing);
    half := ReachesChanged(pr, w, begun, 0, AddFolder(f),
                           d.(folders := d.folders + [f]), [Mutate(ImportConnections([c], [id]))] + [Save(path, nonce)]);
    assert mid.given + {} == mid.given;
  }

  lemma {:induction false} LastFolderAt(folders: seq<Folder>, f: Folder)
    requires f.id !in FolderIds(folders)
    ensures FolderAt(folders + [f], f.id) == Some(|folders|)
    ensures (folders + [f])[..|folders|] + (folders + [f])[|folders| + 1..] == folders
  {
    var all := folders + [f];
    assert all[|folders|] == f && f in all;
    forall i | 0 <= i < |folders|
      ensures all[i].id != f.id
    {
      assert all[i] == folders[i] && folders[i] in folders;
    }
  }

  lemma {:induction false} ImportOne(cs: seq<Connection>, c: Connection, id: string)
    requires EndpointOf(c) !in Endpoints(cs)
    ensures ImportBatch(cs, [c], [id]) == (cs + [c.(id := id)], 1)
  {
    assert [c][1..] == [] && [id][1..] == [];
    assert ImportBatch(cs + [c.(id := id)], [], []) == (cs + [c.(id := id)], 0);
  }
}
