/**
  What is on disk when the calls are over. Every change of the vault is a mutation followed by a separate
  save, and saves of concurrent calls interleave with mutations of others; yet once all calls have
  returned, the file holds exactly what is in memory, unless a load overlapped an edit.
*/
module Durability {
  import opened Collections
  import opened Models
  import opened VaultOps
  import opened VaultFile
  import opened Concurrency
  import opened Solo
  import opened KeyAgreement
  import opened Json

  /** One given password opens the file at `path` to the state in memory, key passphrases aside, and to its key. */
  ghost predicate Synced(
    pr: Primitives, given: set<string>, path: string, mem: Option<VaultState>, key: Option<Key>,
    disk: map<string, string>)
  {
    mem.Some? ==>
      && key.Some? && path in disk
      && exists p :: p in given && OpensTo(pr, disk[path], p, mem.value, key.value)
  }

  ghost predicate OpensTo(pr: Primitives, text: string, password: string, vs: VaultState, key: Key) {
    Unlocks(pr, password, vs, key) && OpenFile(pr, text, password) == Ok((Erased(vs), key))
  }

  ghost predicate InSync(pr: Primitives, path: string, w: World) {
    Synced(pr, w.given, path, w.mem, w.key, w.disk)
  }

  /** The call works on the one vault file. */
  predicate UsesFile(call: Call, path: string) {
    match call
    case CreateVault(_, _, p, nonce) => p == path && |nonce| == NONCE_SIZE
    case UnlockVault(p, _) => p == path
    case Edit(_, p, nonce) => p == path && |nonce| == NONCE_SIZE
    case ImportXml(_, _, _, p, nonce) => p == path && |nonce| == NONCE_SIZE
    case _ => true
  }

  /** The thread is in a call that may change the data and saves at its end. */
  ghost predicate Edits(w: World, t: nat)
    requires t < |w.threads|
  {
    !w.threads[t].call.IsLifecycle() && !w.threads[t].Idle() && Last(w.threads[t].todo).Save?
  }

  ghost predicate Loads(w: World, t: nat)
    requires t < |w.threads|
  {
    w.threads[t].call.UnlockVault? && !w.threads[t].Idle()
  }

  /** No load starts while an edit runs, and no edit while a load does. */
  ghost predicate LoadsApart(w: World, move: Move) {
    match move
    case Start(_, call) =>
      && (call.UnlockVault? ==> forall t :: 0 <= t < |w.threads| ==> !Edits(w, t))
      && (call.Edit? || call.ImportXml? ==> forall t :: 0 <= t < |w.threads| ==> !Loads(w, t))
    case Go(_, _) => true
  }

  /**
    The calls that replace the state overlap only as `Exclusive` says, and loads no edits; all calls use one
    file, and every write to it succeeds. Creates and locks may overlap edits, and reads anything.
  */
  ghost predicate Orderly(pr: Primitives, path: string, w: World, move: Move) {
    && Exclusive(pr, w, move) && LoadsApart(w, move)
    && (move.Start? ==> UsesFile(move.call, path))
    && (move.Go? ==> move.writable)
  }

  predicate IsSave(path: string, a: Action) {
    a.Save? && a.path == path && |a.nonce| == NONCE_SIZE
  }

  /** A mutation that cannot fail on an unlocked vault. */
  predicate CannotFail(a: Action) {
    a.Mutate? && a.op.WellFormed() && (a.op.AddFolder? || a.op.ImportConnections?)
  }

  /** The rest of a call that has changed the state: nothing in it can fail before the save at its end. */
  predicate OwesSave(path: string, todo: seq<Action>) {
    && todo != [] && IsSave(path, Last(todo))
    && forall i :: 0 <= i < |todo| - 1 ==> CannotFail(todo[i])
  }

  predicate EditsAndSaves(path: string, todo: seq<Action>) {
    || todo == []
    || (|todo| == 1 && (todo[0].PeekState? || todo[0].PeekKey?))
    || (|todo| == 2 && todo[0].Mutate? && IsSave(path, todo[1]))
    || OwesSave(path, todo)
  }

  /** A load puts what the file opens to, and nobody edits meanwhile. */
  ghost predicate LoadInOrder(pr: Primitives, path: string, w: World, t: nat)
    requires t < |w.threads| && Loads(w, t)
  {
    var todo, password := w.threads[t].todo, w.threads[t].call.password;
    && w.threads[t].call.path == path && password in w.given
    && (todo == [ReadFile(path, password)]
        || (path in w.disk && PutsAsRead(todo, w.mem, OpenFile(pr, w.disk[path], password))))
    && forall u :: 0 <= u < |w.threads| ==> !Edits(w, u)
  }

  predicate PutsAsRead(todo: seq<Action>, mem: Option<VaultState>, read: Result<(VaultState, Key), Error>) {
    && read.Ok?
    && (todo == [PutState(read.value.0), PutKey(read.value.1)]
        || (todo == [PutKey(read.value.1)] && mem == Some(read.value.0)))
  }

  ghost predicate ThreadInOrder(pr: Primitives, path: string, w: World, t: nat)
    requires t < |w.threads|
  {
    var th := w.threads[t];
    && (Loads(w, t) ==> LoadInOrder(pr, path, w, t))
    && (th.call.CreateVault? ==> th.call.path == path && |th.call.nonce| == NONCE_SIZE)
    && (!th.call.IsLifecycle() ==> EditsAndSaves(path, th.todo))
    && (th.dirty ==> !th.call.IsLifecycle() && OwesSave(path, th.todo))
  }

  ghost predicate SomeoneOwes(w: World) {
    exists t :: 0 <= t < |w.threads| && w.threads[t].dirty
  }

  /** The invariant of orderly runs: but for a lifecycle call in its puts, all is saved or a save is still owed. */
  ghost predicate InOrder(pr: Primitives, path: string, w: World) {
    && LocksHeld(w) && KeysAgree(pr, w)
    && (forall t :: 0 <= t < |w.threads| ==> ThreadInOrder(pr, path, w, t))
    && (Settled(w) ==> InSync(pr, path, w) || SomeoneOwes(w))
  }

  // ---- Single facts ----

  /** Saving under both locks brings the file up to the memory of that very moment. */
  lemma {:induction false} SaveSyncs(
    pr: Primitives, given: set<string>, path: string, vs: VaultState, key: Key, nonce: seq<byte>,
    disk: map<string, string>)
    requires pr.Lawful() && |nonce| == NONCE_SIZE && Agree(pr, given, Some(vs), Some(key))
    ensures FileText(pr, vs, key, nonce).Ok?
    ensures Synced(pr, given, path, Some(vs), Some(key), disk[path := FileText(pr, vs, key, nonce).value])
  {
    var p :| p in given && Unlocks(pr, p, vs, key);
    SavedFileOpens(pr, vs, key, nonce, p);
    assert OpensTo(pr, FileText(pr, vs, key, nonce).value, p, vs, key);
  }

  lemma {:induction false} LoadSyncs(
    pr: Primitives, given: set<string>, path: string, password: string, disk: map<string, string>)
    requires password in given && path in disk && OpenFile(pr, disk[path], password).Ok?
    ensures var (vs, key) := OpenFile(pr, disk[path], password).value;
            Synced(pr, given, path, Some(vs), Some(key), disk)
  {
    var (vs, key) := OpenFile(pr, disk[path], password).value;
    OpenedIsUnlocked(pr, disk[path], password);
    assert OpensTo(pr, disk[path], password, vs, key);
  }

  // ---- Steps ----

  lemma {:induction false} StartInOrder(pr: Primitives, path: string, w: World, t: nat, call: Call)
    requires pr.Lawful() && InOrder(pr, path, w) && Orderly(pr, path, w, Start(t, call))
    requires Next(pr, w, Start(t, call)).Some?
    ensures InOrder(pr, path, Next(pr, w, Start(t, call)).value)
  {
    var w' := Next(pr, w, Start(t, call)).value;
    StepKeepsLocks(pr, w, Start(t, call));
    StartKeepsAgreement(pr, w, t, call);
    forall u | 0 <= u < |w'.threads|
      ensures ThreadInOrder(pr, path, w', u)
    {
      StartKeepsThread(pr, path, w, t, call, u);
    }
    if Settled(w') {
      assert ThreadInOrder(pr, path, w, t);
      forall u | 0 <= u < |w.threads| && LifecycleRuns(w, u)
        ensures w.threads[u].todo[0].ReadFile?
      {
        OthersRun(w, w', t, u);
      }
      StillOwedAtStart(pr, path, w, t, call);
    }
  }

  lemma {:induction false} StillOwedAtStart(pr: Primitives, path: string, w: World, t: nat, call: Call)
    requires Next(pr, w, Start(t, call)).Some? && (InSync(pr, path, w) || SomeoneOwes(w))
    requires ThreadInOrder(pr, path, w, t)
    ensures var w' := Next(pr, w, Start(t, call)).value; InSync(pr, path, w') || SomeoneOwes(w')
  {
    var w' := Next(pr, w, Start(t, call)).value;
    if SomeoneOwes(w) {
      var u :| 0 <= u < |w.threads| && w.threads[u].dirty;
      assert w'.threads[u].dirty;
    }
  }

  lemma {:induction false} StartKeepsThread(pr: Primitives, path: string, w: World, t: nat, call: Call, u: nat)
    requires pr.Lawful() && InOrder(pr, path, w) && Orderly(pr, path, w, Start(t, call))
    requires Next(pr, w, Start(t, call)).Some? && u < |w.threads|
    ensures ThreadInOrder(pr, path, Next(pr, w, Start(t, call)).value, u)
  {
    var w' := Next(pr, w, Start(t, call)).value;
    assert ThreadInOrder(pr, path, w, u);
    if Loads(w', u) {
      forall v | 0 <= v < |w'.threads|
        ensures !Edits(w', v)
      {
        if u != t {
          assert Loads(w, u) && LoadInOrder(pr, path, w, u);
          assert v != t ==> !Edits(w, v);
        } else {
          assert v != t ==> !Edits(w, v);
        }
      }
    }
  }

  /** A load goes on past a step of another thread that is no edit and changes neither memory nor file. */
  lemma {:induction false} LoadStays(pr: Primitives, path: string, w: World, w': World, t: nat, u: nat)
    requires t < |w.threads| == |w'.threads| && u < |w.threads| && u != t && Loads(w, u) && LoadInOrder(pr, path, w, u)
    requires forall v :: 0 <= v < |w.threads| && v != t ==> w'.threads[v] == w.threads[v]
    requires w'.mem == w.mem && w'.disk == w.disk && w.given <= w'.given && !Edits(w', t)
    ensures Loads(w', u) && LoadInOrder(pr, path, w', u)
  {
    forall v | 0 <= v < |w.threads|
      ensures !Edits(w', v)
    {
      assert !Edits(w, v);
    }
  }

  /** A step of a load: it changes memory and key only as the file says. */
  lemma {:induction false} LoadStepInOrder(pr: Primitives, path: string, w: World, w': World, t: nat)
    requires t < |w.threads| && Loads(w, t) && LoadInOrder(pr, path, w, t)
    requires Stepped(pr, w, w', t, true)
    ensures && w'.disk == w.disk && w'.given == w.given && w'.threads[t].call == w.threads[t].call
            && (Loads(w', t) ==> LoadInOrder(pr, path, w', t))
            && (w.threads[t].todo[0].ReadFile? ==> w'.mem == w.mem && w'.key == w.key)
            && (!w.threads[t].todo[0].ReadFile? ==>
                  && (w'.mem == w.mem || w'.mem == Some(OpenFile(pr, w.disk[path], w.threads[t].call.password).value.0))
                  && (w'.threads[t].todo == [] ==> InSync(pr, path, w'))
                  && (w'.threads[t].todo != [] ==> !w'.threads[t].todo[0].ReadFile?))
  {
    var th := w.threads[t];
    assert th.todo[0].ReadFile? ==> th.todo[1..] == [];
    assert |th.todo| == 1 ==> th.todo[1..] == [];
    if path in w.disk && OpenFile(pr, w.disk[path], th.call.password).Ok? {
      var (vs, k) := OpenFile(pr, w.disk[path], th.call.password).value;
      assert [PutState(vs), PutKey(k)][1..] == [PutKey(k)];
      LoadSyncs(pr, w.given, path, th.call.password, w.disk);
    }
    forall u | 0 <= u < |w.threads|
      ensures !Edits(w', u)
    {
      assert !Edits(w, u);
    }
  }

  /** At the end of a create, the save has brought file and memory in step. */
  lemma {:induction false} CreateEndsInSync(pr: Primitives, path: string, w: World, w': World, t: nat)
    requires pr.Lawful() && t < |w.threads| && ThreadAgrees(pr, w, t) && ThreadInOrder(pr, path, w, t)
    requires w.threads[t].call.CreateVault? && LifecycleRuns(w, t)
    requires Stepped(pr, w, w', t, true) && w'.threads[t].todo == []
    ensures InSync(pr, path, w')
  {
    assert Completes(pr, w, w', t, true);
    if w.threads[t].todo[0].Save? {
      SaveStep(pr, path, w, w', t);
    }
  }

  /** The end of a save, with state and key in agreement. */
  lemma {:induction false} SaveStep(pr: Primitives, path: string, w: World, w': World, t: nat)
    requires pr.Lawful() && Stepped(pr, w, w', t, true) && Completes(pr, w, w', t, true)
    requires IsSave(path, w.threads[t].todo[0]) && Agreed(pr, w)
    ensures InSync(pr, path, w')
  {
    SectionSyncs(pr, w.given, path, StoreOf(w), w.threads[t].todo[0]);
  }

  lemma {:induction false} SectionSyncs(pr: Primitives, given: set<string>, path: string, s: Store, save: Action)
    requires pr.Lawful() && IsSave(path, save) && Agree(pr, given, s.mem, s.key)
    ensures var s' := Section(pr, s, save, true).0;
            Synced(pr, given, path, s'.mem, s'.key, s'.disk)
  {
    if s.mem.Some? {
      SaveSyncs(pr, given, path, s.mem.value, s.key.value, save.nonce, s.disk);
    }
  }

  /** A step of an edit or a read keeps its shape, and a read changes nothing. */
  lemma {:induction false} EditShape(pr: Primitives, path: string, w: World, w': World, t: nat)
    requires t < |w.threads| && ThreadInOrder(pr, path, w, t)
    requires !w.threads[t].call.IsLifecycle() && Stepped(pr, w, w', t, true)
    ensures var th' := w'.threads[t];
            && th'.call == w.threads[t].call && w'.given == w.given && EditsAndSaves(path, th'.todo)
            && (th'.dirty ==> OwesSave(path, th'.todo))
            && (!Edits(w, t) ==> !Edits(w', t) && w'.mem == w.mem && w'.key == w.key && w'.disk == w.disk)
  {
  }

  /** With state and key in agreement it leaves a save owed, or file and memory in step, or changes nothing. */
  lemma {:induction false} EditStaysInOrder(pr: Primitives, path: string, w: World, w': World, t: nat)
    requires pr.Lawful() && t < |w.threads| && ThreadInOrder(pr, path, w, t)
    requires !w.threads[t].call.IsLifecycle() && Agreed(pr, w)
    requires Stepped(pr, w, w', t, true)
    ensures w'.threads[t].dirty || InSync(pr, path, w')
            || (!w.threads[t].dirty && w'.mem == w.mem && w'.key == w.key && w'.disk == w.disk)
  {
    if !Silent(w, w', t) && w.threads[t].todo[0].Save? {
      SaveStep(pr, path, w, w', t);
    }
  }

  lemma {:induction false} GoInOrder(pr: Primitives, path: string, w: World, t: nat)
    requires pr.Lawful() && InOrder(pr, path, w) && Next(pr, w, Go(t, true)).Some?
    ensures InOrder(pr, path, Next(pr, w, Go(t, true)).value)
  {
    var w' := Next(pr, w, Go(t, true)).value;
    StepKeepsLocks(pr, w, Go(t, true));
    GoKeepsAgreement(pr, w, t, true);
    StepIsSection(pr, w, t, true);
    forall u | 0 <= u < |w'.threads|
      ensures ThreadInOrder(pr, path, w', u)
    {
      if w.threads[t].call.IsLifecycle() {
        LifecycleKeepsThread(pr, path, w, w', t, u);
      } else {
        EditKeepsThread(pr, path, w, w', t, u);
      }
    }
    if Settled(w') {
      if w.threads[t].call.IsLifecycle() {
        LifecycleEndsInSync(pr, path, w, w', t);
      } else {
        EditOwes(pr, path, w, w', t);
      }
    }
  }

  lemma {:induction false} LifecycleKeepsThread(pr: Primitives, path: string, w: World, w': World, t: nat, u: nat)
    requires pr.Lawful() && InOrder(pr, path, w) && Stepped(pr, w, w', t, true)
    requires t < |w.threads| && LifecycleRuns(w, t) && u < |w.threads|
    ensures u < |w'.threads| && ThreadInOrder(pr, path, w', u)
  {
    assert ThreadInOrder(pr, path, w, t) && ThreadAgrees(pr, w, t) && ThreadInOrder(pr, path, w, u);
    LifecycleStep(pr, w, w', t, true);
    if u == t {
      if Loads(w, t) {
        LoadStepInOrder(pr, path, w, w', t);
      }
    } else if Loads(w, u) {
      assert MayOverlap(pr, w, w.threads[t].call, w.threads[u].call);
      LoadStepInOrder(pr, path, w, w', t);
      LoadStaysPastLoad(pr, path, w, w', t, u);
    }
  }

  /** Another load of the file puts the same. */
  lemma {:induction false} LoadStaysPastLoad(pr: Primitives, path: string, w: World, w': World, t: nat, u: nat)
    requires t < |w.threads| == |w'.threads| && u < |w.threads| && u != t
    requires forall v :: 0 <= v < |w.threads| && v != t ==> w'.threads[v] == w.threads[v]
    requires Loads(w, t) && LoadInOrder(pr, path, w, t) && Loads(w, u) && LoadInOrder(pr, path, w, u)
    requires w.threads[t].call == w.threads[u].call && w'.threads[t].call == w.threads[t].call
    requires w'.disk == w.disk && w'.given == w.given
    requires w'.mem == w.mem || (path in w.disk && OpenFile(pr, w.disk[path], w.threads[t].call.password).Ok?
                                 && w'.mem == Some(OpenFile(pr, w.disk[path], w.threads[t].call.password).value.0))
    ensures Loads(w', u) && LoadInOrder(pr, path, w', u)
  {
    forall v | 0 <= v < |w.threads|
      ensures !Edits(w', v)
    {
      assert !Edits(w, v);
    }
  }

  lemma {:induction false} LifecycleEndsInSync(pr: Primitives, path: string, w: World, w': World, t: nat)
    requires pr.Lawful() && InOrder(pr, path, w) && Stepped(pr, w, w', t, true)
    requires t < |w.threads| && LifecycleRuns(w, t) && Settled(w')
    ensures InSync(pr, path, w') || SomeoneOwes(w')
  {
    assert ThreadInOrder(pr, path, w, t) && ThreadAgrees(pr, w, t);
    LifecycleStep(pr, w, w', t, true);
    if w.threads[t].todo[0].ReadFile? {
      LoadStepInOrder(pr, path, w, w', t);
      if SomeoneOwes(w) {
        var u :| 0 <= u < |w.threads| && w.threads[u].dirty;
        assert w'.threads[u].dirty;
      }
    } else {
      assert !LifecycleRuns(w', t);
      match w.threads[t].call
      case CreateVault(_, _, _, _) => CreateEndsInSync(pr, path, w, w', t);
      case UnlockVault(_, _) => LoadStepInOrder(pr, path, w, w', t);
      case LockVault => LockStep(pr, w, w', t, true);
    }
  }

  lemma {:induction false} EditKeepsThread(pr: Primitives, path: string, w: World, w': World, t: nat, u: nat)
    requires pr.Lawful() && InOrder(pr, path, w) && Stepped(pr, w, w', t, true)
    requires t < |w.threads| && !w.threads[t].call.IsLifecycle() && u < |w.threads|
    ensures u < |w'.threads| && ThreadInOrder(pr, path, w', u)
  {
    assert ThreadInOrder(pr, path, w, t) && ThreadInOrder(pr, path, w, u);
    EditShape(pr, path, w, w', t);
    if u != t && Loads(w, u) {
      assert !Edits(w, t);
      LoadStays(pr, path, w, w', t, u);
    }
  }

  lemma {:induction false} EditOwes(pr: Primitives, path: string, w: World, w': World, t: nat)
    requires pr.Lawful() && InOrder(pr, path, w) && Stepped(pr, w, w', t, true)
    requires t < |w.threads| && !w.threads[t].call.IsLifecycle() && Settled(w')
    ensures InSync(pr, path, w') || SomeoneOwes(w')
  {
    assert ThreadInOrder(pr, path, w, t);
    EditShape(pr, path, w, w', t);
    EditStaysInOrder(pr, path, w, w', t);
    if !w'.threads[t].dirty && !InSync(pr, path, w') {
      var u :| 0 <= u < |w.threads| && w.threads[u].dirty;
      assert w'.threads[u].dirty;
    }
  }

  // ---- Runs ----

  ghost predicate OrderlyRun(pr: Primitives, path: string, run: seq<World>, moves: seq<Move>)
    requires |run| == |moves| + 1
  {
    forall i :: 0 <= i < |moves| ==> Orderly(pr, path, run[i], moves[i])
  }

  lemma {:induction false} RunInOrder(pr: Primitives, path: string, run: seq<World>, moves: seq<Move>, n: nat)
    requires pr.Lawful() && IsRun(pr, run, moves) && Initial(run[0]) && OrderlyRun(pr, path, run, moves) && n < |run|
    ensures InOrder(pr, path, run[n])
  {
    if n == 0 {
    } else {
      RunInOrder(pr, path, run, moves, n - 1);
      assert StepAt(pr, run, moves, n - 1) && Orderly(pr, path, run[n - 1], moves[n - 1]);
      match moves[n - 1] {
        case Start(t, call) => StartInOrder(pr, path, run[n - 1], t, call);
        case Go(t, writable) => GoInOrder(pr, path, run[n - 1], t);
      }
    }
  }

  /**
    Quiescent durability: in every orderly run, but for a lifecycle call in its puts, the file opens to what
    is in memory or some call that changed it has its save still to come. So once all calls have returned,
    the file opens to what is in memory, under a password given in the run.
  */
  lemma {:induction false} QuiescentDurability(pr: Primitives, path: string, run: seq<World>, moves: seq<Move>)
    requires pr.Lawful() && IsRun(pr, run, moves) && Initial(run[0]) && OrderlyRun(pr, path, run, moves)
    ensures var end := run[|moves|];
            && (Settled(end) ==>
                  InSync(pr, path, end)
                  || exists t :: 0 <= t < |end.threads| && end.threads[t].dirty && OwesSave(path, end.threads[t].todo))
            && (Quiescent(end) ==> InSync(pr, path, end))
  {
    var end := run[|moves|];
    RunInOrder(pr, path, run, moves, |moves|);
    if SomeoneOwes(end) {
      var t :| 0 <= t < |end.threads| && end.threads[t].dirty;
      assert ThreadInOrder(pr, path, end, t);
    }
    if Quiescent(end) {
      assert forall t :: 0 <= t < |end.threads| ==> !LifecycleRuns(end, t);
    }
  }

  /** Only the end of a save writes. */
  lemma {:induction false} OnlySavesWrite(pr: Primitives, w: World, move: Move)
    requires Next(pr, w, move).Some? && Next(pr, w, move).value.disk != w.disk
    ensures var w', t := Next(pr, w, move).value, move.t;
            && move.Go? && t < |w.threads| && w.threads[t].todo != [] && w.threads[t].todo[0].Save?
            && w.mem.Some? && w.key.Some? && w'.mem == w.mem && w'.key == w.key && w'.given == w.given
            && var text := FileText(pr, w.mem.value, w.key.value, w.threads[t].todo[0].nonce);
               text.Ok? && w'.disk == w.disk[w.threads[t].todo[0].path := text.value]
  {
  }

  /** No other thread is in a create. */
  ghost predicate NoOtherCreate(w: World, t: nat) {
    forall u :: 0 <= u < |w.threads| && u != t && LifecycleRuns(w, u) ==> !w.threads[u].call.CreateVault?
  }

  /** A thread about to write finds state and key in agreement, unless another is in a create. */
  lemma {:induction false} SavesInOrder(pr: Primitives, path: string, w: World, t: nat)
    requires InOrder(pr, path, w) && w.mem.Some? && w.key.Some? && NoOtherCreate(w, t)
    requires t < |w.threads| && w.threads[t].todo != [] && w.threads[t].todo[0].Save?
    ensures IsSave(path, w.threads[t].todo[0]) && Agreed(pr, w)
  {
    assert ThreadInOrder(pr, path, w, t) && ThreadAgrees(pr, w, t);
    if !w.threads[t].call.IsLifecycle() && !Settled(w) {
      var u :| 0 <= u < |w.threads| && LifecycleRuns(w, u) && !w.threads[u].todo[0].ReadFile?;
      assert ThreadInOrder(pr, path, w, u) && ThreadAgrees(pr, w, u);
      assert Edits(w, t);
    }
  }

  /**
    No write is ever out of date: whenever the file of an orderly run changes, and no other thread is in a
    create, it opens from then on to the state that is in memory at that moment.
  */
  lemma {:induction false} WritesAreCurrent(
    pr: Primitives, path: string, run: seq<World>, moves: seq<Move>, i: nat)
    requires pr.Lawful() && IsRun(pr, run, moves) && Initial(run[0]) && OrderlyRun(pr, path, run, moves)
    requires i < |moves| && run[i + 1].disk != run[i].disk
    requires NoOtherCreate(run[i], moves[i].t)
    ensures run[i + 1].mem.Some? && InSync(pr, path, run[i + 1])
    ensures path in run[i + 1].disk && run[i + 1].disk == run[i].disk[path := run[i + 1].disk[path]]
  {
    RunInOrder(pr, path, run, moves, i);
    var w, t := run[i], moves[i].t;
    assert StepAt(pr, run, moves, i);
    OnlySavesWrite(pr, w, moves[i]);
    SavesInOrder(pr, path, w, t);
    SaveSyncs(pr, w.given, path, w.mem.value, w.key.value, w.threads[t].todo[0].nonce, w.disk);
  }

  // ---- The overlaps that are not orderly, and a write during a create ----

  /** A thread in an edit: its mutation done, its save to come. */
  function Owing(call: Call): Thread
    requires call.Edit?
  {
    Thread(Outside, [Save(call.path, call.nonce)], call, true)
  }

  lemma {:induction false} ReachesMutated(pr: Primitives, w: World, mid: World, t: nat, call: Call, d: VaultData)
    returns (after: World)
    requires Reaches(pr, w, mid) && Free(mid, t) && mid.threads[t].Idle()
    requires call.Edit? && call.op.WellFormed() && mid.mem.Some? && Apply(call.op, mid.mem.value.data) == Ok(d)
    ensures Reaches(pr, w, after)
    ensures after == With(mid, t, Owing(call)).(mem := Some(mid.mem.value.(data := d)))
  {
    var begun := ReachesBegun(pr, w, mid, t, call);
    ReachesSection(pr, w, begun, t, true);
    after := AfterSection(pr, begun, t, true);
    assert begun.threads[t].todo[1..] == [Save(call.path, call.nonce)] && mid.given + {} == mid.given;
  }

  lemma {:induction false} ReachesSaved(pr: Primitives, w: World, mid: World, t: nat, call: Call) returns (after: World)
    requires call.Edit? && Reaches(pr, w, mid) && Free(mid, t) && mid.threads[t] == Owing(call)
    requires mid.mem.Some? && mid.key.Some? && FileText(pr, mid.mem.value, mid.key.value, call.nonce).Ok?
    ensures Reaches(pr, w, after)
    ensures after == With(mid, t, Thread(Outside, [], call, false))
                       .(disk := mid.disk[call.path := FileText(pr, mid.mem.value, mid.key.value, call.nonce).value])
  {
    ReachesSection(pr, w, mid, t, true);
    after := AfterSection(pr, mid, t, true);
    assert mid.threads[t].todo[1..] == [];
  }

  /** Both puts of a load. */
  lemma {:induction false} ReachesLoaded(pr: Primitives, w: World, mid: World, t: nat, vs: VaultState, key: Key)
    returns (after: World)
    requires Reaches(pr, w, mid) && Free(mid, t) && mid.threads[t].todo == [PutState(vs), PutKey(key)]
    ensures Reaches(pr, w, after)
    ensures after == With(mid, t, mid.threads[t].(todo := [])).(mem := Some(vs), key := Some(key))
  {
    assert mid.threads[t].todo[1..] == [PutKey(key)] && [PutKey(key)][1..] == [];
    after := ReachesPut(pr, w, mid, t, [PutKey(key)]);
    after := ReachesPut(pr, w, after, t, []);
  }

  /** A load has read the file; an edit changes the data and saves; the load puts what it has read. */
  lemma {:induction false} ReachesStale(
    pr: Primitives, w: World, loaded: World, load: Call, edit: Call, d: VaultData) returns (end: World)
    requires pr.Lawful() && Reaches(pr, w, loaded) && Free(loaded, 0) && Free(loaded, 1)
    requires Quiescent(loaded) && load.UnlockVault? && edit.Edit? && load.path == edit.path
    requires |edit.nonce| == NONCE_SIZE && edit.op.WellFormed() && loaded.mem.Some? && loaded.key.Some?
    requires Installs(pr, loaded, load, loaded.mem.value, loaded.key.value)
    requires Apply(edit.op, loaded.mem.value.data) == Ok(d)
    ensures FileText(pr, loaded.mem.value.(data := d), loaded.key.value, edit.nonce).Ok?
    ensures Reaches(pr, w, end)
    ensures end.mem == loaded.mem && end.key == loaded.key
    ensures Quiescent(end)
    ensures end.disk
         == loaded.disk[edit.path := FileText(pr, loaded.mem.value.(data := d), loaded.key.value, edit.nonce).value]
  {
    var vs, key := loaded.mem.value, loaded.key.value;
    InstallsUnlocked(pr, loaded, load, vs, key);
    SavedFileOpens(pr, vs.(data := d), key, edit.nonce, load.password);
    var read := ReachesPuts(pr, w, loaded, 0, load, vs, key);
    assert [PutState(vs), PutKey(key)] + [] == [PutState(vs), PutKey(key)];
    var saved := ReachesEdited(pr, w, read, 1, edit, d);
    end := ReachesLoadEnd(pr, w, saved, vs, key);
  }

  lemma {:induction false} ReachesLoadEnd(
    pr: Primitives, w: World, mid: World, vs: VaultState, key: Key) returns (end: World)
    requires Reaches(pr, w, mid) && Free(mid, 0) && mid.threads[0].todo == [PutState(vs), PutKey(key)]
    requires forall u :: 1 <= u < |mid.threads| ==> mid.threads[u].Idle()
    ensures Reaches(pr, w, end) && Quiescent(end)
    ensures end.mem == Some(vs) && end.key == Some(key) && end.disk == mid.disk
  {
    end := ReachesLoaded(pr, w, mid, 0, vs, key);
  }

  /** A whole edit: its mutation and its save. */
  lemma {:induction false} ReachesEdited(pr: Primitives, w: World, mid: World, t: nat, call: Call, d: VaultData)
    returns (after: World)
    requires Reaches(pr, w, mid) && Free(mid, t) && mid.threads[t].Idle()
    requires call.Edit? && call.op.WellFormed() && mid.mem.Some? && Apply(call.op, mid.mem.value.data) == Ok(d)
    requires mid.key.Some? && FileText(pr, mid.mem.value.(data := d), mid.key.value, call.nonce).Ok?
    ensures Reaches(pr, w, after)
    ensures after == With(mid, t, Thread(Outside, [], call, false))
                       .(mem := Some(mid.mem.value.(data := d)),
                         disk := mid.disk[call.path :=
                           FileText(pr, mid.mem.value.(data := d), mid.key.value, call.nonce).value])
  {
    var mutated := ReachesMutated(pr, w, mid, t, call, d);
    after := ReachesSaved(pr, w, mutated, t, call);
  }

  /**
    Why loads must keep apart from edits: a load reads the file; an edit changes the data, saves and returns
    successfully; then the load puts what it has read. All calls have returned, and memory is older than the
    file: it lacks the edit, and the next save will take it out of the file as well.
  */
  lemma {:induction false} LoadAroundEditLosesIt(
    pr: Primitives, w: World, load: Call, edit: Call, vs: VaultState, key: Key, d: VaultData) returns (end: World)
    requires pr.Lawful() && Initial(w) && |w.threads| >= 2
    requires load.UnlockVault? && edit.Edit? && load.path == edit.path && |edit.nonce| == NONCE_SIZE
    requires Installs(pr, w, load, vs, key)
    requires edit.op.WellFormed() && Apply(edit.op, vs.data) == Ok(d) && Erase(d) != vs.data
    ensures Reaches(pr, w, end) && Quiescent(end) && end.mem == Some(vs) && end.key == Some(key)
    ensures edit.path in end.disk
    ensures OpenFile(pr, end.disk[edit.path], load.password) == Ok((Erased(vs.(data := d)), key))
    ensures !InSync(pr, edit.path, end)
  {
    InstallsUnlocked(pr, w, load, vs, key);
    OpenedIsUnlocked(pr, w.disk[load.path], load.password);
    var loaded := ReachesUnlocked(pr, w, load, vs, key);
    end := ReachesStale(pr, w, loaded, load, edit, d);
    OnlyItsOwn(pr, end.given, edit.path, vs, key, d, edit.nonce, end.disk);
    SavedFileOpens(pr, vs.(data := d), key, edit.nonce, load.password);
  }

  /** A load by the first thread of a locked vault. */
  lemma {:induction false} ReachesUnlocked(pr: Primitives, w: World, load: Call, vs: VaultState, key: Key)
    returns (loaded: World)
    requires Initial(w) && |w.threads| >= 2 && load.UnlockVault? && Installs(pr, w, load, vs, key)
    ensures Reaches(pr, w, loaded) && Free(loaded, 0) && Free(loaded, 1) && Quiescent(loaded)
    ensures loaded.mem == Some(vs) && loaded.key == Some(key) && loaded.disk == w.disk
  {
    assert w.threads[0].Idle() && w.threads[1].Idle();
    ReachesItself(pr, w);
    var read := ReachesPuts(pr, w, w, 0, load, vs, key);
    assert [PutState(vs), PutKey(key)] + [] == [PutState(vs), PutKey(key)];
    loaded := ReachesLoaded(pr, w, read, 0, vs, key);
  }

  /** The file of other data is not in step with this memory, under any password. */
  lemma {:induction false} OnlyItsOwn(
    pr: Primitives, given: set<string>, path: string, vs: VaultState, key: Key, d: VaultData, nonce: seq<byte>,
    disk: map<string, string>)
    requires pr.Lawful() && |nonce| == NONCE_SIZE && Erase(d) != Erase(vs.data)
    requires FileText(pr, vs.(data := d), key, nonce).Ok?
    requires path in disk && disk[path] == FileText(pr, vs.(data := d), key, nonce).value
    ensures !Synced(pr, given, path, Some(vs), Some(key), disk)
  {
    forall p | Unlocks(pr, p, vs, key)
      ensures !OpensTo(pr, disk[path], p, vs, key)
    {
      SavedFileOpens(pr, vs.(data := d), key, nonce, p);
    }
  }

  /**
    Why writes during a create are excepted: an edit that saves between the two puts of a create writes the
    new vault's state, encrypted under the old vault's key. Unless a password that passes the new hash
    happens to derive the old key from the new salt, none opens the file with the key it was written under,
    until the create has saved.
  */
  lemma {:induction false} SaveDuringCreateIsTorn(
    pr: Primitives, w: World, mid: World, create: Call, edit: Call, empty: VaultState, key: Key, d: VaultData)
    returns (end: World)
    requires pr.Lawful() && Reaches(pr, w, mid) && Free(mid, 0) && Free(mid, 1)
    requires mid.threads[0].Idle() && mid.threads[1].Idle() && mid.mem.Some? && mid.key.Some? && |mid.key.value| == KEY_SIZE
    requires create.CreateVault? && edit.Edit? && create.path == edit.path && Installs(pr, mid, create, empty, key)
    requires edit.op.WellFormed() && Apply(edit.op, mid.mem.value.data) == Ok(d)
    requires forall p :: pr.verify(p, empty.passwordHash) ==> pr.derive(p, empty.salt) != mid.key
    ensures Reaches(pr, w, end) && end.mem == Some(empty) && end.key == mid.key
    ensures |end.threads| == |mid.threads| && end.threads[1].Idle()
    ensures FileText(pr, empty, mid.key.value, edit.nonce).Ok?
    ensures end.disk == mid.disk[edit.path := FileText(pr, empty, mid.key.value, edit.nonce).value]
    ensures !InSync(pr, edit.path, end)
    ensures forall p :: OpenFile(pr, end.disk[edit.path], p).Ok? ==>
                          OpenFile(pr, end.disk[edit.path], p).value.1 != mid.key.value
  {
    var mutated := ReachesMutated(pr, w, mid, 1, edit, d);
    var open := ReachesPuts(pr, w, mutated, 0, create, empty, key);
    var rest := [PutKey(key)] + AfterPuts(create);
    assert open.threads[0].todo[1..] == rest;
    var half := ReachesPut(pr, w, open, 0, rest);
    end := ReachesSaved(pr, w, half, 1, edit);
    FileKeepsVault(pr, empty, mid.key.value, edit.nonce);
  }

  /** Whatever password opens a saved file passes its hash and derives the key from its salt. */
  lemma {:induction false} FileKeepsVault(pr: Primitives, vs: VaultState, key: Key, nonce: seq<byte>)
    requires pr.Lawful() && FileText(pr, vs, key, nonce).Ok?
    ensures forall p :: OpenFile(pr, FileText(pr, vs, key, nonce).value, p).Ok? ==>
                          && pr.verify(p, vs.passwordHash)
                          && pr.derive(p, vs.salt) == Some(OpenFile(pr, FileText(pr, vs, key, nonce).value, p).value.1)
  {
  }
}
