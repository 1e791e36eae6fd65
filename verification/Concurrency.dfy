/**
  Any number of threads calling the application's operations on the one global vault
  (rust/src/api/app.rs and the locking of rust/src/api/vault.rs). The two mutexes, `state` and
  `master_key`, are taken and released in single steps; between two steps any other thread may run.
*/
module Concurrency {
  import opened Collections
  import opened Models
  import opened VaultOps
  import opened VaultFile

  // ---- Calls and the locked sections they consist of ----

  /** One critical section, or one read of a file. */
  datatype Action =
    | Mutate(op: Op)                          // locks `state`
    | PeekState                               // locks `state`
    | PutState(vs: VaultState)                // locks `state`
    | ClearState                              // locks `state`
    | PutKey(key: Key)                        // locks `master_key`
    | ClearKey                                // locks `master_key`
    | PeekKey                                 // locks `master_key`
    | Save(path: string, nonce: seq<byte>)    // locks `state`, then `master_key`, and writes under both
    | ReadFile(path: string, password: string) // locks nothing
  {
    predicate NeedsState() {
      Mutate? || PeekState? || PutState? || ClearState? || Save?
    }

    predicate NeedsKey() {
      PutKey? || ClearKey? || PeekKey?
    }
  }

  datatype Call =
    | CreateVault(password: string, salt: string, path: string, nonce: seq<byte>)
    | UnlockVault(path: string, password: string)
    | LockVault
    | IsUnlocked
    | Read
    | Edit(op: Op, path: string, nonce: seq<byte>)
    | ImportXml(folders: seq<Folder>, connections: seq<Connection>, ids: seq<string>, path: string, nonce: seq<byte>)
  {
    /** The calls that replace or clear the whole state. */
    predicate IsLifecycle() {
      CreateVault? || UnlockVault? || LockVault?
    }

    predicate WellFormed() {
      && (Edit? ==> op.WellFormed())
      && (ImportXml? ==> |ids| == |connections|)
    }
  }

  /** The passwords a call is given. */
  function Passwords(call: Call): set<string> {
    if call.CreateVault? || call.UnlockVault? then {call.password} else {}
  }

  function Mutations(ops: seq<Op>): (actions: seq<Action>)
    ensures |actions| == |ops| && forall i :: 0 <= i < |ops| ==> actions[i] == Mutate(ops[i])
  {
    seq(|ops|, i requires 0 <= i < |ops| => Mutate(ops[i]))
  }

  /** The sections of a call, in order; a failing section drops those after it. */
  function Script(pr: Primitives, call: Call): seq<Action> {
    match call
    case CreateVault(password, salt, path, nonce) =>
      var passwordHash, key := pr.hash(password, salt), pr.derive(password, salt);
      if passwordHash.None? || key.None? then []
      else [PutState(VaultState(EMPTY_DATA, salt, passwordHash.value)), PutKey(key.value), Save(path, nonce)]
    case UnlockVault(path, password) => [ReadFile(path, password)]
    case LockVault => [ClearKey, ClearState]
    case IsUnlocked => [PeekKey]
    case Read => [PeekState]
    case Edit(op, path, nonce) => [Mutate(op), Save(path, nonce)]
    case ImportXml(folders, connections, ids, path, nonce) =>
      Mutations(ImportOps(folders, connections, ids)) + [Save(path, nonce)]
  }

  // ---- The world and its steps ----

  datatype Phase = Outside | HasState | HasKey | HasBoth

  /**
    `todo` is what is left of the script of `call`. `dirty` is a history variable: the call has changed the
    state and is still to save.
  */
  datatype Thread = Thread(phase: Phase, todo: seq<Action>, call: Call, dirty: bool) {
    predicate Idle() {
      todo == []
    }

    function Done(): Thread {
      this.(phase := Outside, todo := if todo == [] then [] else todo[1..])
    }

    function Aborted(): Thread {
      this.(phase := Outside, todo := [], dirty := false)
    }
  }

  /** `given` is a history variable: the passwords given so far. */
  datatype World = World(
    mem: Option<VaultState>,
    key: Option<Key>,
    disk: map<string, string>,
    stateLock: Option<nat>,
    keyLock: Option<nat>,
    threads: seq<Thread>,
    given: set<string>)

  /** `Start` begins a call on an idle thread; `Go` lets a thread take one step, `writable` for a file write. */
  datatype Move = Start(t: nat, call: Call) | Go(t: nat, writable: bool)

  /** The world after thread `t` has become `th`. */
  function With(w: World, t: nat, th: Thread): World
    requires t < |w.threads|
  {
    w.(threads := w.threads[t := th])
  }

  /** One step; `None` when it is not enabled. */
  function Next(pr: Primitives, w: World, move: Move): Option<World> {
    if move.t >= |w.threads| then None
    else
      var th := w.threads[move.t];
      match move
      case Start(t, call) =>
        if !th.Idle() || !call.WellFormed() then None
        else Some(With(w, t, Thread(Outside, Script(pr, call), call, false)).(given := w.given + Passwords(call)))
      case Go(t, writable) =>
        if th.Idle() then None
        else
          match th.phase
          case Outside => Enter(pr, w, t)
          case HasState => InState(pr, w, t)
          case HasKey => InKey(w, t)
          case HasBoth => InBoth(pr, w, t, writable)
  }

  /** Taking the first lock of a section, or reading a file. */
  function Enter(pr: Primitives, w: World, t: nat): Option<World>
    requires t < |w.threads| && !w.threads[t].Idle()
  {
    var th := w.threads[t];
    var action := th.todo[0];
    if action.NeedsState() then
      if w.stateLock.Some? then None
      else Some(With(w, t, th.(phase := HasState)).(stateLock := Some(t)))
    else if action.NeedsKey() then
      if w.keyLock.Some? then None
      else Some(With(w, t, th.(phase := HasKey)).(keyLock := Some(t)))
    else
      var content := if action.path in w.disk then OpenFile(pr, w.disk[action.path], action.password) else Err(ReadFailed);
      match content
      case Err(_) => Some(With(w, t, th.Aborted()))
      case Ok((vs, key)) => Some(With(w, t, th.(todo := [PutState(vs), PutKey(key)] + th.todo[1..])))
  }

  /** The section under `state`; saving goes on to take `master_key`. */
  function InState(pr: Primitives, w: World, t: nat): Option<World>
    requires t < |w.threads| && !w.threads[t].Idle()
  {
    var th := w.threads[t];
    var free := w.(stateLock := None);
    match th.todo[0]
    case Mutate(op) =>
      if !op.WellFormed() || w.mem.None? then Some(With(free, t, th.Aborted()))
      else
        (match Apply(op, w.mem.value.data)
         case Err(_) => Some(With(free, t, th.Aborted()))
         case Ok(d) => Some(With(free, t, th.Done().(dirty := true)).(mem := Some(w.mem.value.(data := d)))))
    case PutState(vs) => Some(With(free, t, th.Done()).(mem := Some(vs)))
    case ClearState => Some(With(free, t, th.Done()).(mem := None))
    case Save(_, _) =>
      if w.mem.None? then Some(With(free, t, th.Aborted()))
      else if w.keyLock.Some? then None
      else Some(With(w, t, th.(phase := HasBoth)).(keyLock := Some(t)))
    case _ => Some(With(free, t, th.Done()))
  }

  function InKey(w: World, t: nat): Option<World>
    requires t < |w.threads| && !w.threads[t].Idle()
  {
    var th := w.threads[t];
    var free := With(w, t, th.Done()).(keyLock := None);
    match th.todo[0]
    case PutKey(key) => Some(free.(key := Some(key)))
    case ClearKey => Some(free.(key := None))
    case _ => Some(free)
  }

  /** The write under both locks; both are released at its end, however it ends. */
  function InBoth(pr: Primitives, w: World, t: nat, writable: bool): Option<World>
    requires t < |w.threads| && !w.threads[t].Idle()
  {
    var th := w.threads[t];
    var free := w.(stateLock := None, keyLock := None);
    var failed := Some(With(free, t, th.Aborted()));
    if !th.todo[0].Save? || w.mem.None? || w.key.None? || !writable then failed
    else
      match FileText(pr, w.mem.value, w.key.value, th.todo[0].nonce)
      case Err(_) => failed
      case Ok(text) => Some(With(free, t, th.Done().(dirty := false)).(disk := w.disk[th.todo[0].path := text]))
  }

  /** The worlds before and after every step of a run. */
  ghost predicate IsRun(pr: Primitives, run: seq<World>, moves: seq<Move>) {
    |run| == |moves| + 1 && forall i :: 0 <= i < |moves| ==> StepAt(pr, run, moves, i)
  }

  ghost predicate StepAt(pr: Primitives, run: seq<World>, moves: seq<Move>, i: nat)
    requires |run| == |moves| + 1 && i < |moves|
  {
    Next(pr, run[i], moves[i]) == Some(run[i + 1])
  }

  /** A locked vault, any files, any number of idle threads. */
  ghost predicate Initial(w: World) {
    && w.mem == None && w.key == None && w.stateLock == None && w.keyLock == None && w.given == {}
    && forall t :: 0 <= t < |w.threads| ==> w.threads[t] == Thread(Outside, [], IsUnlocked, false)
  }

  ghost predicate Quiescent(w: World) {
    forall t :: 0 <= t < |w.threads| ==> w.threads[t].Idle()
  }

  // ---- Locks ----

  /** What a thread's phase says about the locks and about its current section. */
  ghost predicate ThreadLocks(w: World, t: nat)
    requires t < |w.threads|
  {
    var th := w.threads[t];
    && (w.stateLock == Some(t) <==> th.phase.HasState? || th.phase.HasBoth?)
    && (w.keyLock == Some(t) <==> th.phase.HasKey? || th.phase.HasBoth?)
    && (th.phase.HasState? ==> th.todo != [] && th.todo[0].NeedsState())
    && (th.phase.HasKey? ==> th.todo != [] && th.todo[0].NeedsKey())
    && (th.phase.HasBoth? ==> th.todo != [] && th.todo[0].Save?)
  }

  ghost predicate LocksHeld(w: World) {
    && (w.stateLock.Some? ==> w.stateLock.value < |w.threads|)
    && (w.keyLock.Some? ==> w.keyLock.value < |w.threads|)
    && forall t :: 0 <= t < |w.threads| ==> ThreadLocks(w, t)
  }

  /** A step of one thread changes no lock that another holds. */
  lemma {:induction false} StepKeepsLocks(pr: Primitives, w: World, move: Move)
    requires LocksHeld(w) && Next(pr, w, move).Some?
    ensures LocksHeld(Next(pr, w, move).value)
  {
    var w' := Next(pr, w, move).value;
    assert ThreadLocks(w, move.t);
    StepKeepsOwnLocks(pr, w, move);
    forall t | 0 <= t < |w'.threads| && t != move.t
      ensures ThreadLocks(w', t)
    {
      assert ThreadLocks(w, t);
    }
  }

  /** Thread `t` keeps its own account of the locks right and touches no lock that another holds. */
  ghost predicate OwnLocksOnly(w: World, w': World, t: nat)
    requires t < |w.threads|
  {
    && |w'.threads| == |w.threads| && ThreadLocks(w', t)
    && (forall u :: 0 <= u < |w.threads| && u != t ==> w'.threads[u] == w.threads[u])
    && (w'.stateLock != w.stateLock ==> w.stateLock in {None, Some(t)} && w'.stateLock in {None, Some(t)})
    && (w'.keyLock != w.keyLock ==> w.keyLock in {None, Some(t)} && w'.keyLock in {None, Some(t)})
  }

  lemma {:induction false} StepKeepsOwnLocks(pr: Primitives, w: World, move: Move)
    requires Next(pr, w, move).Some? && ThreadLocks(w, move.t)
    ensures OwnLocksOnly(w, Next(pr, w, move).value, move.t)
  {
    if move.Go? {
      match w.threads[move.t].phase
      case Outside =>
      case HasState => InStateKeepsOwnLocks(pr, w, move.t);
      case HasKey =>
      case HasBoth =>
    }
  }

  lemma {:induction false} InStateKeepsOwnLocks(pr: Primitives, w: World, t: nat)
    requires t < |w.threads| && !w.threads[t].Idle() && w.threads[t].phase.HasState? && ThreadLocks(w, t)
    requires InState(pr, w, t).Some?
    ensures OwnLocksOnly(w, InState(pr, w, t).value, t)
  {
  }

  /** Thread `t` wants a lock that thread `u` holds. */
  ghost predicate WaitsFor(w: World, t: nat, u: nat)
    requires t < |w.threads| && u < |w.threads| && !w.threads[t].Idle()
  {
    var th, other := w.threads[t], w.threads[u].phase;
    var inState, inKey := other.HasState? || other.HasBoth?, other.HasKey? || other.HasBoth?;
    || (th.phase.Outside? && th.todo[0].NeedsState() && inState)
    || (th.phase.Outside? && th.todo[0].NeedsKey() && inKey)
    || (th.phase.HasState? && th.todo[0].Save? && w.mem.Some? && inKey)
  }

  /** A thread with something to do is held up only by a lock, and only while another thread holds that lock. */
  lemma {:induction false} OnlyLocksHoldUp(pr: Primitives, w: World, t: nat, writable: bool)
    requires LocksHeld(w) && t < |w.threads| && !w.threads[t].Idle()
    ensures Next(pr, w, Go(t, writable)).None? <==> exists u :: 0 <= u < |w.threads| && u != t && WaitsFor(w, t, u)
  {
    assert ThreadLocks(w, t);
    if w.stateLock.Some? {
      assert ThreadLocks(w, w.stateLock.value);
    }
    if w.keyLock.Some? {
      assert ThreadLocks(w, w.keyLock.value);
    }
    if u :| 0 <= u < |w.threads| && u != t && WaitsFor(w, t, u) {
      assert ThreadLocks(w, u);
    }
    if Next(pr, w, Go(t, writable)).None? {
      var u := if w.threads[t].phase.Outside? && w.threads[t].todo[0].NeedsState() then w.stateLock.value
               else w.keyLock.value;
      assert WaitsFor(w, t, u);
    }
  }

  /** Some thread that has not finished its call can take a step. */
  ghost predicate CanStep(pr: Primitives, w: World) {
    exists t :: 0 <= t < |w.threads| && Next(pr, w, Go(t, true)).Some?
  }

  /** The only nested acquisition is `state` then `master_key`, so there is always a thread that can go on. */
  lemma {:induction false} NoDeadlock(pr: Primitives, w: World)
    requires LocksHeld(w) && !Quiescent(w)
    ensures CanStep(pr, w)
  {
    if w.keyLock.Some? {
      var t := w.keyLock.value;
      assert ThreadLocks(w, t);
      assert Next(pr, w, Go(t, true)).Some?;
    } else if w.stateLock.Some? {
      var t := w.stateLock.value;
      assert ThreadLocks(w, t);
      assert Next(pr, w, Go(t, true)).Some?;
    } else {
      var t :| 0 <= t < |w.threads| && !w.threads[t].Idle();
      assert ThreadLocks(w, t);
      assert Next(pr, w, Go(t, true)).Some?;
    }
  }

  lemma {:induction false} RunKeepsLocks(pr: Primitives, run: seq<World>, moves: seq<Move>, n: nat)
    requires IsRun(pr, run, moves) && LocksHeld(run[0]) && n < |run|
    ensures LocksHeld(run[n])
  {
    if n > 0 {
      RunKeepsLocks(pr, run, moves, n - 1);
      assert StepAt(pr, run, moves, n - 1);
      StepKeepsLocks(pr, run[n - 1], moves[n - 1]);
    }
  }

  /** Deadlock freedom: wherever a run has got to, some unfinished call can step, or all calls are finished. */
  lemma {:induction false} RunsNeverDeadlock(pr: Primitives, run: seq<World>, moves: seq<Move>)
    requires IsRun(pr, run, moves) && Initial(run[0])
    ensures Quiescent(run[|moves|]) || CanStep(pr, run[|moves|])
  {
    RunKeepsLocks(pr, run, moves, |moves|);
    if !Quiescent(run[|moves|]) {
      NoDeadlock(pr, run[|moves|]);
    }
  }

  // ---- Every call ends ----

  /** How many steps an action takes at most; reading a file puts two sections in its own place. */
  function Cost(a: Action): nat {
    if a.Save? then 3 else if a.ReadFile? then 5 else 2
  }

  function TotalCost(todo: seq<Action>): nat {
    if todo == [] then 0 else Cost(todo[0]) + TotalCost(todo[1..])
  }

  function Spent(phase: Phase): nat {
    match phase
    case Outside => 0
    case HasState => 1
    case HasKey => 1
    case HasBoth => 2
  }

  function WorkOf(th: Thread): int {
    TotalCost(th.todo) - Spent(th.phase)
  }

  function Work(threads: seq<Thread>): int {
    if threads == [] then 0 else WorkOf(threads[0]) + Work(threads[1..])
  }

  lemma {:induction false} WorkUpdate(threads: seq<Thread>, t: nat, th: Thread)
    requires t < |threads|
    ensures Work(threads[t := th]) == Work(threads) - WorkOf(threads[t]) + WorkOf(th)
  {
    if t == 0 {
      assert threads[0 := th][1..] == threads[1..];
    } else {
      assert threads[t := th][1..] == threads[1..][t - 1 := th];
      WorkUpdate(threads[1..], t - 1, th);
    }
  }

  lemma {:induction false} WorkIsNatural(w: World, n: nat)
    requires LocksHeld(w) && n <= |w.threads|
    ensures Work(w.threads[n..]) >= 0
    decreases |w.threads| - n
  {
    if n < |w.threads| {
      assert ThreadLocks(w, n);
      assert w.threads[n..][1..] == w.threads[n + 1..];
      WorkIsNatural(w, n + 1);
    }
  }

  lemma {:induction false} FirstCost(todo: seq<Action>)
    requires todo != []
    ensures TotalCost(todo) == Cost(todo[0]) + TotalCost(todo[1..])
  {
  }

  lemma {:induction false} ThreadSpendsWork(pr: Primitives, w: World, t: nat, writable: bool)
    requires Next(pr, w, Go(t, writable)).Some? && ThreadLocks(w, t)
    ensures WorkOf(Next(pr, w, Go(t, writable)).value.threads[t]) < WorkOf(w.threads[t])
  {
    FirstCost(w.threads[t].todo);
    match w.threads[t].phase
    case Outside => EnterSpendsWork(pr, w, t);
    case HasState => InStateSpendsWork(pr, w, t);
    case HasKey =>
    case HasBoth =>
  }

  lemma {:induction false} EnterSpendsWork(pr: Primitives, w: World, t: nat)
    requires t < |w.threads| && !w.threads[t].Idle() && w.threads[t].phase.Outside?
    requires Enter(pr, w, t).Some?
    ensures WorkOf(Enter(pr, w, t).value.threads[t]) < WorkOf(w.threads[t])
  {
    var th, th' := w.threads[t], Enter(pr, w, t).value.threads[t];
    FirstCost(th.todo);
    if th.todo[0].ReadFile? && th'.todo != [] {
      FirstCost(th'.todo);
      FirstCost(th'.todo[1..]);
      assert th'.todo[1..][1..] == th.todo[1..];
    }
  }

  lemma {:induction false} InStateSpendsWork(pr: Primitives, w: World, t: nat)
    requires t < |w.threads| && !w.threads[t].Idle() && w.threads[t].phase.HasState?
    requires InState(pr, w, t).Some?
    ensures WorkOf(InState(pr, w, t).value.threads[t]) < WorkOf(w.threads[t])
  {
    FirstCost(w.threads[t].todo);
  }

  lemma {:induction false} StepSpendsWork(pr: Primitives, w: World, t: nat, writable: bool)
    requires LocksHeld(w) && Next(pr, w, Go(t, writable)).Some?
    ensures Work(Next(pr, w, Go(t, writable)).value.threads) < Work(w.threads)
  {
    var w' := Next(pr, w, Go(t, writable)).value;
    assert ThreadLocks(w, t);
    StepKeepsOwnLocks(pr, w, Go(t, writable));
    ThreadSpendsWork(pr, w, t, writable);
    assert w'.threads == w.threads[t := w'.threads[t]];
    WorkUpdate(w.threads, t, w'.threads[t]);
  }

  /** Once no more calls begin, every schedule of the running ones ends, within as many steps as work is left. */
  lemma {:induction false} RunsEnd(pr: Primitives, run: seq<World>, moves: seq<Move>)
    requires IsRun(pr, run, moves) && LocksHeld(run[0])
    requires forall i :: 0 <= i < |moves| ==> moves[i].Go?
    ensures |moves| <= Work(run[0].threads)
  {
    StepsSpendWork(pr, run, moves, |moves|);
    RunKeepsLocks(pr, run, moves, |moves|);
    WorkIsNatural(run[|moves|], 0);
    assert run[|moves|].threads[0..] == run[|moves|].threads;
  }

  lemma {:induction false} StepsSpendWork(pr: Primitives, run: seq<World>, moves: seq<Move>, n: nat)
    requires IsRun(pr, run, moves) && LocksHeld(run[0]) && n <= |moves|
    requires forall i :: 0 <= i < |moves| ==> moves[i].Go?
    ensures n + Work(run[n].threads) <= Work(run[0].threads)
  {
    if n > 0 {
      StepsSpendWork(pr, run, moves, n - 1);
      RunKeepsLocks(pr, run, moves, n - 1);
      assert StepAt(pr, run, moves, n - 1);
      StepSpendsWork(pr, run[n - 1], moves[n - 1].t, moves[n - 1].writable);
    }
  }
}
