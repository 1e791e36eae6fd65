/**
  A thread whose sections no other interrupts: what each section then does as a whole, and that the single
  steps of `Concurrency` lead there.
*/
module Solo {
  import opened Collections
  import opened Models
  import opened VaultOps
  import opened VaultFile
  import opened Concurrency

  /** What calls work on. */
  datatype Store = Store(mem: Option<VaultState>, key: Option<Key>, disk: map<string, string>)

  function StoreOf(w: World): Store {
    Store(w.mem, w.key, w.disk)
  }

  /** What a section does to the store, and the sections in its place; `None` if the call ends with it. */
  function Section(pr: Primitives, s: Store, action: Action, writable: bool): (Store, Option<seq<Action>>) {
    match action
    case Mutate(op) =>
      if !op.WellFormed() || s.mem.None? then (s, None)
      else
        (match Apply(op, s.mem.value.data)
         case Err(_) => (s, None)
         case Ok(d) => (s.(mem := Some(s.mem.value.(data := d))), Some([])))
    case PutState(vs) => (s.(mem := Some(vs)), Some([]))
    case ClearState => (s.(mem := None), Some([]))
    case PutKey(key) => (s.(key := Some(key)), Some([]))
    case ClearKey => (s.(key := None), Some([]))
    case Save(path, nonce) =>
      if s.mem.None? || s.key.None? || !writable then (s, None)
      else
        (match FileText(pr, s.mem.value, s.key.value, nonce)
         case Err(_) => (s, None)
         case Ok(text) => (s.(disk := s.disk[path := text]), Some([])))
    case ReadFile(path, password) =>
      (match (if path in s.disk then OpenFile(pr, s.disk[path], password) else Err(ReadFailed))
       case Err(_) => (s, None)
       case Ok((vs, key)) => (s, Some([PutState(vs), PutKey(key)])))
    case _ => (s, Some([]))
  }

  /** The next section of thread `t` as a whole. */
  function AfterSection(pr: Primitives, w: World, t: nat, writable: bool): World
    requires t < |w.threads| && !w.threads[t].Idle()
  {
    var th := w.threads[t];
    var (s, more) := Section(pr, StoreOf(w), th.todo[0], writable);
    With(w, t, ThreadAfter(th, more)).(mem := s.mem, key := s.key, disk := s.disk)
  }

  function ThreadAfter(th: Thread, more: Option<seq<Action>>): Thread
    requires !th.Idle()
  {
    if more.None? then th.Aborted()
    else
      var dirty := if th.todo[0].Mutate? then true else if th.todo[0].Save? then false else th.dirty;
      if more.value == [] then th.Done().(dirty := dirty)
      else th.(phase := Outside, todo := more.value + th.todo[1..], dirty := dirty)
  }

  /** A step inside a section moves the locks only. */
  ghost predicate Silent(w: World, w': World, t: nat)
    requires t < |w.threads| == |w'.threads|
  {
    StoreOf(w') == StoreOf(w) && w'.threads[t] == w.threads[t].(phase := w'.threads[t].phase)
  }

  /** The last step of a section does all that it does. */
  ghost predicate Completes(pr: Primitives, w: World, w': World, t: nat, writable: bool)
    requires t < |w.threads| == |w'.threads| && !w.threads[t].Idle()
  {
    var (s, more) := Section(pr, StoreOf(w), w.threads[t].todo[0], writable);
    StoreOf(w') == s && w'.threads[t] == ThreadAfter(w.threads[t], more)
  }

  /** What a step of thread `t` comes to. */
  ghost predicate Stepped(pr: Primitives, w: World, w': World, t: nat, writable: bool) {
    && t < |w.threads| == |w'.threads| && !w.threads[t].Idle()
    && (forall u :: 0 <= u < |w.threads| && u != t ==> w'.threads[u] == w.threads[u])
    && w'.given == w.given
    && (Silent(w, w', t) || Completes(pr, w, w', t, writable))
  }

  /** Every step is one or the other. */
  lemma {:induction false} StepIsSection(pr: Primitives, w: World, t: nat, writable: bool)
    requires LocksHeld(w) && Next(pr, w, Go(t, writable)).Some?
    ensures Stepped(pr, w, Next(pr, w, Go(t, writable)).value, t, writable)
  {
    assert ThreadLocks(w, t);
    match w.threads[t].phase
    case Outside => EnterIsSilent(pr, w, t);
    case HasState => InStateIsSection(pr, w, t, writable);
    case HasKey =>
    case HasBoth =>
  }

  lemma {:induction false} EnterIsSilent(pr: Primitives, w: World, t: nat)
    requires t < |w.threads| && !w.threads[t].Idle() && w.threads[t].phase.Outside?
    requires Enter(pr, w, t).Some?
    ensures forall writable :: Stepped(pr, w, Enter(pr, w, t).value, t, writable)
  {
  }

  lemma {:induction false} InStateIsSection(pr: Primitives, w: World, t: nat, writable: bool)
    requires t < |w.threads| && !w.threads[t].Idle() && w.threads[t].todo[0].NeedsState()
    requires InState(pr, w, t).Some?
    ensures Stepped(pr, w, InState(pr, w, t).value, t, writable)
  {
  }

  /** Some moves lead from the one world to the other. */
  ghost predicate Reaches(pr: Primitives, w: World, end: World) {
    exists moves :: Exec(pr, w, moves) == Some(end)
  }

  /** The world after a list of moves, when all of them are enabled. */
  function Exec(pr: Primitives, w: World, moves: seq<Move>): Option<World> {
    if moves == [] then Some(w)
    else
      var before :- Exec(pr, w, moves[..|moves| - 1]);
      Next(pr, before, Last(moves))
  }

  lemma {:induction false} ReachesItself(pr: Primitives, w: World)
    ensures Reaches(pr, w, w)
  {
    assert Exec(pr, w, []) == Some(w);
  }

  lemma {:induction false} ReachesNext(pr: Primitives, w: World, mid: World, move: Move)
    requires Reaches(pr, w, mid) && Next(pr, mid, move).Some?
    ensures Reaches(pr, w, Next(pr, mid, move).value)
  {
    var moves :| Exec(pr, w, moves) == Some(mid);
    ExecOneMore(pr, w, moves, move);
  }

  lemma {:induction false} ExecOneMore(pr: Primitives, w: World, moves: seq<Move>, move: Move)
    requires Exec(pr, w, moves).Some?
    ensures Exec(pr, w, moves + [move]) == Next(pr, Exec(pr, w, moves).value, move)
  {
    assert (moves + [move])[..|moves + [move]| - 1] == moves && Last(moves + [move]) == move;
  }

  /** What is reached is the end of a run. */
  lemma {:induction false} ReachesByRun(pr: Primitives, w: World, moves: seq<Move>) returns (run: seq<World>)
    requires Exec(pr, w, moves).Some?
    ensures IsRun(pr, run, moves) && run[0] == w && run[|moves|] == Exec(pr, w, moves).value
  {
    if moves == [] {
      run := [w];
    } else {
      var fewer := moves[..|moves| - 1];
      var before := ReachesByRun(pr, w, fewer);
      run := before + [Exec(pr, w, moves).value];
      RunOneMore(pr, before, fewer, Last(moves), Exec(pr, w, moves).value);
      assert moves == fewer + [Last(moves)];
    }
  }

  lemma {:induction false} RunOneMore(pr: Primitives, run: seq<World>, moves: seq<Move>, move: Move, end: World)
    requires IsRun(pr, run, moves) && Next(pr, run[|moves|], move) == Some(end)
    ensures IsRun(pr, run + [end], moves + [move])
  {
    forall i | 0 <= i < |moves + [move]|
      ensures StepAt(pr, run + [end], moves + [move], i)
    {
      assert i < |moves| ==> StepAt(pr, run, moves, i);
    }
  }

  /** No one holds a lock, and thread `t` is between two sections. */
  ghost predicate Free(w: World, t: nat) {
    w.stateLock == None && w.keyLock == None && t < |w.threads| && w.threads[t].phase.Outside?
  }

  /** The single steps of a section lead to its end. */
  lemma {:induction false} ReachesSection(pr: Primitives, w: World, mid: World, t: nat, writable: bool)
    requires Reaches(pr, w, mid) && Free(mid, t) && !mid.threads[t].Idle()
    ensures Reaches(pr, w, AfterSection(pr, mid, t, writable))
    ensures Free(AfterSection(pr, mid, t, writable), t)
  {
    ReachesNext(pr, w, mid, Go(t, writable));
    var action := mid.threads[t].todo[0];
    if action.NeedsState() {
      StateSection(pr, w, mid, t, writable);
    } else if action.NeedsKey() {
      KeySection(pr, w, mid, t, writable);
    }
  }

  lemma {:induction false} StateSection(pr: Primitives, w: World, mid: World, t: nat, writable: bool)
    requires Free(mid, t) && !mid.threads[t].Idle() && mid.threads[t].todo[0].NeedsState()
    requires Next(pr, mid, Go(t, writable)).Some? && Reaches(pr, w, Next(pr, mid, Go(t, writable)).value)
    ensures Reaches(pr, w, AfterSection(pr, mid, t, writable))
  {
    var th := mid.threads[t];
    var inside := With(mid, t, th.(phase := HasState)).(stateLock := Some(t));
    assert Next(pr, mid, Go(t, writable)).value == inside;
    if th.todo[0].Save? && mid.mem.Some? {
      SaveSection(pr, w, mid, inside, t, writable);
    } else {
      UnderState(pr, mid, inside, t, writable);
      ReachesNext(pr, w, inside, Go(t, writable));
    }
  }

  /** A section that ends under `state`. */
  lemma {:induction false} UnderState(pr: Primitives, mid: World, inside: World, t: nat, writable: bool)
    requires Free(mid, t) && !mid.threads[t].Idle() && mid.threads[t].todo[0].NeedsState()
    requires inside == With(mid, t, mid.threads[t].(phase := HasState)).(stateLock := Some(t))
    requires mid.threads[t].todo[0].Save? ==> mid.mem.None?
    ensures Next(pr, inside, Go(t, writable)) == Some(AfterSection(pr, mid, t, writable))
  {
    var th := mid.threads[t];
    assert inside.threads[t := th.Done()] == mid.threads[t := th.Done()];
    assert inside.threads[t := th.Aborted()] == mid.threads[t := th.Aborted()];
    assert inside.threads[t := th.Done().(dirty := true)] == mid.threads[t := th.Done().(dirty := true)];
  }

  lemma {:induction false} SaveSection(pr: Primitives, w: World, mid: World, inside: World, t: nat, writable: bool)
    requires Free(mid, t) && !mid.threads[t].Idle() && mid.threads[t].todo[0].Save? && mid.mem.Some?
    requires inside == With(mid, t, mid.threads[t].(phase := HasState)).(stateLock := Some(t))
    requires Reaches(pr, w, inside)
    ensures Reaches(pr, w, AfterSection(pr, mid, t, writable))
  {
    var th := mid.threads[t];
    var both := With(mid, t, th.(phase := HasBoth)).(stateLock := Some(t), keyLock := Some(t));
    assert inside.threads[t := th.(phase := HasBoth)] == mid.threads[t := th.(phase := HasBoth)];
    assert Next(pr, inside, Go(t, writable)) == Some(both);
    ReachesNext(pr, w, inside, Go(t, writable));
    UnderBoth(pr, mid, both, t, writable);
    ReachesNext(pr, w, both, Go(t, writable));
  }

  /** The write under both locks. */
  lemma {:induction false} UnderBoth(pr: Primitives, mid: World, both: World, t: nat, writable: bool)
    requires Free(mid, t) && !mid.threads[t].Idle() && mid.threads[t].todo[0].Save? && mid.mem.Some?
    requires both == With(mid, t, mid.threads[t].(phase := HasBoth)).(stateLock := Some(t), keyLock := Some(t))
    ensures Next(pr, both, Go(t, writable)) == Some(AfterSection(pr, mid, t, writable))
  {
    var th := mid.threads[t];
    assert both.threads[t := th.Aborted()] == mid.threads[t := th.Aborted()];
    assert both.threads[t := th.Done().(dirty := false)] == mid.threads[t := th.Done().(dirty := false)];
  }

  lemma {:induction false} KeySection(pr: Primitives, w: World, mid: World, t: nat, writable: bool)
    requires Free(mid, t) && !mid.threads[t].Idle() && mid.threads[t].todo[0].NeedsKey()
    requires Next(pr, mid, Go(t, writable)).Some? && Reaches(pr, w, Next(pr, mid, Go(t, writable)).value)
    ensures Reaches(pr, w, AfterSection(pr, mid, t, writable))
  {
    var th := mid.threads[t];
    var inside := With(mid, t, th.(phase := HasKey)).(keyLock := Some(t));
    ReachesNext(pr, w, inside, Go(t, writable));
    assert inside.threads[t := th.Done()] == mid.threads[t := th.Done()];
    assert Next(pr, inside, Go(t, writable)).value == AfterSection(pr, mid, t, writable);
  }

  /** A call begins. */
  lemma {:induction false} ReachesBegun(pr: Primitives, w: World, mid: World, t: nat, call: Call) returns (begun: World)
    requires Reaches(pr, w, mid) && Free(mid, t) && mid.threads[t].Idle() && call.WellFormed()
    ensures Reaches(pr, w, begun)
    ensures begun == With(mid, t, Thread(Outside, Script(pr, call), call, false)).(given := mid.given + Passwords(call))
  {
    ReachesNext(pr, w, mid, Start(t, call));
    begun := Next(pr, mid, Start(t, call)).value;
  }

  // ---- Whole calls ----

  /** The sections of `todo`, one after the other, and no other thread's between them. */
  function Do(pr: Primitives, s: Store, todo: seq<Action>, writable: bool): Store
    decreases TotalCost(todo)
  {
    if todo == [] then s
    else
      var (after, more) := Section(pr, s, todo[0], writable);
      if more.None? then after
      else
        SectionCosts(pr, s, todo, writable);
        Do(pr, after, more.value + todo[1..], writable)
  }

  lemma {:induction false} SectionCosts(pr: Primitives, s: Store, todo: seq<Action>, writable: bool)
    requires todo != []
    ensures var more := Section(pr, s, todo[0], writable).1;
            more.Some? ==> TotalCost(more.value + todo[1..]) < TotalCost(todo)
  {
    FirstCost(todo);
    var more := Section(pr, s, todo[0], writable).1;
    if more == Some([]) {
      assert more.value + todo[1..] == todo[1..];
    } else if more.Some? {
      FirstCost(more.value + todo[1..]);
      FirstCost((more.value + todo[1..])[1..]);
      assert (more.value + todo[1..])[1..][1..] == todo[1..];
    }
  }

  lemma {:induction false} DoFirst(pr: Primitives, s: Store, action: Action, rest: seq<Action>, writable: bool)
    ensures var (after, more) := Section(pr, s, action, writable);
            Do(pr, s, [action] + rest, writable) == if more.None? then after else Do(pr, after, more.value + rest, writable)
  {
    assert ([action] + rest)[1..] == rest;
  }

  lemma {:induction false} SectionIsAfter(pr: Primitives, w: World, t: nat, writable: bool)
    requires t < |w.threads| && !w.threads[t].Idle()
    ensures var (after, more) := Section(pr, StoreOf(w), w.threads[t].todo[0], writable);
            var w' := AfterSection(pr, w, t, writable);
            && StoreOf(w') == after && |w'.threads| == |w.threads|
            && w'.threads[t].todo == if more.None? then [] else more.value + w.threads[t].todo[1..]
  {
  }

  /** The steps of a thread that no other interrupts lead where its sections do. */
  lemma {:induction false} ReachesDone(
    pr: Primitives, w: World, mid: World, t: nat, writable: bool) returns (end: World)
    requires Reaches(pr, w, mid) && Free(mid, t)
    ensures Reaches(pr, w, end) && Free(end, t) && end.threads[t].Idle()
    ensures StoreOf(end) == Do(pr, StoreOf(mid), mid.threads[t].todo, writable)
    decreases TotalCost(mid.threads[t].todo)
  {
    end := mid;
    if !mid.threads[t].Idle() {
      var todo, next := mid.threads[t].todo, AfterSection(pr, mid, t, writable);
      ReachesSection(pr, w, mid, t, writable);
      SectionIsAfter(pr, mid, t, writable);
      SectionCosts(pr, StoreOf(mid), todo, writable);
      assert TotalCost([]) == 0;
      FirstCost(todo);
      end := ReachesDone(pr, w, next, t, writable);
    }
  }

  /** A whole call, from its start, on a thread that no other interrupts. */
  lemma {:induction false} CallReaches(
    pr: Primitives, w: World, t: nat, call: Call, writable: bool) returns (end: World)
    requires Free(w, t) && w.threads[t].Idle() && call.WellFormed()
    ensures Reaches(pr, w, end) && t < |end.threads| && end.threads[t].Idle()
    ensures StoreOf(end) == Do(pr, StoreOf(w), Script(pr, call), writable)
  {
    ReachesItself(pr, w);
    var begun := ReachesBegun(pr, w, w, t, call);
    end := ReachesDone(pr, w, begun, t, writable);
  }
}
