/**
  Any number of `send_input`, `open_shell` and `close_shell` calls on one connection
  (rust/src/api/ssh.rs:322-326, 362-390, 420-429). Each works on the shell slot under its guard; between
  two attempts to write, any other call may take a step, but not get past the guard.
*/
module Senders {
  import opened Collections
  import opened Shell

  datatype Job = Send(data: seq<byte>) | Open | Close

  /**
    `Held` and `Ended` tell the channel a sender found in the slot. A call that ends without having had a
    channel, and the other two kinds of call, end with `Passed`.
  */
  datatype Phase =
    | Waiting
    | Held(channel: nat, progress: Progress)
    | Ended(channel: nat, progress: Progress, reply: Reply)
    | Passed

  datatype Caller = Caller(job: Job, phase: Phase)

  /**
    A channel is known by its place in `streams`, which tells the bytes it has taken so far. `order` is a
    history variable: the calls that have taken the guard, in the order they took it.
  */
  datatype World = World(
    slot: Option<nat>, guard: Option<nat>, callers: seq<Caller>, streams: seq<seq<byte>>, order: seq<nat>)

  const IDLE := World(None, None, [], [], [])

  datatype Move =
    | Arrive(job: Job)                  // a new call begins
    | Take(c: nat)                      // takes the guard
    | TryOnce(c: nat, a: Attempt) // the guard's owner tries to write
    | Finish(c: nat, flushes: bool)     // ... or flushes, or gives up, and returns

  function Next(w: World, move: Move): Option<World> {
    match move
    case Arrive(job) => Some(w.(callers := w.callers + [Caller(job, Waiting)]))
    case Take(c) =>
      if c >= |w.callers| || w.callers[c].phase != Waiting || w.guard.Some? then None
      else Some(Entered(w.(order := w.order + [c]), c))
    case TryOnce(c, a) =>
      if w.guard != Some(c) || c >= |w.callers| || !w.callers[c].phase.Held?
         || !w.callers[c].phase.progress.Writing? || !w.callers[c].job.Send? || w.callers[c].phase.channel >= |w.streams|
      then None
      else Some(Attempted(w, c, a))
    case Finish(c, flushes) =>
      if w.guard != Some(c) || c >= |w.callers| || !w.callers[c].phase.Held? || w.callers[c].phase.progress.Writing?
      then None
      else
        var phase := w.callers[c].phase;
        Some(SetPhase(w, c, Ended(phase.channel, phase.progress, Answer(phase.progress, flushes))).(guard := None))
  }

  function SetPhase(w: World, c: nat, phase: Phase): World
    requires c < |w.callers|
  {
    w.(callers := w.callers[c := w.callers[c].(phase := phase)])
  }

  /** What a call does as soon as it has the guard. Only a sender with a channel keeps it. */
  function Entered(w: World, c: nat): World
    requires c < |w.callers|
  {
    match w.callers[c].job
    case Send(data) =>
      if w.slot.None? then SetPhase(w, c, Passed)
      else SetPhase(w, c, Held(w.slot.value, WriteFrom(0, |data|))).(guard := Some(c))
    case Open => SetPhase(w, c, Passed).(slot := Some(|w.streams|), streams := w.streams + [[]])
    case Close => SetPhase(w, c, Passed).(slot := None)
  }

  function Attempted(w: World, c: nat, a: Attempt): World
    requires c < |w.callers| && w.callers[c].phase.Held? && w.callers[c].phase.progress.Writing?
    requires w.callers[c].job.Send? && w.callers[c].phase.channel < |w.streams|
  {
    var caller, channel := w.callers[c], w.callers[c].phase.channel;
    SetPhase(w, c, Held(channel, Try(caller.phase.progress.written, |caller.job.data|, a)))
      .(streams := w.streams[channel := w.streams[channel] + Taking(caller, a)])
  }

  /** The bytes the channel takes in an attempt. */
  function Taking(caller: Caller, a: Attempt): seq<byte>
    requires caller.job.Send? && caller.phase.Held? && caller.phase.progress.Writing?
  {
    var written := caller.phase.progress.written;
    if a.outcome.Wrote? then Part(caller.job.data, written, written + a.outcome.n) else []
  }

  /** `data` from `a` to `b`, or to its end. */
  function Part(data: seq<byte>, a: nat, b: nat): seq<byte> {
    data[Min(a, |data|)..Min(if a < b then b else a, |data|)]
  }

  // ---- Runs ----

  /** The world after the moves; a move that is not enabled does nothing. */
  function Run(moves: seq<Move>): World {
    if moves == [] then IDLE
    else
      var w := Run(moves[..|moves| - 1]);
      var next := Next(w, Last(moves));
      if next.Some? then next.value else w
  }

  /** The bytes that a call has given to a channel: all of its data or a prefix of it. */
  function Given(caller: Caller, channel: nat): seq<byte> {
    if caller.job.Send? && (caller.phase.Held? || caller.phase.Ended?) && caller.phase.channel == channel
    then Part(caller.job.data, 0, caller.phase.progress.Taken(|caller.job.data|))
    else []
  }

  ghost predicate InRange(order: seq<nat>, n: nat) {
    forall i :: 0 <= i < |order| ==> order[i] < n
  }

  /** What the calls have given, one whole call after the other. */
  ghost function Joined(callers: seq<Caller>, order: seq<nat>, channel: nat): seq<byte>
    requires InRange(order, |callers|)
  {
    if order == [] then []
    else Joined(callers, order[..|order| - 1], channel) + Given(callers[Last(order)], channel)
  }

  /** What a reply tells the caller. */
  ghost predicate Honest(caller: Caller) {
    caller.phase.Ended? ==>
      && caller.job.Send?
      && caller.phase.reply != NotYet
      && var given := Given(caller, caller.phase.channel);
      && (caller.phase.reply == Sent || caller.phase.reply == FlushError ==> given == caller.job.data)
      && (caller.phase.reply == Timeout || caller.phase.reply == WriteError ==> given < caller.job.data)
  }

  /** A sender that has not returned has a part of its data left, or all of it written. */
  ghost predicate Underway(caller: Caller) {
    caller.phase.Held? ==>
      && caller.job.Send?
      && (!caller.phase.progress.Written? ==> caller.phase.progress.written < |caller.job.data|)
  }

  ghost predicate OnChannel(caller: Caller, channels: nat) {
    caller.phase.Held? || caller.phase.Ended? ==> caller.phase.channel < channels
  }

  ghost predicate Proper(caller: Caller, channels: nat) {
    Honest(caller) && Underway(caller) && OnChannel(caller, channels)
  }

  /** The calls in the order are those that have had the guard, each once. */
  ghost predicate Ordered(w: World) {
    && NoDup(w.order)
    && (forall i :: 0 <= i < |w.order| ==> w.order[i] < |w.callers| && w.callers[w.order[i]].phase != Waiting)
    && (forall c :: 0 <= c < |w.callers| && w.callers[c].phase != Waiting ==> c in w.order)
  }

  /** Only the last of them may still have it. */
  ghost predicate Guarded(w: World) {
    && (forall c :: 0 <= c < |w.callers| && w.callers[c].phase.Held? ==> w.guard == Some(c))
    && (w.guard.Some? ==>
          && w.guard.value < |w.callers| && w.callers[w.guard.value].phase.Held?
          && w.order != [] && Last(w.order) == w.guard.value)
  }

  ghost predicate Sound(w: World) {
    && Ordered(w)
    && Guarded(w)
    && (forall c :: 0 <= c < |w.callers| ==> Proper(w.callers[c], |w.streams|))
    && (w.slot.Some? ==> w.slot.value < |w.streams|)
  }

  /** Each channel has been given exactly the calls' contributions, in guard order, none cut by another. */
  ghost predicate Atomic(w: World)
    requires Ordered(w)
  {
    forall channel: nat :: channel < |w.streams| ==> w.streams[channel] == Joined(w.callers, w.order, channel)
  }

  /**
    Over every run: bytes of different calls never mix, a call that returns `Ok` has given all its data and
    one that fails while writing a part of it, and the guard stays with a sender until it has returned.
  */
  lemma {:induction false} SendsAreAtomic(moves: seq<Move>)
    ensures Sound(Run(moves)) && Atomic(Run(moves))
  {
    if moves != [] {
      SendsAreAtomic(moves[..|moves| - 1]);
      var w := Run(moves[..|moves| - 1]);
      if Next(w, Last(moves)).Some? {
        NextIsSound(w, Last(moves));
        NextIsAtomic(w, Last(moves));
      }
    }
  }

  /** A call that has returned before another takes the guard comes first on the stream, for good. */
  lemma {:induction false} OrderOnlyGrows(moves: seq<Move>, more: seq<Move>)
    ensures Run(moves).order <= Run(moves + more).order
  {
    if more == [] {
      assert moves + more == moves;
    } else {
      var before := moves + more[..|more| - 1];
      assert (moves + more)[..|moves + more| - 1] == before && Last(moves + more) == Last(more);
      OrderOnlyGrows(moves, more[..|more| - 1]);
    }
  }

  /**
    After every run, whoever has the guard can go on: it can attempt to write, whatever the channel answers,
    while a part of its data is left, and return once none is. If nobody has it, every waiting call can take it.
  */
  lemma {:induction false} SomeoneCanMove(moves: seq<Move>)
    ensures var w := Run(moves);
            && (w.guard.None? ==> forall c :: 0 <= c < |w.callers| && w.callers[c].phase.Waiting? ==>
                                                Next(w, Take(c)).Some?)
            && (w.guard.Some? ==>
                  var c := w.guard.value;
                  && c < |w.callers| && w.callers[c].phase.Held?
                  && (if w.callers[c].phase.progress.Writing? then forall a :: Next(w, TryOnce(c, a)).Some?
                      else forall flushes :: Next(w, Finish(c, flushes)).Some?))
  {
    SendsAreAtomic(moves);
    var w := Run(moves);
    if w.guard.Some? {
      assert Proper(w.callers[w.guard.value], |w.streams|);
    }
  }

  lemma {:induction false} NextIsSound(w: World, move: Move)
    requires Sound(w) && Next(w, move).Some?
    ensures Sound(Next(w, move).value)
  {
    NextIsOrdered(w, move);
    NextIsGuarded(w, move);
    NextIsProper(w, move);
  }

  lemma {:induction false} NextIsOrdered(w: World, move: Move)
    requires Ordered(w) && Guarded(w) && Next(w, move).Some?
    ensures Ordered(Next(w, move).value)
  {
    var next := Next(w, move).value;
    if move.Take? {
      TakeIsOrdered(w, next, move.c);
    } else {
      assert next.order == w.order && forall c :: 0 <= c < |w.callers| ==>
                                        (next.callers[c].phase == Waiting <==> w.callers[c].phase == Waiting);
      SameIsOrdered(w, next);
    }
  }

  lemma {:induction false} TakeIsOrdered(w: World, next: World, c: nat)
    requires Ordered(w) && c < |w.callers| == |next.callers| && w.callers[c].phase == Waiting
    requires next.order == w.order + [c] && next.callers[c].phase != Waiting
    requires forall x :: 0 <= x < |w.callers| && x != c ==> next.callers[x] == w.callers[x]
    ensures Ordered(next)
  {
    assert c !in w.order && Last(next.order) == c;
    forall x | 0 <= x < |next.callers| && next.callers[x].phase != Waiting
      ensures x in next.order
    {
      assert x == c || x in w.order;
    }
  }

  lemma {:induction false} SameIsOrdered(w: World, next: World)
    requires Ordered(w) && next.order == w.order && |w.callers| <= |next.callers|
    requires forall c :: 0 <= c < |w.callers| ==> (next.callers[c].phase == Waiting <==> w.callers[c].phase == Waiting)
    requires forall c :: |w.callers| <= c < |next.callers| ==> next.callers[c].phase == Waiting
    ensures Ordered(next)
  {
  }

  lemma {:induction false} NextIsGuarded(w: World, move: Move)
    requires Guarded(w) && Next(w, move).Some?
    ensures Guarded(Next(w, move).value)
  {
    var next := Next(w, move).value;
    forall x | 0 <= x < |next.callers| && next.callers[x].phase.Held?
      ensures next.guard == Some(x)
    {
      assert x == Mover(w, move) || w.callers[x].phase.Held?;
    }
  }

  /** The call that moves. */
  ghost function Mover(w: World, move: Move): nat {
    if move.Arrive? then |w.callers| else move.c
  }

  lemma {:induction false} NextIsProper(w: World, move: Move)
    requires forall c :: 0 <= c < |w.callers| ==> Proper(w.callers[c], |w.streams|)
    requires w.slot.Some? ==> w.slot.value < |w.streams|
    requires Next(w, move).Some?
    ensures var next := Next(w, move).value;
            && (forall c :: 0 <= c < |next.callers| ==> Proper(next.callers[c], |next.streams|))
            && (next.slot.Some? ==> next.slot.value < |next.streams|)
  {
    var next := Next(w, move).value;
    forall x | 0 <= x < |next.callers|
      ensures Proper(next.callers[x], |next.streams|)
    {
      assert x < |w.callers| ==> Proper(w.callers[x], |w.streams|);
    }
  }

  lemma {:induction false} NextIsAtomic(w: World, move: Move)
    requires Sound(w) && Next(w, move).Some? && Sound(Next(w, move).value) && Atomic(w)
    ensures Atomic(Next(w, move).value)
  {
    var next := Next(w, move).value;
    EachInOrder(w);
    forall channel: nat | channel < |next.streams|
      ensures next.streams[channel] == Joined(next.callers, next.order, channel)
    {
      assert channel < |w.streams| ==> w.streams[channel] == Joined(w.callers, w.order, channel);
      OneStreamIsAtomic(w, move, channel);
    }
  }

  lemma {:induction false} OneStreamIsAtomic(w: World, move: Move, channel: nat)
    requires NoDup(w.order) && InRange(w.order, |w.callers|) && Guarded(w) && Next(w, move).Some?
    requires forall i :: 0 <= i < |w.order| ==>
                           var caller := w.callers[w.order[i]]; !caller.phase.Waiting? && OnChannel(caller, |w.streams|)
    requires channel < |w.streams| ==> w.streams[channel] == Joined(w.callers, w.order, channel)
    requires channel < |Next(w, move).value.streams|
    ensures var next := Next(w, move).value;
            InRange(next.order, |next.callers|) && next.streams[channel] == Joined(next.callers, next.order, channel)
  {
    match move
    case Take(c) =>
      TakeAdds(w, c, channel);
      TakeIsAtomic(w, Next(w, move).value, c, channel);
    case TryOnce(c, a) => TryIsAtomic(w, c, a, channel);
    case _ => OtherMovesGiveNothing(w, move, channel);
  }

  lemma {:induction false} EachInOrder(w: World)
    requires Sound(w)
    ensures forall i :: 0 <= i < |w.order| ==>
                          var caller := w.callers[w.order[i]]; !caller.phase.Waiting? && OnChannel(caller, |w.streams|)
  {
    forall i | 0 <= i < |w.order|
      ensures OnChannel(w.callers[w.order[i]], |w.streams|)
    {
      assert Proper(w.callers[w.order[i]], |w.streams|);
    }
  }

  /** Arriving and finishing write nothing. */
  lemma {:induction false} OtherMovesGiveNothing(w: World, move: Move, channel: nat)
    requires (move.Arrive? || move.Finish?) && Next(w, move).Some? && InRange(w.order, |w.callers|)
    ensures var next := Next(w, move).value;
            && next.order == w.order && next.streams == w.streams && InRange(w.order, |next.callers|)
            && Joined(next.callers, w.order, channel) == Joined(w.callers, w.order, channel)
  {
    JoinedSame(w.callers, Next(w, move).value.callers, w.order, channel);
  }

  /** Taking the guard adds a call to the order, and perhaps an empty stream; the call has given nothing yet. */
  lemma {:induction false} TakeAdds(w: World, c: nat, channel: nat)
    requires Next(w, Take(c)).Some?
    ensures var next := Next(w, Take(c)).value;
            && |next.callers| == |w.callers| && next.callers == w.callers[c := next.callers[c]]
            && next.order == w.order + [c]
            && (next.streams == w.streams || next.streams == w.streams + [[]])
            && Given(next.callers[c], channel) == []
  {
    EnteredGivesNothing(w.(order := w.order + [c]), c, channel);
  }

  lemma {:induction false} TakeIsAtomic(w: World, next: World, c: nat, channel: nat)
    requires InRange(w.order, |w.callers|) && c < |w.callers| && w.callers[c].phase.Waiting?
    requires |next.callers| == |w.callers| && next.callers == w.callers[c := next.callers[c]]
    requires next.order == w.order + [c]
    requires next.streams == w.streams || next.streams == w.streams + [[]]
    requires Given(next.callers[c], channel) == []
    requires forall i :: 0 <= i < |w.order| ==>
                           var caller := w.callers[w.order[i]]; !caller.phase.Waiting? && OnChannel(caller, |w.streams|)
    requires channel < |w.streams| ==> w.streams[channel] == Joined(w.callers, w.order, channel)
    ensures InRange(next.order, |next.callers|)
    ensures channel < |next.streams| ==> next.streams[channel] == Joined(next.callers, next.order, channel)
  {
    NewGivesNothing(w.callers, next.callers, w.order, c, channel);
    if channel == |w.streams| {
      NothingOnNewChannel(w.callers, w.order, channel);
    }
  }

  lemma {:induction false} TryIsAtomic(w: World, c: nat, a: Attempt, channel: nat)
    requires NoDup(w.order) && InRange(w.order, |w.callers|) && w.order != [] && Last(w.order) == c
    requires Next(w, TryOnce(c, a)).Some?
    requires channel < |w.streams| && w.streams[channel] == Joined(w.callers, w.order, channel)
    ensures var next := Next(w, TryOnce(c, a)).value;
            channel < |next.streams| && next.streams[channel] == Joined(next.callers, next.order, channel)
  {
    var next := Next(w, TryOnce(c, a)).value;
    GivesWhatIsTaken(w.callers[c], next.callers[c], a, channel);
    LastGivesMore(w.callers, next.callers, w.order, channel, Gains(w.callers[c], a, channel));
  }

  lemma {:induction false} JoinedSame(a: seq<Caller>, b: seq<Caller>, order: seq<nat>, channel: nat)
    requires InRange(order, |a|) && InRange(order, |b|)
    requires forall i :: 0 <= i < |order| ==> Given(a[order[i]], channel) == Given(b[order[i]], channel)
    ensures Joined(a, order, channel) == Joined(b, order, channel)
  {
    if order != [] {
      JoinedSame(a, b, order[..|order| - 1], channel);
    }
  }

  lemma {:induction false} NothingOnNewChannel(callers: seq<Caller>, order: seq<nat>, channel: nat)
    requires InRange(order, |callers|)
    requires forall i :: 0 <= i < |order| ==> OnChannel(callers[order[i]], channel)
    ensures Joined(callers, order, channel) == []
  {
    if order != [] {
      NothingOnNewChannel(callers, order[..|order| - 1], channel);
    }
  }

  /** A call that has just taken the guard has given nothing. */
  lemma {:induction false} EnteredGivesNothing(w: World, c: nat, channel: nat)
    requires c < |w.callers| && w.callers[c].phase.Waiting?
    ensures Given(Entered(w, c).callers[c], channel) == []
  {
  }

  lemma {:induction false} NewGivesNothing(a: seq<Caller>, b: seq<Caller>, order: seq<nat>, c: nat, channel: nat)
    requires InRange(order, |a|) && |a| == |b| && c < |a|
    requires forall i :: 0 <= i < |order| ==> a[order[i]] == b[order[i]]
    requires Given(b[c], channel) == []
    ensures Joined(b, order + [c], channel) == Joined(a, order, channel)
  {
    assert (order + [c])[..|order|] == order;
    JoinedSame(a, b, order, channel);
  }

  /** When only the last call in the order changes, only the end of the stream does. */
  lemma {:induction false} LastGivesMore(a: seq<Caller>, b: seq<Caller>, order: seq<nat>, channel: nat, more: seq<byte>)
    requires NoDup(order) && order != [] && InRange(order, |a|) && |a| == |b|
    requires forall x :: 0 <= x < |a| && x != Last(order) ==> a[x] == b[x]
    requires Given(b[Last(order)], channel) == Given(a[Last(order)], channel) + more
    ensures Joined(b, order, channel) == Joined(a, order, channel) + more
  {
    JoinedSame(a, b, order[..|order| - 1], channel);
    Assoc(Joined(a, order[..|order| - 1], channel), Given(a[Last(order)], channel), more);
  }

  function Gains(caller: Caller, a: Attempt, channel: nat): seq<byte>
    requires caller.job.Send? && caller.phase.Held? && caller.phase.progress.Writing?
  {
    if caller.phase.channel == channel then Taking(caller, a) else []
  }

  /** The bytes a sender has given after an attempt. */
  lemma {:induction false} GivesWhatIsTaken(before: Caller, after: Caller, a: Attempt, channel: nat)
    requires before.job.Send? && before.phase.Held? && before.phase.progress.Writing?
    requires after == before.(phase := Held(before.phase.channel, Try(before.phase.progress.written, |before.job.data|, a)))
    ensures Given(after, channel) == Given(before, channel) + Gains(before, a, channel)
  {
    var data, written := before.job.data, before.phase.progress.written;
    if a.outcome.Wrote? {
      PartsJoin(data, written, written + a.outcome.n);
    }
    assert Given(before, channel) + [] == Given(before, channel);
  }

  lemma {:induction false} PartsJoin(data: seq<byte>, a: nat, b: nat)
    requires a <= b
    ensures Part(data, 0, a) + Part(data, a, b) == Part(data, 0, b)
    ensures b >= |data| ==> Part(data, 0, b) == Part(data, 0, |data|) == data
  {
  }

  // ---- Each sender is a `send_input` ----

  /** What the channel has answered to call `c`, attempt by attempt. */
  ghost function AttemptsOf(moves: seq<Move>, c: nat): seq<Attempt> {
    if moves == [] then []
    else
      var before, move := moves[..|moves| - 1], Last(moves);
      AttemptsOf(before, c)
      + if move.TryOnce? && move.c == c && Next(Run(before), move).Some? then [move.a] else []
  }

  /** How the flush of call `c` has gone, if the call has come to it and returned. */
  ghost function FlushOf(moves: seq<Move>, c: nat): Option<bool> {
    if moves == [] then None
    else
      var before, move := moves[..|moves| - 1], Last(moves);
      if move.Finish? && move.c == c && Next(Run(before), move).Some? then Some(move.flushes) else FlushOf(before, c)
  }

  function ScheduleOf(attempts: seq<Attempt>): Schedule {
    (k: nat) => if k < |attempts| then attempts[k] else Attempt(Failed, 0)
  }

  /** Where a call stands is where `send_input` alone would stand, given the same answers. */
  ghost predicate LikeAlone(caller: Caller, attempts: seq<Attempt>, flush: Option<bool>) {
    match caller.phase
    case Waiting => attempts == [] && flush == None
    case Passed => attempts == [] && flush == None
    case Held(_, progress) =>
      && caller.job.Send? && flush == None
      && progress == After(|caller.job.data|, ScheduleOf(attempts), |attempts|)
    case Ended(_, progress, reply) =>
      && caller.job.Send? && flush.Some?
      && progress == After(|caller.job.data|, ScheduleOf(attempts), |attempts|)
      && reply == Answer(progress, flush.value)
  }

  /**
    Whatever the other calls do between its attempts, each call that has returned has replied as the channel's
    answers to it, and its own flush, make `send_input` reply.
  */
  lemma {:induction false} RepliesAreEarned(moves: seq<Move>, c: nat)
    requires c < |Run(moves).callers| && Run(moves).callers[c].phase.Ended?
    ensures var caller, attempts, flush := Run(moves).callers[c], AttemptsOf(moves, c), FlushOf(moves, c);
            && caller.job.Send? && flush.Some?
            && Earned(caller.phase.reply, |caller.job.data|, ScheduleOf(attempts), |attempts|, flush.value)
  {
    EachLikeAlone(moves, c);
    var attempts := AttemptsOf(moves, c);
    ReplyIsEarned(|Run(moves).callers[c].job.data|, ScheduleOf(attempts), |attempts|, FlushOf(moves, c).value);
  }

  lemma {:induction false} EachLikeAlone(moves: seq<Move>, c: nat)
    ensures c < |Run(moves).callers| ==> LikeAlone(Run(moves).callers[c], AttemptsOf(moves, c), FlushOf(moves, c))
    ensures c >= |Run(moves).callers| ==> AttemptsOf(moves, c) == [] && FlushOf(moves, c) == None
  {
    if moves != [] {
      var before, move := moves[..|moves| - 1], Last(moves);
      var w, attempts := Run(before), AttemptsOf(before, c);
      EachLikeAlone(before, c);
      assert attempts + [] == attempts;
      if Next(w, move).Some? && c < |w.callers| {
        MoveLikeAlone(w, move, c, attempts, FlushOf(before, c));
      } else if Next(w, move).Some? {
        assert c < |Next(w, move).value.callers| ==> Next(w, move).value.callers[c].phase == Waiting;
      }
    }
  }

  lemma {:induction false} MoveLikeAlone(w: World, move: Move, c: nat, attempts: seq<Attempt>, flush: Option<bool>)
    requires c < |w.callers| && LikeAlone(w.callers[c], attempts, flush) && Next(w, move).Some?
    ensures var w' := Next(w, move).value;
            var more := if move.TryOnce? && move.c == c then [move.a] else [];
            var flushed := if move.Finish? && move.c == c then Some(move.flushes) else flush;
            c < |w'.callers| && LikeAlone(w'.callers[c], attempts + more, flushed)
  {
    assert attempts + [] == attempts;
    if move.TryOnce? && move.c == c {
      OneMoreAttempt(|w.callers[c].job.data|, attempts, move.a);
    }
  }

  lemma {:induction false} OneMoreAttempt(size: nat, attempts: seq<Attempt>, a: Attempt)
    requires After(size, ScheduleOf(attempts), |attempts|).Writing?
    ensures After(size, ScheduleOf(attempts + [a]), |attempts + [a]|)
         == Try(After(size, ScheduleOf(attempts), |attempts|).written, size, a)
  {
    SameAnswers(size, ScheduleOf(attempts), ScheduleOf(attempts + [a]), |attempts|);
  }

  lemma {:induction false} SameAnswers(size: nat, s: Schedule, t: Schedule, k: nat)
    requires forall j: nat :: j < k ==> s(j) == t(j)
    ensures After(size, s, k) == After(size, t, k)
  {
    if k > 0 {
      SameAnswers(size, s, t, k - 1);
    }
  }

  // ---- Which channel a call finds ----

  /** How many of the calls open a shell. */
  ghost function Opens(callers: seq<Caller>, order: seq<nat>): nat
    requires InRange(order, |callers|)
  {
    if order == [] then 0
    else Opens(callers, order[..|order| - 1]) + if callers[Last(order)].job.Open? then 1 else 0
  }

  /** Call number `i` in the order opens a shell and no later one opens or closes one. */
  ghost predicate LastOpens(callers: seq<Caller>, order: seq<nat>, i: nat)
    requires InRange(order, |callers|)
  {
    && i < |order| && callers[order[i]].job.Open?
    && forall j :: i < j < |order| ==> callers[order[j]].job.Send?
  }

  /** The channel that these calls leave open: that of the last one to open it, unless a close came after. */
  ghost predicate LeavesOpen(callers: seq<Caller>, order: seq<nat>, slot: Option<nat>)
    requires InRange(order, |callers|)
  {
    && (slot.Some? ==> exists i: nat :: LastOpens(callers, order, i) && slot.value == Opens(callers, order[..i]))
    && (slot.None? ==> forall i: nat :: !LastOpens(callers, order, i))
  }

  /** Call number `i` of the order found what the calls before it had left. */
  ghost predicate FoundChannel(callers: seq<Caller>, order: seq<nat>, i: nat)
    requires InRange(order, |callers|) && i < |order|
  {
    var caller := callers[order[i]];
    match caller.phase
    case Held(channel, _) => caller.job.Send? && LeavesOpen(callers, order[..i], Some(channel))
    case Ended(channel, _, _) => caller.job.Send? && LeavesOpen(callers, order[..i], Some(channel))
    case Passed => caller.job.Send? ==> LeavesOpen(callers, order[..i], None)
    case Waiting => false
  }

  ghost predicate ChannelsInOrder(w: World)
    requires InRange(w.order, |w.callers|)
  {
    && LeavesOpen(w.callers, w.order, w.slot)
    && |w.streams| == Opens(w.callers, w.order)
    && forall i :: 0 <= i < |w.order| ==> FoundChannel(w.callers, w.order, i)
  }

  /**
    Over every run, the slot holds the channel of the last open in guard order unless a close came after it,
    every open has a channel of its own, and every sender writes to the channel that the calls before it have
    left; if they have left none, it has no part in the streams.
  */
  lemma {:induction false} ChannelsFollowOrder(moves: seq<Move>)
    ensures InRange(Run(moves).order, |Run(moves).callers|) && ChannelsInOrder(Run(moves))
  {
    SendsAreAtomic(moves);
    if moves != [] {
      var before := moves[..|moves| - 1];
      ChannelsFollowOrder(before);
      if Next(Run(before), Last(moves)).Some? {
        SendsAreAtomic(before);
        NextFollowsOrder(Run(before), Last(moves));
      }
    }
  }

  /** The calls are the same ones, whatever has become of them. */
  ghost predicate SameJobs(a: seq<Caller>, b: seq<Caller>) {
    |a| <= |b| && forall c :: 0 <= c < |a| ==> a[c].job == b[c].job
  }

  lemma {:induction false} SameJobsOpen(a: seq<Caller>, b: seq<Caller>, order: seq<nat>)
    requires InRange(order, |a|) && SameJobs(a, b)
    ensures Opens(a, order) == Opens(b, order)
  {
    if order != [] {
      SameJobsOpen(a, b, order[..|order| - 1]);
    }
  }

  lemma {:induction false} SameJobsLeave(a: seq<Caller>, b: seq<Caller>, order: seq<nat>, slot: Option<nat>)
    requires InRange(order, |a|) && SameJobs(a, b) && LeavesOpen(a, order, slot)
    ensures LeavesOpen(b, order, slot)
  {
    if slot.Some? {
      var i: nat :| LastOpens(a, order, i) && slot.value == Opens(a, order[..i]);
      SameJobsOpen(a, b, order[..i]);
      assert LastOpens(b, order, i);
    } else {
      forall i: nat
        ensures !LastOpens(b, order, i)
      {
        assert !LastOpens(a, order, i);
      }
    }
  }

  lemma {:induction false} NextFollowsOrder(w: World, move: Move)
    requires Ordered(w) && Guarded(w) && ChannelsInOrder(w) && Next(w, move).Some?
    ensures var w' := Next(w, move).value; InRange(w'.order, |w'.callers|) && ChannelsInOrder(w')
  {
    var w' := Next(w, move).value;
    assert SameJobs(w.callers, w'.callers);
    if move.Take? {
      TakeFollowsOrder(w, w', move.c);
    } else {
      forall i | 0 <= i < |w.order|
        ensures KeepsChannel(w.callers[w.order[i]], w'.callers[w.order[i]])
      {
        assert w.callers[w.order[i]].phase != Waiting;
      }
      OthersFollowOrder(w, w');
    }
  }

  /** The call is where it was, or has gone on with its channel. */
  ghost predicate KeepsChannel(a: Caller, b: Caller) {
    a.phase == b.phase || (a.phase.Held? && (b.phase.Held? || b.phase.Ended?) && a.phase.channel == b.phase.channel)
  }

  lemma {:induction false} OthersFollowOrder(w: World, w': World)
    requires InRange(w.order, |w.callers|) && ChannelsInOrder(w)
    requires w'.order == w.order && w'.slot == w.slot && |w'.streams| == |w.streams| && SameJobs(w.callers, w'.callers)
    requires forall i :: 0 <= i < |w.order| ==> KeepsChannel(w.callers[w.order[i]], w'.callers[w.order[i]])
    ensures ChannelsInOrder(w')
  {
    SameJobsLeave(w.callers, w'.callers, w.order, w.slot);
    SameJobsOpen(w.callers, w'.callers, w.order);
    forall i | 0 <= i < |w'.order|
      ensures FoundChannel(w'.callers, w'.order, i)
    {
      StillFound(w.callers, w'.callers, w.order, i);
    }
  }

  /** A call that had the guard keeps its channel. */
  lemma {:induction false} StillFound(a: seq<Caller>, b: seq<Caller>, order: seq<nat>, i: nat)
    requires InRange(order, |a|) && SameJobs(a, b) && i < |order| && FoundChannel(a, order, i)
    requires KeepsChannel(a[order[i]], b[order[i]])
    ensures FoundChannel(b, order, i)
  {
    var p := a[order[i]].phase;
    if a[order[i]].job.Send? {
      SameJobsLeave(a, b, order[..i], if p.Passed? then None else Some(p.channel));
    }
  }

  lemma {:induction false} TakeFollowsOrder(w: World, w': World, c: nat)
    requires Ordered(w) && ChannelsInOrder(w) && Next(w, Take(c)) == Some(w') && SameJobs(w.callers, w'.callers)
    ensures InRange(w'.order, |w'.callers|) && ChannelsInOrder(w')
  {
    SameJobsOpen(w.callers, w'.callers, w.order);
    SameJobsLeave(w.callers, w'.callers, w.order, w.slot);
    OneMoreCall(w'.callers, w.order, c, w.slot);
    EarlierFound(w.callers, w'.callers, w.order, c);
    NewestFound(w, w', c);
    AllFound(w'.callers, w.order, c);
  }

  lemma {:induction false} NewestFound(w: World, w': World, c: nat)
    requires c < |w.callers| == |w'.callers| && w' == Entered(w.(order := w.order + [c]), c)
    requires InRange(w.order, |w.callers|) && LeavesOpen(w'.callers, w.order, w.slot)
    ensures InRange(w.order + [c], |w'.callers|) && FoundChannel(w'.callers, w.order + [c], |w.order|)
  {
    assert (w.order + [c])[..|w.order|] == w.order && (w.order + [c])[|w.order|] == c;
  }

  lemma {:induction false} AllFound(callers: seq<Caller>, order: seq<nat>, c: nat)
    requires InRange(order + [c], |callers|) && FoundChannel(callers, order + [c], |order|)
    requires forall i :: 0 <= i < |order| ==> FoundChannel(callers, order + [c], i)
    ensures forall i :: 0 <= i < |order + [c]| ==> FoundChannel(callers, order + [c], i)
    ensures Opens(callers, order + [c]) == Opens(callers, (order + [c])[..|order|]) + if callers[c].job.Open? then 1 else 0
    ensures (order + [c])[..|order|] == order
  {
    assert Last(order + [c]) == c;
  }

  /** Taking the guard changes nothing for those that had it before. */
  lemma {:induction false} EarlierFound(a: seq<Caller>, b: seq<Caller>, order: seq<nat>, c: nat)
    requires InRange(order, |a|) && |a| == |b| && SameJobs(a, b) && c < |a| && c !in order
    requires forall x :: 0 <= x < |a| && x != c ==> a[x] == b[x]
    requires forall i :: 0 <= i < |order| ==> FoundChannel(a, order, i)
    ensures InRange(order + [c], |b|)
    ensures forall i :: 0 <= i < |order| ==> FoundChannel(b, order + [c], i)
  {
    forall i | 0 <= i < |order|
      ensures FoundChannel(b, order + [c], i)
    {
      assert (order + [c])[..i] == order[..i];
      StillFound(a, b, order, i);
    }
  }

  /** What the calls leave open, with one more of them. */
  lemma {:induction false} OneMoreCall(callers: seq<Caller>, order: seq<nat>, c: nat, slot: Option<nat>)
    requires InRange(order, |callers|) && c < |callers| && LeavesOpen(callers, order, slot)
    ensures InRange(order + [c], |callers|)
    ensures LeavesOpen(callers, order + [c], match callers[c].job
                                             case Send(_) => slot
                                             case Open => Some(Opens(callers, order))
                                             case Close => None)
  {
    var more := order + [c];
    assert more[..|order|] == order && more[|order|] == c;
    match callers[c].job
    case Open => assert LastOpens(callers, more, |order|);
    case Close =>
      forall i: nat
        ensures !LastOpens(callers, more, i)
      {
        assert i < |order| ==> callers[more[|order|]].job.Close?;
      }
    case Send(_) =>
      forall i: nat
        ensures LastOpens(callers, more, i) <==> LastOpens(callers, order, i)
      {
        assert i < |order| ==> more[i] == order[i];
        assert forall j :: 0 <= j < |order| ==> more[j] == order[j];
      }
      if slot.Some? {
        var i: nat :| LastOpens(callers, order, i) && slot.value == Opens(callers, order[..i]);
        assert more[..i] == order[..i] && LastOpens(callers, more, i);
      }
  }
}
