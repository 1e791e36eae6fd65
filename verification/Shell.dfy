/**
  Writing to the interactive shell and reading from it (rust/src/api/ssh.rs:329-390). The channel is
  non-blocking: a write may take a part, take nothing, or ask to be tried again.
*/
module Shell {
  import Utf8

  type byte = Utf8.byte

  const TIMEOUT := 2000
  const PAUSE := 10

  datatype Outcome = Wrote(n: nat) | WouldBlock | Failed

  /** The k-th attempt to write: what the channel does, and the milliseconds passed since the call began. */
  datatype Attempt = Attempt(outcome: Outcome, elapsed: nat)

  type Schedule = nat -> Attempt

  /** Time goes on, by the pause at least after an attempt that would have blocked. */
  ghost predicate Ticks(s: Schedule) {
    forall k: nat :: s(k + 1).elapsed >= s(k).elapsed + if s(k).outcome.WouldBlock? then PAUSE else 0
  }

  datatype Progress = Writing(written: nat) | Written | TimedOut(written: nat) | Broken(written: nat) {
    /** How many bytes the channel has taken. */
    function Taken(size: nat): nat {
      if Written? then size else written
    }
  }

  function WriteFrom(written: nat, size: nat): Progress {
    if written >= size then Written else Writing(written)
  }

  /** One turn of the loop, with `written` bytes of `size` gone out. */
  function Try(written: nat, size: nat, a: Attempt): Progress {
    match a.outcome
    case Wrote(n) => WriteFrom(written + n, size)
    case WouldBlock => if a.elapsed > TIMEOUT then TimedOut(written) else Writing(written)
    case Failed => Broken(written)
  }

  /** Where the loop is after `k` attempts, or where it ended before. */
  function After(size: nat, s: Schedule, k: nat): Progress {
    if k == 0 then WriteFrom(0, size)
    else
      var before := After(size, s, k - 1);
      if before.Writing? then Try(before.written, size, s(k - 1)) else before
  }

  lemma {:induction false} EndedStaysEnded(size: nat, s: Schedule, k: nat, m: nat)
    requires k <= m && !After(size, s, k).Writing?
    ensures After(size, s, m) == After(size, s, k)
  {
    if k < m {
      EndedStaysEnded(size, s, k, m - 1);
    }
  }

  datatype Reply = Sent | Timeout | WriteError | FlushError | NotYet

  /** `NotYet` while the loop is running. */
  function Answer(progress: Progress, flushes: bool): Reply {
    match progress
    case Writing(_) => NotYet
    case Written => if flushes then Sent else FlushError
    case TimedOut(_) => Timeout
    case Broken(_) => WriteError
  }

  /** The loop of `send_input`, for at most `budget` attempts. */
  method WriteAll(data: seq<byte>, s: Schedule, budget: nat) returns (progress: Progress, stream: seq<byte>)
    ensures progress == After(|data|, s, budget)
    ensures stream == data[..Min(progress.Taken(|data|), |data|)]
  {
    stream := [];
    var written := 0;
    var k := 0;
    while written < |data| && k < budget
      invariant k <= budget && After(|data|, s, k) == WriteFrom(written, |data|)
      invariant stream == data[..Min(written, |data|)]
    {
      var a := s(k);
      match a.outcome {
        case Wrote(n) =>
          stream := stream + data[written..Min(written + n, |data|)];
          written := written + n;
        case WouldBlock =>
          if a.elapsed > TIMEOUT {
            EndedStaysEnded(|data|, s, k + 1, budget);
            return TimedOut(written), stream;
          }
        case Failed =>
          EndedStaysEnded(|data|, s, k + 1, budget);
          return Broken(written), stream;
      }
      k := k + 1;
    }
    progress := WriteFrom(written, |data|);
    if progress.Written? {
      EndedStaysEnded(|data|, s, k, budget);
    }
  }

  /**
    `send_input`, from its data to its reply. The stream grows by exactly the data when the call succeeds or
    only the flush fails, and otherwise by exactly what the channel accepted, which is not all of it.
  */
  method SendInput(data: seq<byte>, s: Schedule, budget: nat, flushes: bool) returns (reply: Reply, stream: seq<byte>)
    ensures Earned(reply, |data|, s, budget, flushes)
    ensures reply == Answer(After(|data|, s, budget), flushes)
    ensures stream == data[..Min(After(|data|, s, budget).Taken(|data|), |data|)]
    ensures reply == Sent || reply == FlushError ==> stream == data
    ensures reply == NotYet || reply == Timeout || reply == WriteError ==> stream < data
  {
    var progress;
    progress, stream := WriteAll(data, s, budget);
    ReplyIsEarned(|data|, s, budget, flushes);
    StillWriting(|data|, s, budget);
    match progress {
      case Writing(_) => reply := NotYet;
      case TimedOut(_) => reply := Timeout;
      case Broken(_) => reply := WriteError;
      case Written => reply := if flushes then Sent else FlushError;
    }
  }

  function Min(a: nat, b: nat): nat {
    if a < b then a else b
  }

  // ---- When the loop ends ----

  /** What is left: the bytes to write and the time to wait. */
  ghost function Left(size: nat, s: Schedule, k: nat): nat
    requires After(size, s, k).Writing?
  {
    (if After(size, s, k).written < size then size - After(size, s, k).written else 0)
    + if s(k).elapsed > TIMEOUT then 0 else TIMEOUT + 1 - s(k).elapsed
  }

  predicate Idles(a: Attempt) {
    a.outcome == Wrote(0)
  }

  /** A loop that never ends comes, at some point, to writes of nothing only. */
  lemma {:induction false} EndlessIdles(size: nat, s: Schedule, k: nat, left: nat) returns (from: nat)
    requires Ticks(s) && Endless(size, s) && left == Left(size, s, k)
    ensures forall j: nat :: j >= from ==> Idles(s(j))
    decreases left
  {
    if forall j: nat :: j >= k ==> Idles(s(j)) {
      from := k;
    } else {
      var j: nat :| j >= k && !Idles(s(j));
      LeftShrinks(size, s, k, j);
      from := EndlessIdles(size, s, j + 1, Left(size, s, j + 1));
    }
  }

  lemma {:induction false} LeftShrinks(size: nat, s: Schedule, k: nat, j: nat)
    requires Ticks(s) && k <= j && Endless(size, s)
    ensures Left(size, s, j) <= Left(size, s, k)
  {
    if k < j {
      LeftShrinks(size, s, k, j - 1);
    }
  }

  lemma {:induction false} IdlingGoesOn(size: nat, s: Schedule, k: nat, j: nat)
    requires k <= j && After(size, s, k).Writing? && forall i: nat :: i >= k ==> Idles(s(i))
    ensures After(size, s, j).Writing?
  {
    if k < j {
      IdlingGoesOn(size, s, k, j - 1);
      StillWriting(size, s, j - 1);
    }
  }

  /** A loop that has not written everything has a part of it left. */
  lemma {:induction false} StillWriting(size: nat, s: Schedule, k: nat)
    ensures !After(size, s, k).Written? ==> After(size, s, k).written < size
  {
    if k > 0 {
      StillWriting(size, s, k - 1);
    }
  }

  lemma {:induction false} WasWriting(size: nat, s: Schedule, k: nat, j: nat)
    requires k <= j && After(size, s, j).Writing?
    ensures After(size, s, k).Writing?
  {
    if k < j {
      WasWriting(size, s, k, j - 1);
    }
  }

  /** The loop goes on after any number of attempts. */
  ghost predicate Endless(size: nat, s: Schedule) {
    forall k: nat :: After(size, s, k).Writing?
  }

  /** What the channel would take in the first `k` attempts. */
  function Accepted(s: Schedule, k: nat): nat {
    if k == 0 then 0 else Accepted(s, k - 1) + if s(k - 1).outcome.Wrote? then s(k - 1).outcome.n else 0
  }

  /** More than two seconds have gone by. */
  predicate BlocksTooLong(a: Attempt) {
    a.outcome.WouldBlock? && a.elapsed > 2000
  }

  predicate GivesUp(a: Attempt) {
    a.outcome.Failed? || BlocksTooLong(a)
  }

  /** As far as the channel is concerned, `size` bytes keep the call busy beyond its first `k` attempts. */
  ghost predicate Reaches(size: nat, s: Schedule, k: nat) {
    Accepted(s, k) < size && forall j: nat :: j < k ==> !GivesUp(s(j))
  }

  lemma {:induction false} WritingIffReaches(size: nat, s: Schedule, k: nat)
    ensures After(size, s, k).Writing? <==> Reaches(size, s, k)
    ensures After(size, s, k).Writing? ==> After(size, s, k).written == Accepted(s, k)
  {
    if k > 0 {
      WritingIffReaches(size, s, k - 1);
    }
  }

  /** Within `budget` attempts the channel takes all bytes, and gives up in none before that. */
  ghost predicate TakesAll(size: nat, s: Schedule, budget: nat) {
    exists k: nat :: k <= budget && Accepted(s, k) >= size && forall j: nat :: j < k ==> !GivesUp(s(j))
  }

  /**
    The reply, from the channel's own answers: `Sent` or `FlushError`, as the flush goes, iff it takes all
    bytes in time; `Timeout` or `WriteError` iff an attempt that the call gets to blocks for too long, or
    fails; and the call is still at it iff none of these has happened yet.
  */
  ghost predicate Earned(reply: Reply, size: nat, s: Schedule, budget: nat, flushes: bool) {
    && (reply == Sent <==> flushes && TakesAll(size, s, budget))
    && (reply == FlushError <==> !flushes && TakesAll(size, s, budget))
    && (reply == Timeout <==> exists k: nat :: k < budget && Reaches(size, s, k) && BlocksTooLong(s(k)))
    && (reply == WriteError <==> exists k: nat :: k < budget && Reaches(size, s, k) && s(k).outcome.Failed?)
    && (reply == NotYet <==> Reaches(size, s, budget))
  }

  lemma {:induction false} ReplyIsEarned(size: nat, s: Schedule, budget: nat, flushes: bool)
    ensures Earned(Answer(After(size, s, budget), flushes), size, s, budget, flushes)
  {
    WritingIffReaches(size, s, budget);
    if !Reaches(size, s, budget) {
      EndsOneWay(size, s, budget);
      forall k: nat | k < budget && Reaches(size, s, k) && GivesUp(s(k))
        ensures After(size, s, budget) == Try(Accepted(s, k), size, s(k)) && !TakesAll(size, s, budget)
      {
        GivesUpAt(size, s, k, budget);
      }
    } else {
      StillTaking(size, s, budget);
    }
  }

  /** A call that has ended came to an attempt that gave up, or to one that took the rest. */
  lemma {:induction false} EndsOneWay(size: nat, s: Schedule, budget: nat)
    requires !Reaches(size, s, budget)
    ensures (After(size, s, budget) == Written && TakesAll(size, s, budget))
            || exists k: nat :: k < budget && Reaches(size, s, k) && GivesUp(s(k))
  {
    if budget == 0 {
      assert Accepted(s, 0) >= size;
    } else if Reaches(size, s, budget - 1) {
      if !GivesUp(s(budget - 1)) {
        TakesTheRest(size, s, budget - 1);
      }
    } else {
      EndsOneWay(size, s, budget - 1);
      if After(size, s, budget - 1) == Written && TakesAll(size, s, budget - 1) {
        TakesAllInMore(size, s, budget - 1);
      }
    }
  }

  lemma {:induction false} TakesTheRest(size: nat, s: Schedule, k: nat)
    requires Reaches(size, s, k) && !Reaches(size, s, k + 1) && !GivesUp(s(k))
    ensures After(size, s, k + 1) == Written && TakesAll(size, s, k + 1)
  {
    WritingIffReaches(size, s, k);
    assert Accepted(s, k + 1) >= size;
  }

  lemma {:induction false} TakesAllInMore(size: nat, s: Schedule, k: nat)
    requires After(size, s, k) == Written && TakesAll(size, s, k)
    ensures After(size, s, k + 1) == Written && TakesAll(size, s, k + 1)
  {
    var j: nat :| j <= k && Accepted(s, j) >= size && forall i: nat :: i < j ==> !GivesUp(s(i));
  }

  lemma {:induction false} GivesUpAt(size: nat, s: Schedule, k: nat, budget: nat)
    requires k < budget && Reaches(size, s, k) && GivesUp(s(k))
    ensures After(size, s, budget) == Try(Accepted(s, k), size, s(k)) && !TakesAll(size, s, budget)
  {
    WritingIffReaches(size, s, k);
    EndedStaysEnded(size, s, k + 1, budget);
    forall j: nat | j <= budget && Accepted(s, j) >= size
      ensures exists i: nat :: i < j && GivesUp(s(i))
    {
      if j <= k {
        AcceptedGrows(s, j, k);
      }
    }
  }

  lemma {:induction false} StillTaking(size: nat, s: Schedule, budget: nat)
    requires Reaches(size, s, budget)
    ensures !TakesAll(size, s, budget) && forall k: nat :: k < budget ==> !GivesUp(s(k))
  {
    forall j: nat | j <= budget
      ensures Accepted(s, j) < size
    {
      AcceptedGrows(s, j, budget);
    }
  }

  lemma {:induction false} AcceptedGrows(s: Schedule, j: nat, k: nat)
    requires j <= k
    ensures Accepted(s, j) <= Accepted(s, k)
  {
    if j < k {
      AcceptedGrows(s, j, k - 1);
    }
  }

  /** Attempt `from` is reached, and from there on the channel takes nothing without asking for patience. */
  ghost predicate IdleFrom(size: nat, s: Schedule, from: nat) {
    Reaches(size, s, from) && forall j: nat :: j >= from ==> Idles(s(j))
  }

  /**
    Exactly when `send_input` fails to return: the channel neither fails, nor blocks past the timeout, nor
    takes all the bytes before some attempt, and from then on reports nothing but writes of zero bytes. Such
    a write neither makes progress nor looks at the clock.
  */
  lemma {:induction false} EndlessIffIdleForever(size: nat, s: Schedule)
    requires Ticks(s)
    ensures Endless(size, s) <==> exists from: nat :: IdleFrom(size, s, from)
  {
    if Endless(size, s) {
      var from := EndlessIdles(size, s, 0, Left(size, s, 0));
      WritingIffReaches(size, s, from);
      assert IdleFrom(size, s, from);
    }
    if from: nat :| IdleFrom(size, s, from) {
      IdleIsEndless(size, s, from);
    }
  }

  lemma {:induction false} IdleIsEndless(size: nat, s: Schedule, from: nat)
    requires IdleFrom(size, s, from)
    ensures Endless(size, s)
  {
    WritingIffReaches(size, s, from);
    forall k: nat
      ensures After(size, s, k).Writing?
    {
      if k <= from {
        WasWriting(size, s, k, from);
      } else {
        IdlingGoesOn(size, s, from, k);
      }
    }
  }

  const NOTHING_TAKEN: Schedule := (k: nat) => Attempt(Wrote(0), k)

  /** A single byte is never sent to a channel that keeps taking none. */
  lemma {:induction false} NothingTakenIsEndless()
    ensures Ticks(NOTHING_TAKEN) && Endless(1, NOTHING_TAKEN)
  {
    assert IdleFrom(1, NOTHING_TAKEN, 0);
    EndlessIffIdleForever(1, NOTHING_TAKEN);
  }

  /** With a channel that never reports a write of nothing, the call returns after this many attempts. */
  lemma {:induction false} ProgressEnds(size: nat, s: Schedule)
    requires Ticks(s) && forall k: nat :: !Idles(s(k))
    ensures !After(size, s, size + TIMEOUT + 2).Writing?
  {
    var bound := size + TIMEOUT + 2;
    if After(size, s, bound).Writing? {
      LeftAfter(size, s, bound);
    }
  }

  lemma {:induction false} LeftAfter(size: nat, s: Schedule, k: nat)
    requires Ticks(s) && (forall j: nat :: !Idles(s(j))) && After(size, s, k).Writing?
    ensures Left(size, s, k) + k <= size + TIMEOUT + 1
  {
    if k > 0 {
      LeftAfter(size, s, k - 1);
    }
  }
}
