/**
  The three slots of an SSH connection, what fills them and what empties them
  (rust/src/api/ssh.rs:52-78, 192-195, 302-326, 269-287, 420-436).
*/
module Teardown {
  import opened Collections

  /**
    A session and a channel are known by their number in the order they were made. The logs tell what was
    closed and disconnected and, for a slot filled again, what was thrown out without either.
  */
  datatype State = State(
    session: Option<nat>, jump: Option<nat>, shell: Option<nat>,
    sessions: nat, channels: nat,
    closed: seq<nat>, disconnected: seq<nat>,
    lostSessions: seq<nat>, lostChannels: seq<nat>)

  const FRESH := State(None, None, None, 0, 0, [], [], [], [])

  /** `works` says whether the network, the other side and the vault do their part. */
  datatype Op =
    | Connect(viaJumpHost: bool, works: bool)
    | OpenShell(works: bool)
    | CloseShell
    | Disconnect(works: bool)

  function Listed(slot: Option<nat>): seq<nat> {
    if slot.Some? then [slot.value] else []
  }

  function Closed(s: State): State {
    s.(shell := None, closed := s.closed + Listed(s.shell))
  }

  function Apply(s: State, op: Op): State {
    match op
    case Connect(viaJumpHost, works) =>
      if !works then s
      else if viaJumpHost then
        s.(jump := Some(s.sessions), session := Some(s.sessions + 1), sessions := s.sessions + 2,
           lostSessions := s.lostSessions + Listed(s.jump) + Listed(s.session))
      else
        s.(session := Some(s.sessions), sessions := s.sessions + 1, lostSessions := s.lostSessions + Listed(s.session))
    case OpenShell(works) =>
      if s.session.None? || !works then s
      else s.(shell := Some(s.channels), channels := s.channels + 1, lostChannels := s.lostChannels + Listed(s.shell))
    case CloseShell => Closed(s)
    case Disconnect(works) =>
      var s := Closed(s);
      var left := s.(session := None, disconnected := s.disconnected + Listed(s.session));
      if s.session.Some? && !works then left
      else left.(jump := None, disconnected := left.disconnected + Listed(s.jump))
  }

  /** `Drop` disconnects and ignores the outcome. */
  function Run(ops: seq<Op>): State {
    if ops == [] then FRESH else Apply(Run(ops[..|ops| - 1]), Last(ops))
  }

  // ---- Where every session and channel is ----

  function In(slot: Option<nat>, h: nat): nat {
    if slot == Some(h) then 1 else 0
  }

  /** In how many places channel `h` is. */
  ghost function Channels(s: State, h: nat): nat {
    multiset(s.closed)[h] + multiset(s.lostChannels)[h] + In(s.shell, h)
  }

  ghost function Sessions(s: State, h: nat): nat {
    multiset(s.disconnected)[h] + multiset(s.lostSessions)[h] + In(s.session, h) + In(s.jump, h)
  }

  /**
    Each session ever stored is in one place only, a slot, the disconnected or the overwritten; likewise
    each channel.
  */
  ghost predicate Accounted(s: State) {
    forall h: nat ::
      && Channels(s, h) == (if h < s.channels then 1 else 0)
      && Sessions(s, h) == (if h < s.sessions then 1 else 0)
  }

  lemma {:induction false} Logged(log: seq<nat>, slot: Option<nat>, h: nat)
    ensures multiset(log + Listed(slot))[h] == multiset(log)[h] + In(slot, h)
  {
  }

  lemma {:induction false} ApplyKeepsAccounts(s: State, op: Op)
    requires Accounted(s)
    ensures Accounted(Apply(s, op))
  {
    forall h: nat
      ensures Channels(Apply(s, op), h) == (if h < Apply(s, op).channels then 1 else 0)
      ensures Sessions(Apply(s, op), h) == (if h < Apply(s, op).sessions then 1 else 0)
    {
      assert Channels(s, h) == if h < s.channels then 1 else 0;
      match op
      case Connect(_, _) => ConnectMoves(s, op, h);
      case OpenShell(_) => Logged(s.lostChannels, s.shell, h);
      case CloseShell => Logged(s.closed, s.shell, h);
      case Disconnect(_) => DisconnectMoves(s, op, h);
    }
  }

  lemma {:induction false} ConnectMoves(s: State, op: Op, h: nat)
    requires op.Connect? && Sessions(s, h) == if h < s.sessions then 1 else 0
    ensures var next := Apply(s, op);
            && Sessions(next, h) == (if h < next.sessions then 1 else 0)
            && Channels(next, h) == Channels(s, h) && next.channels == s.channels
  {
    Logged(s.lostSessions, if op.viaJumpHost then s.jump else s.session, h);
    Logged(s.lostSessions + Listed(s.jump), s.session, h);
  }

  lemma {:induction false} DisconnectMoves(s: State, op: Op, h: nat)
    requires op.Disconnect?
    ensures var next := Apply(s, op);
            && Sessions(next, h) == Sessions(s, h) && next.sessions == s.sessions
            && Channels(next, h) == Channels(s, h) && next.channels == s.channels
  {
    Logged(s.closed, s.shell, h);
    SessionsMove(s, op, h);
  }

  lemma {:induction false} SessionsMove(s: State, op: Op, h: nat)
    requires op.Disconnect?
    ensures Sessions(Apply(s, op), h) == Sessions(s, h)
  {
    Logged(s.disconnected, s.session, h);
    Logged(s.disconnected + Listed(s.session), s.jump, h);
  }

  lemma {:induction false} RunsKeepAccounts(ops: seq<Op>)
    ensures Accounted(Run(ops))
  {
    if ops != [] {
      RunsKeepAccounts(ops[..|ops| - 1]);
      ApplyKeepsAccounts(Run(ops[..|ops| - 1]), Last(ops));
    }
  }

  /** No channel is closed twice, and no session disconnected twice, over any run. */
  lemma {:induction false} NothingTwice(ops: seq<Op>)
    ensures NoDup(Run(ops).closed) && NoDup(Run(ops).disconnected)
  {
    var s := Run(ops);
    RunsKeepAccounts(ops);
    forall h: nat
      ensures multiset(s.closed)[h] <= 1 && multiset(s.disconnected)[h] <= 1
    {
      assert Channels(s, h) <= 1;
    }
    OnceIsNoDup(s.closed);
    OnceIsNoDup(s.disconnected);
  }

  lemma {:induction false} OnceIsNoDup(xs: seq<nat>)
    requires forall x: nat :: multiset(xs)[x] <= 1
    ensures NoDup(xs)
  {
    forall i, j | 0 <= i < j < |xs|
      ensures xs[i] != xs[j]
    {
      if xs[i] == xs[j] {
        Twice(xs, i, j);
      }
    }
  }

  lemma {:induction false} Twice(xs: seq<nat>, i: nat, j: nat)
    requires i < j < |xs| && xs[i] == xs[j]
    ensures multiset(xs)[xs[i]] >= 2
  {
    assert xs == xs[..i] + [xs[i]] + xs[i + 1..j] + [xs[j]] + xs[j + 1..];
  }

  // ---- What is in the slots ----

  /** Call `i` of the run put a session in its slot, and no disconnect came after it. */
  ghost predicate HoldsSession(ops: seq<Op>, i: nat) {
    && i < |ops| && ops[i].Connect? && ops[i].works
    && forall j :: i < j < |ops| ==> !ops[j].Disconnect?
  }

  /** There is a session after these calls. */
  ghost predicate Connected(ops: seq<Op>) {
    exists i :: HoldsSession(ops, i)
  }

  /** Call `i` opened a shell, on a session, and nothing has closed it since. */
  ghost predicate HoldsShell(ops: seq<Op>, i: nat) {
    && i < |ops| && ops[i] == OpenShell(true) && Connected(ops[..i])
    && forall j :: i < j < |ops| ==> !ops[j].CloseShell? && !ops[j].Disconnect?
  }

  /** A disconnect that gets as far as the jump session: there is no session, or its own disconnect works. */
  ghost predicate GetsToJump(ops: seq<Op>, j: nat)
    requires j < |ops|
  {
    ops[j].Disconnect? && (ops[j].works || !Connected(ops[..j]))
  }

  /** Call `i` connected through a jump host, and no disconnect has got as far as that since. */
  ghost predicate HoldsJump(ops: seq<Op>, i: nat) {
    && i < |ops| && ops[i] == Connect(true, true)
    && forall j :: i < j < |ops| ==> !GetsToJump(ops, j)
  }

  /**
    The slots after every run, by the calls alone. Each is full iff a call filled it and no later one emptied
    it, and it then holds what was made last.
  */
  ghost predicate SlotsTell(ops: seq<Op>, s: State) {
    && (s.session.Some? <==> Connected(ops))
    && (s.session.Some? ==> s.session.value + 1 == s.sessions)
    && (s.shell.Some? <==> exists i :: HoldsShell(ops, i))
    && (s.shell.Some? ==> s.shell.value + 1 == s.channels)
    && (s.jump.Some? <==> exists i :: HoldsJump(ops, i))
  }

  lemma {:induction false} SlotsAfterRun(ops: seq<Op>)
    ensures SlotsTell(ops, Run(ops))
  {
    if ops != [] {
      var before, op := ops[..|ops| - 1], Last(ops);
      SlotsAfterRun(before);
      SessionSlot(before, op);
      ShellSlot(before, op);
      JumpSlot(before, op);
      assert ops == before + [op];
    }
  }

  lemma {:induction false} SessionSlot(ops: seq<Op>, op: Op)
    ensures Connected(ops + [op]) <==> (op.Connect? && op.works) || (!op.Disconnect? && Connected(ops))
  {
    var more := ops + [op];
    assert more[|ops|] == op && forall j :: 0 <= j < |ops| ==> more[j] == ops[j];
    if i: nat :| HoldsSession(more, i) {
      if i < |ops| {
        assert HoldsSession(ops, i) && !more[|ops|].Disconnect?;
      }
    }
    if op.Connect? && op.works {
      assert HoldsSession(more, |ops|);
    }
    if i: nat :| HoldsSession(ops, i) && !op.Disconnect? {
      assert HoldsSession(more, i);
    }
  }

  lemma {:induction false} ShellSlot(ops: seq<Op>, op: Op)
    ensures (exists i :: HoldsShell(ops + [op], i))
       <==> (op == OpenShell(true) && Connected(ops))
            || (!op.CloseShell? && !op.Disconnect? && exists i :: HoldsShell(ops, i))
  {
    var more := ops + [op];
    assert more[..|ops|] == ops && more[|ops|] == op;
    forall i | 0 <= i <= |ops|
      ensures more[..i] == ops[..i]
    {
    }
    if i: nat :| HoldsShell(more, i) {
      if i < |ops| {
        assert HoldsShell(ops, i);
      }
    }
    if op == OpenShell(true) && Connected(ops) {
      assert HoldsShell(more, |ops|);
    }
    if i: nat :| HoldsShell(ops, i) && !op.CloseShell? && !op.Disconnect? {
      assert HoldsShell(more, i);
    }
  }

  lemma {:induction false} JumpSlot(ops: seq<Op>, op: Op)
    ensures (exists i :: HoldsJump(ops + [op], i))
       <==> op == Connect(true, true)
            || (!(op.Disconnect? && (op.works || !Connected(ops))) && exists i :: HoldsJump(ops, i))
  {
    var more := ops + [op];
    assert more[..|ops|] == ops && more[|ops|] == op;
    forall j | 0 <= j < |ops|
      ensures GetsToJump(more, j) <==> GetsToJump(ops, j)
    {
      assert more[..j] == ops[..j];
    }
    if i: nat :| HoldsJump(more, i) {
      if i < |ops| {
        assert HoldsJump(ops, i) && !GetsToJump(more, |ops|);
      }
    }
    if op == Connect(true, true) {
      assert HoldsJump(more, |ops|);
    }
    if i: nat :| HoldsJump(ops, i) && !(op.Disconnect? && (op.works || !Connected(ops))) {
      assert HoldsJump(more, i);
    }
  }

  /** Call `i` stores a shell channel where there is one already. */
  ghost predicate FillsShellOver(ops: seq<Op>, i: nat)
    requires i < |ops|
  {
    ops[i] == OpenShell(true) && Connected(ops[..i]) && exists k :: HoldsShell(ops[..i], k)
  }

  /** Call `i` stores a session, or a jump session, where there is one already. */
  ghost predicate FillsSessionOver(ops: seq<Op>, i: nat)
    requires i < |ops|
  {
    && ops[i].Connect? && ops[i].works
    && (Connected(ops[..i]) || (ops[i].viaJumpHost && exists k :: HoldsJump(ops[..i], k)))
  }

  /**
    Nothing is thrown out without being closed, unless a slot is filled over; so all else that is no longer in
    a slot has been closed or disconnected (`Accounted`).
  */
  lemma {:induction false} LostIffFilledOver(ops: seq<Op>)
    ensures Run(ops).lostChannels == [] <==> forall i :: 0 <= i < |ops| ==> !FillsShellOver(ops, i)
    ensures Run(ops).lostSessions == [] <==> forall i :: 0 <= i < |ops| ==> !FillsSessionOver(ops, i)
  {
    if ops != [] {
      var before, last := ops[..|ops| - 1], |ops| - 1;
      LostIffFilledOver(before);
      LastFillsOver(ops);
      forall i | 0 <= i < last
        ensures FillsShellOver(ops, i) <==> FillsShellOver(before, i)
        ensures FillsSessionOver(ops, i) <==> FillsSessionOver(before, i)
      {
        assert ops[..i] == before[..i];
      }
    }
  }

  lemma {:induction false} LastFillsOver(ops: seq<Op>)
    requires ops != []
    ensures var before, after := Run(ops[..|ops| - 1]), Run(ops);
            && (after.lostChannels == [] <==> before.lostChannels == [] && !FillsShellOver(ops, |ops| - 1))
            && (after.lostSessions == [] <==> before.lostSessions == [] && !FillsSessionOver(ops, |ops| - 1))
  {
    SlotsAfterRun(ops[..|ops| - 1]);
    assert Last(ops) == ops[|ops| - 1];
    var before, op := Run(ops[..|ops| - 1]), Last(ops);
    assert before.lostSessions + Listed(before.jump) + Listed(before.session) == []
      <==> before.lostSessions == [] && before.jump == None && before.session == None;
    assert before.lostSessions + Listed(before.session) == [] <==> before.lostSessions == [] && before.session == None;
    assert before.lostChannels + Listed(before.shell) == [] <==> before.lostChannels == [] && before.shell == None;
  }

  // ---- What Drop leaves ----

  /**
    After `Drop` the channel is closed and the session disconnected, whatever came before. The jump
    session is left in its slot exactly when there is one and the session's own disconnect fails.
  */
  lemma {:induction false} DropEmptiesExactly(ops: seq<Op>, works: bool)
    ensures var before, after := Run(ops), Run(ops + [Disconnect(works)]);
            && after.shell == None && after.session == None
            && after.closed == before.closed + Listed(before.shell)
            && (after.jump.Some? <==> before.jump.Some? && before.session.Some? && !works)
            && (after.jump == None
                <==> after.disconnected == before.disconnected + Listed(before.session) + Listed(before.jump))
  {
    assert (ops + [Disconnect(works)])[..|ops|] == ops;
  }

  /** A connection through a jump host whose only disconnect is a `Drop` that fails. */
  lemma {:induction false} DropLeavesJump()
    ensures Run([Connect(true, true), Disconnect(false)]).jump == Some(0)
    ensures 0 !in Run([Connect(true, true), Disconnect(false)]).disconnected
  {
    var connected := [Connect(true, true)];
    assert connected[..0] == [] && Run(connected) == Apply(FRESH, Connect(true, true));
    assert [Connect(true, true), Disconnect(false)][..1] == connected;
  }

  /** Neither call stores anything in a slot. */
  predicate OnlyCloses(ops: seq<Op>) {
    forall i :: 0 <= i < |ops| ==> ops[i].CloseShell? || ops[i].Disconnect?
  }

  /**
    All three slots end empty, and nothing is left undone, if a disconnect, failing or not, comes before the
    final `Drop` with nothing stored in between: what the first leaves, the second takes.
  */
  lemma {:induction false} SecondDisconnectEmptiesAll(ops: seq<Op>, first: bool, closes: seq<Op>, last: bool)
    requires OnlyCloses(closes)
    ensures var before, after := Run(ops), Run(ops + [Disconnect(first)] + closes + [Disconnect(last)]);
            && after.shell == None && after.session == None && after.jump == None
            && after.closed == before.closed + Listed(before.shell)
            && after.disconnected == before.disconnected + Listed(before.session) + Listed(before.jump)
  {
    var some := ops + [Disconnect(first)];
    assert some[..|ops|] == ops;
    ClosesEmptyJumpAtMost(some, closes);
    assert (some + closes + [Disconnect(last)])[..|some + closes|] == some + closes;
  }

  lemma {:induction false} ClosesEmptyJumpAtMost(ops: seq<Op>, closes: seq<Op>)
    requires OnlyCloses(closes) && Run(ops).shell == None && Run(ops).session == None
    ensures var before, after := Run(ops), Run(ops + closes);
            && after.shell == None && after.session == None && after.closed == before.closed
            && after.disconnected + Listed(after.jump) == before.disconnected + Listed(before.jump)
            && (after.jump == before.jump || after.jump == None)
  {
    if closes == [] {
      assert ops + closes == ops;
    } else {
      var fewer := closes[..|closes| - 1];
      assert (ops + closes)[..|ops + closes| - 1] == ops + fewer && Last(ops + closes) == Last(closes);
      ClosesEmptyJumpAtMost(ops, fewer);
    }
  }

  // ---- The object ----

  /** The slots, and beside them what has become of what was in them. */
  class SshConnection {
    var session: Option<nat>
    var jumpSession: Option<nat>
    var shellChannel: Option<nat>
    var sessions: nat
    var channels: nat
    var closed: seq<nat>
    var disconnected: seq<nat>
    var lostSessions: seq<nat>
    var lostChannels: seq<nat>

    ghost function Now(): State
      reads this
    {
      State(session, jumpSession, shellChannel, sessions, channels, closed, disconnected, lostSessions, lostChannels)
    }

    constructor ()
      ensures Now() == FRESH
    {
      session, jumpSession, shellChannel := None, None, None;
      sessions, channels := 0, 0;
      closed, disconnected, lostSessions, lostChannels := [], [], [], [];
    }

    method Connect(viaJumpHost: bool, works: bool) returns (ok: bool)
      modifies this
      ensures Now() == Apply(old(Now()), Op.Connect(viaJumpHost, works))
      ensures ok ==> session.Some?
      ensures !ok ==> Now() == old(Now())
    {
      if !works {
        return false;
      }
      if viaJumpHost {
        lostSessions := lostSessions + Listed(jumpSession) + Listed(session);
        jumpSession := Some(sessions);
        session := Some(sessions + 1);
        sessions := sessions + 2;
      } else {
        lostSessions := lostSessions + Listed(session);
        session := Some(sessions);
        sessions := sessions + 1;
      }
      ok := true;
    }

    method OpenShell(works: bool) returns (ok: bool)
      modifies this
      ensures Now() == Apply(old(Now()), Op.OpenShell(works))
      ensures ok <==> session.Some? && works
    {
      if session.None? || !works {
        return false;
      }
      lostChannels := lostChannels + Listed(shellChannel);
      shellChannel := Some(channels);
      channels := channels + 1;
      ok := true;
    }

    method CloseShell()
      modifies this`shellChannel, this`closed
      ensures Now() == Apply(old(Now()), Op.CloseShell)
    {
      if shellChannel.Some? {
        closed := closed + [shellChannel.value];
        shellChannel := None;
      }
    }

    method Disconnect(works: bool) returns (ok: bool)
      modifies this
      ensures Now() == Apply(old(Now()), Op.Disconnect(works))
      ensures ok <==> old(session).None? || works
      ensures ok ==> jumpSession == None
    {
      CloseShell();
      if session.Some? {
        disconnected := disconnected + [session.value];
        session := None;
        if !works {
          return false;
        }
      }
      if jumpSession.Some? {
        disconnected := disconnected + [jumpSession.value];
        jumpSession := None;
      }
      ok := true;
    }

    /** `Drop` disregards what the disconnect says. */
    method Drop(works: bool)
      modifies this
      ensures Now() == Apply(old(Now()), Op.Disconnect(works))
    {
      var ok := Disconnect(works);
    }
  }
}
