/**
  The thread that shuttles bytes between the local socket and the jump host's direct-tcpip channel
  (section 7.2 of RFC 4254), both ways through one buffer (rust/src/api/ssh.rs:125-170).
*/
module Pump {
  import opened Collections
  import Utf8

  type byte = Utf8.byte

  const BUFFER := 8192

  /** What a read may do. */
  datatype Read = Data(bytes: seq<byte>) | Eof | WouldBlock | Failed {
    predicate Possible() {
      Data? ==> 0 < |bytes| <= BUFFER
    }
  }

  /** What writing a whole chunk may do: deliver it, or fail after a part of it. */
  datatype Write = Whole | Part(n: nat)

  /** What the streams do in one turn of the loop; a part that is not reached goes unused. */
  datatype Turn = Turn(localRead: Read, channelWrite: Write, channelRead: Read, localWrite: Write) {
    predicate Possible() {
      localRead.Possible() && channelRead.Possible()
    }
  }

  /** One direction: the bytes taken from the one side and those delivered to the other. */
  datatype Link = Link(taken: seq<byte>, delivered: seq<byte>) {
    ghost predicate Level() {
      taken == delivered
    }

    /** What is delivered is what was taken, up to a missing end of at most one buffer. */
    ghost predicate Short() {
      delivered <= taken && |taken| - |delivered| <= BUFFER
    }
  }

  datatype Links = Links(up: Link, down: Link)

  const NOTHING := Links(Link([], []), Link([], []))

  /** One direction of a turn: the link after it, and whether the loop goes on. */
  function Shuttle(link: Link, read: Read, write: Write): (Link, bool) {
    match read
    case Eof => (link, false)
    case Failed => (link, false)
    case WouldBlock => (link, true)
    case Data(bytes) =>
      var sent := if write.Part? && write.n < |bytes| then bytes[..write.n] else bytes;
      (Link(link.taken + bytes, link.delivered + sent), write.Whole?)
  }

  function TakeTurn(links: Links, turn: Turn): (Links, bool) {
    var (up, on) := Shuttle(links.up, turn.localRead, turn.channelWrite);
    if !on then (links.(up := up), false)
    else
      var (down, on) := Shuttle(links.down, turn.channelRead, turn.localWrite);
      (Links(up, down), on)
  }

  /** The links after the turns, and whether the loop is still running. */
  function Run(turns: seq<Turn>): (Links, bool) {
    if turns == [] then (NOTHING, true)
    else
      var (links, running) := Run(turns[..|turns| - 1]);
      if running then TakeTurn(links, Last(turns)) else (links, false)
  }

  /** All bytes the local side, or the channel, gives in the turns. */
  function LocalBytes(turns: seq<Turn>): seq<byte> {
    if turns == [] then []
    else LocalBytes(turns[..|turns| - 1]) + if Last(turns).localRead.Data? then Last(turns).localRead.bytes else []
  }

  function ChannelBytes(turns: seq<Turn>): seq<byte> {
    if turns == [] then []
    else ChannelBytes(turns[..|turns| - 1]) + if Last(turns).channelRead.Data? then Last(turns).channelRead.bytes else []
  }

  ghost predicate Possible(turns: seq<Turn>) {
    forall i :: 0 <= i < |turns| ==> turns[i].Possible()
  }

  /**
    Conservation, in every schedule of reads and writes. As long as the loop runs, each side has been given
    exactly all the bytes the other side gave, in order; when it has ended, each side has been given a prefix
    of what was taken for it, at most one of the two is short, and by no more than one buffer.
  */
  lemma {:induction false} Conservation(turns: seq<Turn>)
    requires Possible(turns)
    ensures var (links, running) := Run(turns);
            && (running ==>
                  && links.up == Link(LocalBytes(turns), LocalBytes(turns))
                  && links.down == Link(ChannelBytes(turns), ChannelBytes(turns)))
            && links.up.Short() && links.down.Short()
            && (links.up.Level() || links.down.Level())
  {
    if turns != [] {
      Conservation(turns[..|turns| - 1]);
      var (links, running) := Run(turns[..|turns| - 1]);
      assert Last(turns).Possible();
      if running {
        ShuttleConserves(links.up, Last(turns).localRead, Last(turns).channelWrite);
        ShuttleConserves(links.down, Last(turns).channelRead, Last(turns).localWrite);
      }
    }
  }

  lemma {:induction false} ShuttleConserves(link: Link, read: Read, write: Write)
    requires read.Possible() && link.Level()
    ensures var (after, on) := Shuttle(link, read, write);
            && after.Short()
            && (on ==> after.Level() && after.taken == link.taken + if read.Data? then read.bytes else [])
            && link.taken <= after.taken
  {
    if read.Data? {
      var bytes := read.bytes;
      var sent := if write.Part? && write.n < |bytes| then bytes[..write.n] else bytes;
      assert sent <= bytes && link.taken + bytes == (link.taken + sent) + bytes[|sent|..];
    } else {
      assert link.taken + [] == link.taken;
    }
  }

  // ---- When the loop ends, and with what ----

  /** The streams end the loop: the one side is at its end or fails, or the other does not take a whole chunk. */
  predicate Ends(read: Read, write: Write) {
    read.Eof? || read.Failed? || (read.Data? && write != Whole)
  }

  /** The loop comes to turn `i`: in no turn before it does either direction end it. */
  predicate ComesTo(turns: seq<Turn>, i: nat)
    requires i <= |turns|
  {
    forall j :: 0 <= j < i ==>
      && !Ends(turns[j].localRead, turns[j].channelWrite)
      && !Ends(turns[j].channelRead, turns[j].localWrite)
  }

  /** Of the `n` bytes of a chunk, how many a write delivers. */
  function Reach(write: Write, n: nat): nat {
    if write.Part? && write.n < n then write.n else n
  }

  /** What a side has been given when this read and write are its last: all before, and what of the chunk went out. */
  ghost predicate GivenUpTo(link: Link, before: seq<byte>, read: Read, write: Write) {
    var chunk := if read.Data? then read.bytes else [];
    link.taken == before + chunk && link.delivered == before + chunk[..Reach(write, |chunk|)]
  }

  /** The loop ended in turn `i`, on the way up or, after that, on the way down. */
  ghost predicate EndedIn(links: Links, turns: seq<Turn>, i: nat)
    requires i < |turns|
  {
    var turn, up, down := turns[i], LocalBytes(turns[..i]), ChannelBytes(turns[..i]);
    && GivenUpTo(links.up, up, turn.localRead, turn.channelWrite)
    && if Ends(turn.localRead, turn.channelWrite) then links.down == Link(down, down)
       else Ends(turn.channelRead, turn.localWrite) && GivenUpTo(links.down, down, turn.channelRead, turn.localWrite)
  }

  /**
    The streams alone decide. The loop still runs iff in no turn a side was at its end, failed, or took less
    than a chunk; a read with nothing there does not end it. Once it has ended, that was in the first such
    turn: what was read up to there has been taken, what was written of it delivered, and nothing after.
  */
  lemma {:induction false} StreamsDecide(turns: seq<Turn>)
    ensures Run(turns).1 <==> ComesTo(turns, |turns|)
    ensures Run(turns).1 ==> Run(turns).0.up == Link(LocalBytes(turns), LocalBytes(turns))
                             && Run(turns).0.down == Link(ChannelBytes(turns), ChannelBytes(turns))
    ensures !Run(turns).1 ==> exists i :: 0 <= i < |turns| && ComesTo(turns, i) && EndedIn(Run(turns).0, turns, i)
  {
    if turns != [] {
      var before, n := turns[..|turns| - 1], |turns| - 1;
      StreamsDecide(before);
      assert ComesTo(before, n) <==> ComesTo(turns, n);
      if Run(before).1 {
        LastTurn(turns);
      } else {
        var i :| 0 <= i < n && ComesTo(before, i) && EndedIn(Run(before).0, before, i);
        assert before[..i] == turns[..i] && ComesTo(turns, i) && EndedIn(Run(turns).0, turns, i);
      }
    }
  }

  lemma {:induction false} LastTurn(turns: seq<Turn>)
    requires turns != []
    requires var before := turns[..|turns| - 1];
             Run(before) == (Links(Link(LocalBytes(before), LocalBytes(before)),
                                   Link(ChannelBytes(before), ChannelBytes(before))), true)
    ensures var turn, links := Last(turns), Run(turns).0;
            var ends := Ends(turn.localRead, turn.channelWrite) || Ends(turn.channelRead, turn.localWrite);
            && (Run(turns).1 <==> !ends)
            && (ends ==> EndedIn(links, turns, |turns| - 1))
            && (!ends ==> links.up == Link(LocalBytes(turns), LocalBytes(turns))
                          && links.down == Link(ChannelBytes(turns), ChannelBytes(turns)))
  {
    var before, turn := turns[..|turns| - 1], Last(turns);
    var up, down := LocalBytes(before), ChannelBytes(before);
    ShuttleGives(up, turn.localRead, turn.channelWrite);
    ShuttleGives(down, turn.channelRead, turn.localWrite);
  }

  lemma {:induction false} ShuttleGives(before: seq<byte>, read: Read, write: Write)
    ensures var (after, on) := Shuttle(Link(before, before), read, write);
            && (on <==> !Ends(read, write))
            && GivenUpTo(after, before, read, write)
            && (on ==> after.delivered == after.taken)
  {
    if read.Data? {
      assert read.bytes[..|read.bytes|] == read.bytes;
    } else {
      assert before + [] == before;
    }
  }

  /** A read puts its bytes at the front of the buffer, over whatever the other direction left there. */
  method ReadInto(buf: array<byte>, bytes: seq<byte>) returns (n: nat)
    requires |bytes| <= buf.Length
    modifies buf
    ensures n == |bytes| && buf[..n] == bytes && buf[n..] == old(buf[n..])
  {
    n := |bytes|;
    for i := 0 to n
      invariant buf[..i] == bytes[..i] && buf[n..] == old(buf[n..])
    {
      buf[i] := bytes[i];
    }
  }

  /** One direction of a turn, through the shared buffer. */
  method ShuttleThrough(buf: array<byte>, link: Link, read: Read, write: Write) returns (after: Link, on: bool)
    requires buf.Length == BUFFER && read.Possible()
    modifies buf
    ensures (after, on) == Shuttle(link, read, write)
    ensures on <==> !Ends(read, write)
  {
    match read {
      case Eof => return link, false;
      case Failed => return link, false;
      case WouldBlock => return link, true;
      case Data(bytes) =>
        var n := ReadInto(buf, bytes);
        var sent := if write.Part? && write.n < n then write.n else n;
        assert buf[..sent] == bytes[..sent] && bytes[..n] == bytes;
        after, on := Link(link.taken + buf[..n], link.delivered + buf[..sent]), write.Whole?;
    }
  }

  /** The loop, for as many turns as the schedule tells. */
  method RunPump(turns: seq<Turn>) returns (links: Links, running: bool)
    requires Possible(turns)
    ensures (links, running) == Run(turns)
    ensures links.up.Short() && links.down.Short() && (links.up.Level() || links.down.Level())
    ensures running <==> ComesTo(turns, |turns|)
    ensures running ==> links.up == Link(LocalBytes(turns), LocalBytes(turns))
                        && links.down == Link(ChannelBytes(turns), ChannelBytes(turns))
    ensures !running ==> exists i :: 0 <= i < |turns| && ComesTo(turns, i) && EndedIn(links, turns, i)
  {
    var buf := new byte[BUFFER](i => 0);
    links, running := NOTHING, true;
    var i := 0;
    while i < |turns| && running
      invariant i <= |turns| && (links, running) == Run(turns[..i])
    {
      TakeOneMore(turns, i + 1);
      assert turns[..i + 1][..i] == turns[..i] && Last(turns[..i + 1]) == turns[i];
      var up, on := ShuttleThrough(buf, links.up, turns[i].localRead, turns[i].channelWrite);
      if on {
        var down, on' := ShuttleThrough(buf, links.down, turns[i].channelRead, turns[i].localWrite);
        links, running := Links(up, down), on';
      } else {
        links, running := links.(up := up), false;
      }
      i := i + 1;
    }
    RunStops(turns, i);
    Conservation(turns);
    StreamsDecide(turns);
    assert turns[..|turns|] == turns;
  }

  /** Once the loop has ended, the rest of a schedule goes unused. */
  lemma {:induction false} RunStops(turns: seq<Turn>, i: nat)
    requires i <= |turns| && (!Run(turns[..i]).1 || i == |turns|)
    ensures Run(turns) == Run(turns[..i])
  {
    if i == |turns| {
      assert turns[..i] == turns;
    } else {
      assert turns[..|turns| - 1][..i] == turns[..i];
      RunStops(turns[..|turns| - 1], i);
    }
  }
}
