/**
  The two halves' serializers: objects that write through a cursor and read through one. Each pair of
  generated routines is one method here; where the Rust and the Dart text differ, the method branches on
  `peer`.
*/
module Serializer {
  import opened Collections
  import opened Models
  import opened Wire
  import Utf8

  class SseSerializer {
    const peer: Peer
    const endian: Endian
    var out: seq<byte>

    constructor (peer: Peer, endian: Endian)
      ensures this.peer == peer && this.endian == endian && out == []
    {
      this.peer, this.endian, out := peer, endian, [];
    }

    method WriteByte(b: byte)
      modifies this
      ensures out == old(out) + [b]
    {
      out := out + [b];
    }

    method WriteUint(n: nat, width: nat)
      modifies this
      ensures out == old(out) + endian.Uint(n, width)
    {
      out := out + endian.Uint(n, width);
    }

    method WriteI32(x: int)
      modifies this
      ensures out == old(out) + endian.I32(x)
    {
      out := out + endian.I32(x);
    }

    method WriteBool(v: bool)
      modifies this
      ensures out == old(out) + endian.Bool(v)
    {
      WriteByte(if v then 1 else 0);
    }

    /** Rust writes byte after byte, Dart the whole list at once. */
    method WriteBytes(bytes: seq<byte>)
      modifies this
      ensures out == old(out) + (endian.I32(|bytes|) + bytes)
    {
      WriteI32(|bytes|);
      if peer.Rust? {
        for i := 0 to |bytes|
          invariant out == old(out) + endian.I32(|bytes|) + bytes[..i]
        {
          WriteByte(bytes[i]);
        }
        assert bytes[..|bytes|] == bytes;
      } else {
        out := out + bytes;
      }
    }

    method WriteText(s: string)
      modifies this
      ensures out == old(out) + endian.Text(s)
    {
      WriteBytes(Utf8.Encode(s));
    }

    method WriteOpt(s: Option<string>)
      modifies this
      ensures out == old(out) + endian.OptText(s)
    {
      ghost var flag := endian.Bool(s.Some?);
      Assoc(out, flag, if s.Some? then endian.Text(s.value) else []);
      assert out + flag + [] == out + flag;
      WriteBool(s.Some?);
      if s.Some? {
        WriteText(s.value);
      }
    }

    method WriteTexts(xs: seq<string>)
      modifies this
      ensures out == old(out) + endian.Texts(xs)
    {
      Assoc(out, endian.I32(|xs|), EncodeItems(endian.Text, xs));
      WriteI32(|xs|);
      ghost var start := out;
      for i := 0 to |xs|
        invariant out == start + EncodeItems(endian.Text, xs[..i])
      {
        ItemsGrow(endian.Text, xs, i);
        Assoc(start, EncodeItems(endian.Text, xs[..i]), endian.Text(xs[i]));
        WriteText(xs[i]);
      }
      assert xs[..|xs|] == xs;
    }

    method WriteProtocol(p: Protocol)
      modifies this
      ensures out == old(out) + endian.Code(p)
    {
      WriteI32(ProtocolCode(p));
    }

    method WriteFolder(f: Folder)
      modifies this
      ensures out == old(out) + endian.FolderBytes(f)
    {
      Assoc(out, endian.Text(f.id), endian.Text(f.name) + endian.OptText(f.parentId));
      Assoc(out + endian.Text(f.id), endian.Text(f.name), endian.OptText(f.parentId));
      WriteText(f.id);
      WriteText(f.name);
      WriteOpt(f.parentId);
    }

    method WriteConnection(c: Connection)
      modifies this
      ensures out == old(out) + endian.ConnectionBytes(c)
    {
      ConnectionInSteps(endian, out, c);
      WriteText(c.id);
      WriteText(c.name);
      WriteProtocol(c.protocol);
      WriteText(c.host);
      WriteUint(c.port, 2);
      WriteOpt(c.username);
      WriteOpt(c.password);
      WriteOpt(c.privateKeyPath);
      WriteOpt(c.privateKeyPassphrase);
      WriteOpt(c.folderId);
      WriteTexts(c.tags);
      WriteOpt(c.notes);
      WriteOpt(c.jumpHostId);
      WriteUint(c.timeoutSeconds, 8);
      WriteOpt(c.domain);
    }

    method WriteConnections(xs: seq<Connection>)
      modifies this
      ensures out == old(out) + endian.List(endian.ConnectionBytes, xs)
    {
      Assoc(out, endian.I32(|xs|), EncodeItems(endian.ConnectionBytes, xs));
      WriteI32(|xs|);
      ghost var start := out;
      for i := 0 to |xs|
        invariant out == start + EncodeItems(endian.ConnectionBytes, xs[..i])
      {
        ItemsGrow(endian.ConnectionBytes, xs, i);
        Assoc(start, EncodeItems(endian.ConnectionBytes, xs[..i]), endian.ConnectionBytes(xs[i]));
        WriteConnection(xs[i]);
      }
      assert xs[..|xs|] == xs;
    }

    method WriteFolders(xs: seq<Folder>)
      modifies this
      ensures out == old(out) + endian.List(endian.FolderBytes, xs)
    {
      Assoc(out, endian.I32(|xs|), EncodeItems(endian.FolderBytes, xs));
      WriteI32(|xs|);
      ghost var start := out;
      for i := 0 to |xs|
        invariant out == start + EncodeItems(endian.FolderBytes, xs[..i])
      {
        ItemsGrow(endian.FolderBytes, xs, i);
        Assoc(start, EncodeItems(endian.FolderBytes, xs[..i]), endian.FolderBytes(xs[i]));
        WriteFolder(xs[i]);
      }
      assert xs[..|xs|] == xs;
    }

    method WriteData(d: VaultData)
      modifies this
      ensures out == old(out) + endian.DataBytes(d)
    {
      Assoc(out, endian.List(endian.ConnectionBytes, d.connections), endian.List(endian.FolderBytes, d.folders));
      WriteConnections(d.connections);
      WriteFolders(d.folders);
    }
  }

  /** Writing the fields of a connection one after the other after `out` writes its bytes after `out`. */
  lemma {:induction false} ConnectionInSteps(e: Endian, out: seq<byte>, c: Connection)
    ensures out + e.Text(c.id) + e.Text(c.name) + e.Code(c.protocol) + e.Text(c.host) + e.Uint(c.port, 2)
            + e.OptText(c.username) + e.OptText(c.password) + e.OptText(c.privateKeyPath)
            + e.OptText(c.privateKeyPassphrase) + e.OptText(c.folderId)
            + e.Texts(c.tags) + e.OptText(c.notes) + e.OptText(c.jumpHostId) + e.Uint(c.timeoutSeconds, 8)
            + e.OptText(c.domain)
         == out + e.ConnectionBytes(c)
  {
    FiveInSteps(out, e.Text(c.id), e.Text(c.name), e.Code(c.protocol), e.Text(c.host), e.Uint(c.port, 2),
                e.SecretBytes(c));
    var out1 := out + e.Text(c.id) + e.Text(c.name) + e.Code(c.protocol) + e.Text(c.host) + e.Uint(c.port, 2);
    FiveInSteps(out1, e.OptText(c.username), e.OptText(c.password), e.OptText(c.privateKeyPath),
                e.OptText(c.privateKeyPassphrase), e.OptText(c.folderId), e.DetailBytes(c));
    var out2 := out1 + e.OptText(c.username) + e.OptText(c.password) + e.OptText(c.privateKeyPath)
                + e.OptText(c.privateKeyPassphrase) + e.OptText(c.folderId);
    Assoc(e.Uint(c.timeoutSeconds, 8), e.OptText(c.domain), []);
    assert e.OptText(c.domain) + [] == e.OptText(c.domain);
    FiveInSteps(out2, e.Texts(c.tags), e.OptText(c.notes), e.OptText(c.jumpHostId), e.Uint(c.timeoutSeconds, 8),
                e.OptText(c.domain), []);
  }

  lemma {:induction false} FiveInSteps<T>(
    out: seq<T>, a: seq<T>, b: seq<T>, c: seq<T>, d: seq<T>, e: seq<T>, rest: seq<T>)
    ensures out + a + b + c + d + e + rest == out + (a + (b + (c + (d + (e + rest)))))
  {
    Assoc(out, a, b + (c + (d + (e + rest))));
    Assoc(out + a, b, c + (d + (e + rest)));
    Assoc(out + a + b, c, d + (e + rest));
    Assoc(out + a + b + c, d, e + rest);
    Assoc(out + a + b + c + d, e, rest);
  }

  lemma {:induction false} ItemsGrow<T>(encode: T -> seq<byte>, xs: seq<T>, i: nat)
    requires i < |xs|
    ensures EncodeItems(encode, xs[..i + 1]) == EncodeItems(encode, xs[..i]) + encode(xs[i])
  {
    if i > 0 {
      ItemsGrow(encode, xs[1..], i - 1);
      assert xs[..i + 1][1..] == xs[1..][..i] && xs[..i][1..] == xs[1..][..i - 1];
    } else {
      assert xs[..1][1..] == [] && xs[..0] == [];
    }
  }

  class SseDeserializer {
    const reader: Reader
    const data: seq<byte>
    var pos: nat

    constructor (reader: Reader, data: seq<byte>)
      ensures this.reader == reader && this.data == data && pos == 0
    {
      this.reader, this.data, pos := reader, data, 0;
    }

    ghost predicate Valid()
      reads this
    {
      pos <= |data|
    }

    ghost function Rest(): seq<byte>
      reads this
      requires Valid()
    {
      data[pos..]
    }

    /** `r` and the new position are what the specification `parsed` says; a failure leaves the position open. */
    ghost predicate Did<T>(parsed: Parsed<T>, r: Option<T>)
      reads this
    {
      && Valid()
      && (r.None? <==> parsed.None?)
      && (r.Some? ==> parsed == Some((r.value, Rest())))
    }

    method ReadUint(width: nat) returns (r: Option<nat>)
      requires Valid()
      modifies this
      ensures Did(reader.Uint(width, old(Rest())), r)
    {
      if |data| - pos < width {
        return None;
      }
      var b := data[pos..pos + width];
      assert b == old(Rest())[..width];
      pos := pos + width;
      r := Some(if reader.endian.Little? then LittleValue(b) else BigValue(b));
    }

    method ReadI32() returns (r: Option<int>)
      requires Valid()
      modifies this
      ensures Did(reader.I32(old(Rest())), r)
    {
      var n :- ReadUint(4);
      r := Some(if n < LIMIT then n else n - 0x1_0000_0000);
    }

    method ReadU16() returns (r: Option<u16>)
      requires Valid()
      modifies this
      ensures Did(reader.U16(old(Rest())), r)
    {
      ghost var u := reader.U16(Rest());
      var n :- ReadUint(2);
      r := Some(n);
    }

    method ReadU64() returns (r: Option<u64>)
      requires Valid()
      modifies this
      ensures Did(reader.U64(old(Rest())), r)
    {
      ghost var u := reader.U64(Rest());
      var n :- ReadUint(8);
      r := Some(n);
    }

    method ReadBool() returns (r: Option<bool>)
      requires Valid()
      modifies this
      ensures Did(reader.Bool(old(Rest())), r)
    {
      if pos == |data| {
        return None;
      }
      r := Some(data[pos] != 0);
      pos := pos + 1;
    }

    /** The next `n` bytes: Rust reads byte after byte, Dart cuts the list out of the buffer. */
    method ReadBytes(n: int) returns (r: Option<seq<byte>>)
      requires Valid()
      modifies this
      ensures Valid()
      ensures r.Some? <==> 0 <= n <= |old(Rest())|
      ensures r.Some? ==> old(Rest()) == r.value + Rest() && |r.value| == n
    {
      if n < 0 {
        return None;
      }
      if reader.peer.Rust? {
        var bytes := [];
        for i := 0 to n
          invariant Valid() && pos == old(pos) + i
          invariant bytes == data[old(pos)..pos]
        {
          if pos == |data| {
            return None;
          }
          bytes := bytes + [data[pos]];
          pos := pos + 1;
        }
        r := Some(bytes);
      } else if n <= |data| - pos {
        r := Some(data[pos..pos + n]);
        pos := pos + n;
      } else {
        r := None;
      }
    }

    method ReadText() returns (r: Option<string>)
      requires Valid()
      modifies this
      ensures Did(reader.Text(old(Rest())), r)
    {
      var n :- ReadI32();
      ghost var b1 := Rest();
      var bytes :- ReadBytes(n);
      assert b1[..n] == bytes && b1[n..] == Rest();
      var s :- Utf8.Decode(bytes);
      r := Some(reader.peer.Hears(s));
    }

    method ReadOpt() returns (r: Option<Option<string>>)
      requires Valid()
      modifies this
      ensures Did(reader.OptText(old(Rest())), r)
    {
      var present :- ReadBool();
      if present {
        var s :- ReadText();
        r := Some(Some(s));
      } else {
        r := Some(None);
      }
    }

    method ReadTexts() returns (r: Option<seq<string>>)
      requires Valid()
      modifies this
      ensures Did(reader.List(reader.Text, old(Rest())), r)
    {
      var n :- ReadI32();
      if n < 0 && reader.peer.Rust? {
        return None;
      }
      var items := if n < 0 then 0 else n;
      FromNothing(reader.Text, items, Rest());
      r := ReadTextItems(items);
    }

    method ReadTextItems(n: nat) returns (r: Option<seq<string>>)
      requires Valid()
      modifies this
      ensures Did(ReadOn(reader.Text, [], n, old(Rest())), r)
    {
      var answer: seq<string> := [];
      for i := 0 to n
        invariant Valid()
        invariant ReadOn(reader.Text, [], n, old(Rest())) == ReadOn(reader.Text, answer, n - i, Rest())
      {
        answer :- ReadTextItem(answer, n - i);
      }
      r := Some(answer);
    }

    method ReadTextItem(answer: seq<string>, ghost left: nat) returns (r: Option<seq<string>>)
      requires Valid() && left > 0
      modifies this
      ensures Valid()
      ensures ReadOn(reader.Text, answer, left, old(Rest()))
           == if r.None? then None else ReadOn(reader.Text, r.value, left - 1, Rest())
    {
      ReadOneMore(reader.Text, answer, left, Rest());
      var x :- ReadText();
      r := Some(answer + [x]);
    }

    method ReadProtocol() returns (r: Option<Protocol>)
      requires Valid()
      modifies this
      ensures Did(reader.Code(old(Rest())), r)
    {
      var n :- ReadI32();
      r := ProtocolOf(n);
    }

    method ReadFolder() returns (r: Option<Folder>)
      requires Valid()
      modifies this
      ensures Did(reader.FolderIn(old(Rest())), r)
    {
      var id :- ReadText();
      var name :- ReadText();
      var parentId :- ReadOpt();
      r := Some(Folder(id, name, parentId));
    }

    method ReadConnection() returns (r: Option<Connection>)
      requires Valid()
      modifies this
      ensures Did(reader.ConnectionIn(old(Rest())), r)
    {
      var id :- ReadText();
      var name :- ReadText();
      var protocol :- ReadProtocol();
      var host :- ReadText();
      var port :- ReadU16();
      var username :- ReadOpt();
      var password :- ReadOpt();
      var privateKeyPath :- ReadOpt();
      var privateKeyPassphrase :- ReadOpt();
      var folderId :- ReadOpt();
      var tags :- ReadTexts();
      var notes :- ReadOpt();
      var jumpHostId :- ReadOpt();
      var timeoutSeconds :- ReadU64();
      var domain :- ReadOpt();
      r := Some(Connection(id, name, protocol, host, port, username, password, privateKeyPath, privateKeyPassphrase,
                           folderId, tags, notes, jumpHostId, timeoutSeconds, domain));
    }

    method ReadConnections() returns (r: Option<seq<Connection>>)
      requires Valid()
      modifies this
      ensures Did(reader.List(reader.ConnectionIn, old(Rest())), r)
    {
      var n :- ReadI32();
      if n < 0 && reader.peer.Rust? {
        return None;
      }
      var items := if n < 0 then 0 else n;
      FromNothing(reader.ConnectionIn, items, Rest());
      r := ReadConnectionItems(items);
    }

    method ReadConnectionItems(n: nat) returns (r: Option<seq<Connection>>)
      requires Valid()
      modifies this
      ensures Did(ReadOn(reader.ConnectionIn, [], n, old(Rest())), r)
    {
      var answer: seq<Connection> := [];
      for i := 0 to n
        invariant Valid()
        invariant ReadOn(reader.ConnectionIn, [], n, old(Rest())) == ReadOn(reader.ConnectionIn, answer, n - i, Rest())
      {
        answer :- ReadConnectionItem(answer, n - i);
      }
      r := Some(answer);
    }

    method ReadConnectionItem(answer: seq<Connection>, ghost left: nat) returns (r: Option<seq<Connection>>)
      requires Valid() && left > 0
      modifies this
      ensures Valid()
      ensures ReadOn(reader.ConnectionIn, answer, left, old(Rest()))
           == if r.None? then None else ReadOn(reader.ConnectionIn, r.value, left - 1, Rest())
    {
      ReadOneMore(reader.ConnectionIn, answer, left, Rest());
      var x :- ReadConnection();
      r := Some(answer + [x]);
    }

    method ReadFolders() returns (r: Option<seq<Folder>>)
      requires Valid()
      modifies this
      ensures Did(reader.List(reader.FolderIn, old(Rest())), r)
    {
      var n :- ReadI32();
      if n < 0 && reader.peer.Rust? {
        return None;
      }
      var items := if n < 0 then 0 else n;
      FromNothing(reader.FolderIn, items, Rest());
      r := ReadFolderItems(items);
    }

    method ReadFolderItems(n: nat) returns (r: Option<seq<Folder>>)
      requires Valid()
      modifies this
      ensures Did(ReadOn(reader.FolderIn, [], n, old(Rest())), r)
    {
      var answer: seq<Folder> := [];
      for i := 0 to n
        invariant Valid()
        invariant ReadOn(reader.FolderIn, [], n, old(Rest())) == ReadOn(reader.FolderIn, answer, n - i, Rest())
      {
        answer :- ReadFolderItem(answer, n - i);
      }
      r := Some(answer);
    }

    method ReadFolderItem(answer: seq<Folder>, ghost left: nat) returns (r: Option<seq<Folder>>)
      requires Valid() && left > 0
      modifies this
      ensures Valid()
      ensures ReadOn(reader.FolderIn, answer, left, old(Rest()))
           == if r.None? then None else ReadOn(reader.FolderIn, r.value, left - 1, Rest())
    {
      ReadOneMore(reader.FolderIn, answer, left, Rest());
      var x :- ReadFolder();
      r := Some(answer + [x]);
    }

    method ReadData() returns (r: Option<VaultData>)
      requires Valid()
      modifies this
      ensures Did(reader.DataIn(old(Rest())), r)
    {
      var connections :- ReadConnections();
      var folders :- ReadFolders();
      r := Some(VaultData(connections, folders));
    }
  }

  /** What reading `n` more items after those of `done` makes of the bytes: the loop, its body, and the call in it. */
  ghost function ReadOn<T>(decode: seq<byte> -> Parsed<T>, done: seq<T>, n: nat, b: seq<byte>): Parsed<seq<T>>
    decreases n, 2
  {
    if n == 0 then Some((done, b)) else ReadTurn(decode, done, n - 1, b)
  }

  ghost function ReadTurn<T>(decode: seq<byte> -> Parsed<T>, done: seq<T>, n: nat, b: seq<byte>): Parsed<seq<T>>
    decreases n + 1, 1
  {
    ReadItem(decode, done, n, b)
  }

  ghost function ReadItem<T>(decode: seq<byte> -> Parsed<T>, done: seq<T>, n: nat, b: seq<byte>): Parsed<seq<T>>
    decreases n + 1, 0
  {
    var (x, b1) :- decode(b);
    ReadOn(decode, done + [x], n, b1)
  }

  lemma {:induction false} ReadOneMore<T>(decode: seq<byte> -> Parsed<T>, done: seq<T>, n: nat, b: seq<byte>)
    requires n > 0
    ensures ReadOn(decode, done, n, b)
         == match decode(b)
            case None => None
            case Some((x, b1)) => ReadOn(decode, done + [x], n - 1, b1)
  {
    assert ReadOn(decode, done, n, b) == ReadTurn(decode, done, n - 1, b) == ReadItem(decode, done, n - 1, b);
  }

  lemma {:induction false} ReadOnIsDecodeItems<T>(
    decode: seq<byte> -> Parsed<T>, done: seq<T>, n: nat, b: seq<byte>)
    ensures ReadOn(decode, done, n, b)
         == match DecodeItems(decode, n, b)
            case None => None
            case Some((xs, rest)) => Some((done + xs, rest))
    decreases n
  {
    if n == 0 {
      assert done + [] == done;
    } else {
      ReadOneMore(decode, done, n, b);
    }
    if n > 0 && decode(b).Some? {
      var (x, b1) := decode(b).value;
      ReadOnIsDecodeItems(decode, done + [x], n - 1, b1);
      if DecodeItems(decode, n - 1, b1).Some? {
        Assoc(done, [x], DecodeItems(decode, n - 1, b1).value.0);
      }
    }
  }

  lemma {:induction false} FromNothing<T>(decode: seq<byte> -> Parsed<T>, n: nat, b: seq<byte>)
    ensures ReadOn(decode, [], n, b) == DecodeItems(decode, n, b)
  {
    ReadOnIsDecodeItems(decode, [], n, b);
    if DecodeItems(decode, n, b).Some? {
      assert [] + DecodeItems(decode, n, b).value.0 == DecodeItems(decode, n, b).value.0;
    }
  }

  /**
    One half writes a vault's data into a buffer, the other reads it from there. It gets the data back and
    has read the whole message exactly when all lengths fit and, if Dart reads, no text starts with a mark.
  */
  method SendData(from: Peer, to: Peer, endian: Endian, d: VaultData) returns (r: Option<VaultData>, consumed: bool)
    ensures r == Some(d) && consumed <==> FitsData(d) && (to.Rust? || NoMarkData(d))
  {
    var message := Write(from, endian, d);
    r, consumed := Read(Reader(endian, to), message);
    assert message == endian.DataBytes(d) + [];
    DataRoundTrip(Reader(endian, to), d, []);
  }

  method Write(from: Peer, endian: Endian, d: VaultData) returns (message: seq<byte>)
    ensures message == endian.DataBytes(d)
  {
    var writer := new SseSerializer(from, endian);
    writer.WriteData(d);
    message := writer.out;
  }

  method Read(reader: Reader, message: seq<byte>) returns (r: Option<VaultData>, consumed: bool)
    ensures r.None? <==> reader.DataIn(message).None?
    ensures r.Some? ==> reader.DataIn(message).value.0 == r.value
    ensures r.Some? ==> (consumed <==> reader.DataIn(message).value.1 == [])
  {
    var from := new SseDeserializer(reader, message);
    r := from.ReadData();
    consumed := from.pos == |from.data|;
  }
}
