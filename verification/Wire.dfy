/**
  The wire format between the Dart and the Rust half of the application: the bytes of every value and
  what each half reads from bytes (rust/src/frb_generated.rs:3307-3538, 3971-4170 and
  lib/src/rust/frb_generated.dart:3514-3724, 3935-4130).

  Both halves write the same bytes, in the byte order of the machine they share. They read alike except
  for a list of records whose length is negative, which Rust refuses and Dart takes for an empty list, and
  for a byte order mark at the start of a text, which Dart's UTF-8 decoder discards.
*/
module Wire {
  import opened Collections
  import opened Models
  import Utf8

  type byte = Utf8.byte
  type Parsed<+T> = Option<(T, seq<byte>)>

  /** Lengths are written as signed 32-bit integers. */
  const LIMIT: nat := 0x8000_0000

  // ---- Fixed-width integers ----

  function Pow256(width: nat): nat {
    if width == 0 then 1 else 256 * Pow256(width - 1)
  }

  function LittleBytes(n: nat, width: nat): (b: seq<byte>)
    ensures |b| == width
  {
    if width == 0 then [] else [n % 256] + LittleBytes(n / 256, width - 1)
  }

  function LittleValue(b: seq<byte>): nat {
    if b == [] then 0 else b[0] + 256 * LittleValue(b[1..])
  }

  function BigBytes(n: nat, width: nat): (b: seq<byte>)
    ensures |b| == width
  {
    if width == 0 then [] else BigBytes(n / 256, width - 1) + [n % 256]
  }

  function BigValue(b: seq<byte>): nat {
    if b == [] then 0 else 256 * BigValue(b[..|b| - 1]) + Last(b)
  }

  lemma {:induction false} BytesRoundTrip(n: nat, width: nat)
    requires n < Pow256(width)
    ensures LittleValue(LittleBytes(n, width)) == n && BigValue(BigBytes(n, width)) == n
  {
    if width > 0 {
      BytesRoundTrip(n / 256, width - 1);
      assert LittleBytes(n, width)[1..] == LittleBytes(n / 256, width - 1);
      assert BigBytes(n, width)[..width - 1] == BigBytes(n / 256, width - 1);
    }
  }

  lemma {:induction false} ValueBound(b: seq<byte>)
    ensures LittleValue(b) < Pow256(|b|) && BigValue(b) < Pow256(|b|)
  {
    if b != [] {
      ValueBound(b[1..]);
      ValueBound(b[..|b| - 1]);
    }
  }

  lemma {:induction false} Widths()
    ensures Pow256(2) == 0x1_0000
    ensures Pow256(4) == 0x1_0000_0000
    ensures Pow256(8) == 0x1_0000_0000_0000_0000
  {
    assert Pow256(1) == 256;
    assert Pow256(3) == 0x100_0000;
    assert Pow256(5) == 0x100_0000_0000;
    assert Pow256(6) == 0x1_0000_0000_0000;
    assert Pow256(7) == 0x100_0000_0000_0000;
  }

  // ---- Writing ----

  function EncodeItems<T>(encode: T -> seq<byte>, xs: seq<T>): seq<byte> {
    if xs == [] then [] else encode(xs[0]) + EncodeItems(encode, xs[1..])
  }

  function ProtocolCode(p: Protocol): int {
    match p
    case Ssh => 0
    case Rdp => 1
    case Vnc => 2
    case Http => 3
    case Https => 4
    case Vpn => 5
  }

  datatype Endian = Little | Big {
    function Uint(n: nat, width: nat): (b: seq<byte>)
      ensures |b| == width
    {
      if Little? then LittleBytes(n, width) else BigBytes(n, width)
    }

    /** The cast to 32 bits wraps: a length of 2^31 or more comes out as another number. */
    function I32(x: int): (b: seq<byte>)
      ensures |b| == 4
    {
      Uint(x % 0x1_0000_0000, 4)
    }

    function Bool(v: bool): seq<byte> {
      [if v then 1 else 0]
    }

    function Text(s: string): seq<byte> {
      I32(|Utf8.Encode(s)|) + Utf8.Encode(s)
    }

    function OptText(s: Option<string>): seq<byte> {
      Bool(s.Some?) + if s.Some? then Text(s.value) else []
    }

    function List<T>(encode: T -> seq<byte>, xs: seq<T>): seq<byte> {
      I32(|xs|) + EncodeItems(encode, xs)
    }

    function Texts(xs: seq<string>): seq<byte> {
      List(Text, xs)
    }

    function Code(p: Protocol): seq<byte> {
      I32(ProtocolCode(p))
    }

    function FolderBytes(f: Folder): seq<byte> {
      Text(f.id) + (Text(f.name) + OptText(f.parentId))
    }

    function ConnectionBytes(c: Connection): seq<byte> {
      Text(c.id) + (Text(c.name) + (Code(c.protocol) + (Text(c.host) + (Uint(c.port, 2) + SecretBytes(c)))))
    }

    /** The fields of a connection from the user name on. */
    function SecretBytes(c: Connection): seq<byte> {
      OptText(c.username) + (OptText(c.password) + (OptText(c.privateKeyPath)
      + (OptText(c.privateKeyPassphrase) + (OptText(c.folderId) + DetailBytes(c)))))
    }

    /** The fields of a connection from the tags on. */
    function DetailBytes(c: Connection): seq<byte> {
      Texts(c.tags) + (OptText(c.notes) + (OptText(c.jumpHostId) + (Uint(c.timeoutSeconds, 8) + OptText(c.domain))))
    }

    function DataBytes(d: VaultData): seq<byte> {
      List(ConnectionBytes, d.connections) + List(FolderBytes, d.folders)
    }

    /** The 13 arguments of the `add_connection` call. */
    function CallBytes(a: AddConnectionCall): seq<byte> {
      Text(a.name) + (Code(a.protocol) + (Text(a.host) + (Uint(a.port, 2) + (OptText(a.username)
      + (OptText(a.password) + CallTail(a))))))
    }

    function CallTail(a: AddConnectionCall): seq<byte> {
      OptText(a.privateKeyPath) + (OptText(a.folderId) + (Texts(a.tags) + (Text(a.path) + (OptText(a.jumpHostId)
      + (Uint(a.timeoutSeconds, 8) + OptText(a.domain))))))
    }
  }

  datatype AddConnectionCall = AddConnectionCall(
    name: string, protocol: Protocol, host: string, port: u16, username: Option<string>, password: Option<string>,
    privateKeyPath: Option<string>, folderId: Option<string>, tags: seq<string>, path: string,
    jumpHostId: Option<string>, timeoutSeconds: u64, domain: Option<string>)

  // ---- Reading ----

  function DecodeItems<T>(decode: seq<byte> -> Parsed<T>, n: nat, b: seq<byte>): Parsed<seq<T>> {
    if n == 0 then Some(([], b))
    else
      var (x, b1) :- decode(b);
      var (xs, b2) :- DecodeItems(decode, n - 1, b1);
      Some(([x] + xs, b2))
  }

  function ProtocolOf(code: int): Option<Protocol> {
    match code
    case 0 => Some(Ssh)
    case 1 => Some(Rdp)
    case 2 => Some(Vnc)
    case 3 => Some(Http)
    case 4 => Some(Https)
    case 5 => Some(Vpn)
    case _ => None
  }

  const MARK: char := '\U{FEFF}'

  datatype Peer = Rust | Dart {
    /** What this half makes of a decoded text. */
    function Hears(s: string): string {
      if Dart? && s != "" && s[0] == MARK then s[1..] else s
    }

    function HearsOpt(s: Option<string>): Option<string> {
      if s.Some? then Some(Hears(s.value)) else None
    }

    function HearsFolder(f: Folder): Folder {
      Folder(Hears(f.id), Hears(f.name), HearsOpt(f.parentId))
    }

    function HearsConnection(c: Connection): Connection {
      c.(id := Hears(c.id), name := Hears(c.name), host := Hears(c.host), username := HearsOpt(c.username),
         password := HearsOpt(c.password), privateKeyPath := HearsOpt(c.privateKeyPath),
         privateKeyPassphrase := HearsOpt(c.privateKeyPassphrase), folderId := HearsOpt(c.folderId),
         tags := Mapped(Hears, c.tags), notes := HearsOpt(c.notes), jumpHostId := HearsOpt(c.jumpHostId),
         domain := HearsOpt(c.domain))
    }

    function HearsData(d: VaultData): VaultData {
      VaultData(Mapped(HearsConnection, d.connections), Mapped(HearsFolder, d.folders))
    }
  }

  function Mapped<T>(f: T -> T, xs: seq<T>): (ys: seq<T>)
    ensures |ys| == |xs| && forall i :: 0 <= i < |xs| ==> ys[i] == f(xs[i])
  {
    seq(|xs|, i requires 0 <= i < |xs| => f(xs[i]))
  }

  /** What one half reads; `None` is a panic in Rust and an exception in Dart. */
  datatype Reader = Reader(endian: Endian, peer: Peer) {
    function Uint(width: nat, b: seq<byte>): Parsed<nat> {
      if |b| < width then None
      else Some((if endian.Little? then LittleValue(b[..width]) else BigValue(b[..width]), b[width..]))
    }

    function I32(b: seq<byte>): Parsed<int> {
      var (n, b1) :- Uint(4, b);
      Some((if n < LIMIT then n else n - 0x1_0000_0000, b1))
    }

    function U16(b: seq<byte>): Parsed<u16> {
      var (n, b1) :- Uint(2, b);
      ValueBound(b[..2]);
      Widths();
      Some((n, b1))
    }

    function U64(b: seq<byte>): Parsed<u64> {
      var (n, b1) :- Uint(8, b);
      ValueBound(b[..8]);
      Widths();
      Some((n, b1))
    }

    function Bool(b: seq<byte>): Parsed<bool> {
      if b == [] then None else Some((b[0] != 0, b[1..]))
    }

    function Text(b: seq<byte>): Parsed<string> {
      var (n, b1) :- I32(b);
      if !(0 <= n <= |b1|) then None
      else
        var s :- Utf8.Decode(b1[..n]);
        Some((peer.Hears(s), b1[n..]))
    }

    function OptText(b: seq<byte>): Parsed<Option<string>> {
      var (present, b1) :- Bool(b);
      if !present then Some((None, b1))
      else
        var (s, b2) :- Text(b1);
        Some((Some(s), b2))
    }

    function List<T>(decode: seq<byte> -> Parsed<T>, b: seq<byte>): Parsed<seq<T>> {
      var (n, b1) :- I32(b);
      if n >= 0 then DecodeItems(decode, n, b1)
      else if peer.Dart? then Some(([], b1))
      else None
    }

    function Texts(b: seq<byte>): Parsed<seq<string>> {
      List(Text, b)
    }

    function Code(b: seq<byte>): Parsed<Protocol> {
      var (n, b1) :- I32(b);
      var p :- ProtocolOf(n);
      Some((p, b1))
    }

    function FolderIn(b: seq<byte>): Parsed<Folder> {
      var (id, b) :- Text(b);
      var (name, b) :- Text(b);
      var (parentId, b) :- OptText(b);
      Some((Folder(id, name, parentId), b))
    }

    function ConnectionIn(b: seq<byte>): Parsed<Connection> {
      var (id, b) :- Text(b);
      var (name, b) :- Text(b);
      var (protocol, b) :- Code(b);
      var (host, b) :- Text(b);
      var (port, b) :- U16(b);
      var (username, b) :- OptText(b);
      var (password, b) :- OptText(b);
      var (privateKeyPath, b) :- OptText(b);
      var (privateKeyPassphrase, b) :- OptText(b);
      var (folderId, b) :- OptText(b);
      var (tags, b) :- Texts(b);
      var (notes, b) :- OptText(b);
      var (jumpHostId, b) :- OptText(b);
      var (timeoutSeconds, b) :- U64(b);
      var (domain, b) :- OptText(b);
      Some((Connection(id, name, protocol, host, port, username, password, privateKeyPath, privateKeyPassphrase,
                       folderId, tags, notes, jumpHostId, timeoutSeconds, domain), b))
    }

    function DataIn(b: seq<byte>): Parsed<VaultData> {
      var (connections, b) :- List(ConnectionIn, b);
      var (folders, b) :- List(FolderIn, b);
      Some((VaultData(connections, folders), b))
    }

    /** The call's arguments; the message must end with them. */
    function CallIn(b: seq<byte>): Option<AddConnectionCall> {
      var (name, b) :- Text(b);
      var (protocol, b) :- Code(b);
      var (host, b) :- Text(b);
      var (port, b) :- U16(b);
      var (username, b) :- OptText(b);
      var (password, b) :- OptText(b);
      var (privateKeyPath, b) :- OptText(b);
      var (folderId, b) :- OptText(b);
      var (tags, b) :- Texts(b);
      var (path, b) :- Text(b);
      var (jumpHostId, b) :- OptText(b);
      var (timeoutSeconds, b) :- U64(b);
      var (domain, b) :- OptText(b);
      if b != [] then None
      else Some(AddConnectionCall(name, protocol, host, port, username, password, privateKeyPath, folderId, tags, path,
                                  jumpHostId, timeoutSeconds, domain))
    }
  }

  // ---- The values that survive: every length below 2^31 ----

  predicate FitsText(s: string) {
    |Utf8.Encode(s)| < LIMIT
  }

  predicate FitsOpt(s: Option<string>) {
    s.Some? ==> FitsText(s.value)
  }

  predicate FitsTexts(xs: seq<string>) {
    |xs| < LIMIT && forall i :: 0 <= i < |xs| ==> FitsText(xs[i])
  }

  predicate FitsFolder(f: Folder) {
    FitsText(f.id) && FitsText(f.name) && FitsOpt(f.parentId)
  }

  predicate FitsConnection(c: Connection) {
    && FitsText(c.id) && FitsText(c.name) && FitsText(c.host)
    && FitsOpt(c.username) && FitsOpt(c.password) && FitsOpt(c.privateKeyPath) && FitsOpt(c.privateKeyPassphrase)
    && FitsOpt(c.folderId) && FitsTexts(c.tags) && FitsOpt(c.notes) && FitsOpt(c.jumpHostId) && FitsOpt(c.domain)
  }

  predicate FitsData(d: VaultData) {
    && |d.connections| < LIMIT && (forall i :: 0 <= i < |d.connections| ==> FitsConnection(d.connections[i]))
    && |d.folders| < LIMIT && (forall i :: 0 <= i < |d.folders| ==> FitsFolder(d.folders[i]))
  }

  predicate FitsCall(a: AddConnectionCall) {
    && FitsText(a.name) && FitsText(a.host) && FitsOpt(a.username) && FitsOpt(a.password) && FitsOpt(a.privateKeyPath)
    && FitsOpt(a.folderId) && FitsTexts(a.tags) && FitsText(a.path) && FitsOpt(a.jumpHostId) && FitsOpt(a.domain)
  }

  // ---- Round trips, part by part ----

  lemma {:induction false} UintBack(r: Reader, n: nat, width: nat, rest: seq<byte>)
    requires n < Pow256(width)
    ensures r.Uint(width, r.endian.Uint(n, width) + rest) == Some((n, rest))
  {
    var e := r.endian.Uint(n, width);
    BytesRoundTrip(n, width);
    assert (e + rest)[..width] == e && (e + rest)[width..] == rest;
  }

  lemma {:induction false} I32Back(r: Reader, x: int, rest: seq<byte>)
    ensures r.I32(r.endian.I32(x) + rest).Some? && r.I32(r.endian.I32(x) + rest).value.1 == rest
    ensures -0x8000_0000 <= x < 0x8000_0000 ==> r.I32(r.endian.I32(x) + rest) == Some((x, rest))
  {
    Widths();
    UintBack(r, x % 0x1_0000_0000, 4, rest);
  }

  lemma {:induction false} PortBack(r: Reader, n: u16, rest: seq<byte>)
    ensures r.U16(r.endian.Uint(n, 2) + rest) == Some((n, rest))
  {
    Widths();
    UintBack(r, n, 2, rest);
  }

  lemma {:induction false} TimeoutBack(r: Reader, n: u64, rest: seq<byte>)
    ensures r.U64(r.endian.Uint(n, 8) + rest) == Some((n, rest))
  {
    Widths();
    UintBack(r, n, 8, rest);
  }

  lemma {:induction false} TextBack(r: Reader, s: string, rest: seq<byte>)
    requires FitsText(s)
    ensures r.Text(r.endian.Text(s) + rest) == Some((r.peer.Hears(s), rest))
  {
    var u := Utf8.Encode(s);
    assert r.endian.Text(s) + rest == r.endian.I32(|u|) + (u + rest);
    I32Back(r, |u|, u + rest);
    assert (u + rest)[..|u|] == u && (u + rest)[|u|..] == rest;
    Utf8.RoundTrip(s);
  }

  lemma {:induction false} OptBack(r: Reader, s: Option<string>, rest: seq<byte>)
    requires FitsOpt(s)
    ensures r.OptText(r.endian.OptText(s) + rest) == Some((r.peer.HearsOpt(s), rest))
  {
    OptBytes(r.endian, s, rest);
    if s.Some? {
      TextBack(r, s.value, rest);
    } else {
    }
  }

  lemma {:induction false} OptBytes(e: Endian, s: Option<string>, rest: seq<byte>)
    ensures e.OptText(s) + rest == if s.Some? then [1] + (e.Text(s.value) + rest) else [0] + rest
  {
  }

  lemma {:induction false} CodeBack(r: Reader, p: Protocol, rest: seq<byte>)
    ensures r.Code(r.endian.Code(p) + rest) == Some((p, rest))
  {
    I32Back(r, ProtocolCode(p), rest);
  }

  lemma {:induction false} ItemsBack<T>(
    encode: T -> seq<byte>, decode: seq<byte> -> Parsed<T>, hear: T -> T, xs: seq<T>, rest: seq<byte>)
    requires forall i, b :: 0 <= i < |xs| ==> decode(encode(xs[i]) + b) == Some((hear(xs[i]), b))
    ensures DecodeItems(decode, |xs|, EncodeItems(encode, xs) + rest) == Some((Mapped(hear, xs), rest))
  {
    if xs != [] {
      Assoc(encode(xs[0]), EncodeItems(encode, xs[1..]), rest);
      forall i, b | 0 <= i < |xs[1..]|
        ensures decode(encode(xs[1..][i]) + b) == Some((hear(xs[1..][i]), b))
      {
        assert xs[1..][i] == xs[i + 1];
      }
      ItemsBack(encode, decode, hear, xs[1..], rest);
      assert Mapped(hear, xs) == [hear(xs[0])] + Mapped(hear, xs[1..]);
    } else {
      assert [] + rest == rest;
    }
  }

  lemma {:induction false} ListBack<T>(
    r: Reader, encode: T -> seq<byte>, decode: seq<byte> -> Parsed<T>, hear: T -> T, xs: seq<T>, rest: seq<byte>)
    requires |xs| < LIMIT
    requires forall i, b :: 0 <= i < |xs| ==> decode(encode(xs[i]) + b) == Some((hear(xs[i]), b))
    ensures r.List(decode, r.endian.List(encode, xs) + rest) == Some((Mapped(hear, xs), rest))
  {
    Assoc(r.endian.I32(|xs|), EncodeItems(encode, xs), rest);
    I32Back(r, |xs|, EncodeItems(encode, xs) + rest);
    ItemsBack(encode, decode, hear, xs, rest);
  }

  lemma {:induction false} TextsBack(r: Reader, xs: seq<string>, rest: seq<byte>)
    requires FitsTexts(xs)
    ensures r.Texts(r.endian.Texts(xs) + rest) == Some((Mapped(r.peer.Hears, xs), rest))
  {
    forall i, b | 0 <= i < |xs|
      ensures r.Text(r.endian.Text(xs[i]) + b) == Some((r.peer.Hears(xs[i]), b))
    {
      TextBack(r, xs[i], b);
    }
    ListBack(r, r.endian.Text, r.Text, r.peer.Hears, xs, rest);
  }

  lemma {:induction false} FolderBack(r: Reader, f: Folder, rest: seq<byte>)
    requires FitsFolder(f)
    ensures r.FolderIn(r.endian.FolderBytes(f) + rest) == Some((r.peer.HearsFolder(f), rest))
  {
    var e := r.endian;
    var t2 := e.OptText(f.parentId) + rest;
    var t1 := e.Text(f.name) + t2;
    assert e.FolderBytes(f) + rest == e.Text(f.id) + t1;
    TextBack(r, f.id, t1);
    TextBack(r, f.name, t2);
    OptBack(r, f.parentId, rest);
  }

  /** What the bytes of a connection followed by `rest` are, field after field. */
  lemma {:induction false} ConnectionTail(e: Endian, c: Connection, rest: seq<byte>)
    ensures e.ConnectionBytes(c) + rest
         == e.Text(c.id) + (e.Text(c.name) + (e.Code(c.protocol) + (e.Text(c.host) + (e.Uint(c.port, 2)
            + (e.SecretBytes(c) + rest)))))
    ensures e.SecretBytes(c) + rest
         == e.OptText(c.username) + (e.OptText(c.password) + (e.OptText(c.privateKeyPath)
            + (e.OptText(c.privateKeyPassphrase) + (e.OptText(c.folderId) + (e.DetailBytes(c) + rest)))))
    ensures e.DetailBytes(c) + rest
         == e.Texts(c.tags) + (e.OptText(c.notes) + (e.OptText(c.jumpHostId) + (e.Uint(c.timeoutSeconds, 8)
            + (e.OptText(c.domain) + rest))))
  {
    Six(e.Text(c.id), e.Text(c.name), e.Code(c.protocol), e.Text(c.host), e.Uint(c.port, 2), e.SecretBytes(c), rest);
    Six(e.OptText(c.username), e.OptText(c.password), e.OptText(c.privateKeyPath), e.OptText(c.privateKeyPassphrase),
        e.OptText(c.folderId), e.DetailBytes(c), rest);
    Five(e.Texts(c.tags), e.OptText(c.notes), e.OptText(c.jumpHostId), e.Uint(c.timeoutSeconds, 8),
         e.OptText(c.domain), rest);
  }

  lemma {:induction false} Five<T>(a: seq<T>, b: seq<T>, c: seq<T>, d: seq<T>, e: seq<T>, rest: seq<T>)
    ensures (a + (b + (c + (d + e)))) + rest == a + (b + (c + (d + (e + rest))))
  {
    Assoc(a, b + (c + (d + e)), rest);
    Assoc(b, c + (d + e), rest);
    Assoc(c, d + e, rest);
    Assoc(d, e, rest);
  }

  lemma {:induction false} Six<T>(a: seq<T>, b: seq<T>, c: seq<T>, d: seq<T>, e: seq<T>, f: seq<T>, rest: seq<T>)
    ensures (a + (b + (c + (d + (e + f))))) + rest == a + (b + (c + (d + (e + (f + rest)))))
  {
    Assoc(a, b + (c + (d + (e + f))), rest);
    Five(b, c, d, e, f, rest);
  }

  lemma {:induction false} ConnectionBack(r: Reader, c: Connection, rest: seq<byte>)
    requires FitsConnection(c)
    ensures r.ConnectionIn(r.endian.ConnectionBytes(c) + rest) == Some((r.peer.HearsConnection(c), rest))
  {
    var e := r.endian;
    ConnectionTail(e, c, rest);
    var t14 := e.OptText(c.domain) + rest;
    var t13 := e.Uint(c.timeoutSeconds, 8) + t14;
    var t12 := e.OptText(c.jumpHostId) + t13;
    var t11 := e.OptText(c.notes) + t12;
    var t10 := e.Texts(c.tags) + t11;
    var t9 := e.OptText(c.folderId) + t10;
    var t8 := e.OptText(c.privateKeyPassphrase) + t9;
    var t7 := e.OptText(c.privateKeyPath) + t8;
    var t6 := e.OptText(c.password) + t7;
    var t5 := e.OptText(c.username) + t6;
    var t4 := e.Uint(c.port, 2) + t5;
    var t3 := e.Text(c.host) + t4;
    var t2 := e.Code(c.protocol) + t3;
    var t1 := e.Text(c.name) + t2;
    TextBack(r, c.id, t1);
    TextBack(r, c.name, t2);
    CodeBack(r, c.protocol, t3);
    TextBack(r, c.host, t4);
    PortBack(r, c.port, t5);
    OptBack(r, c.username, t6);
    OptBack(r, c.password, t7);
    OptBack(r, c.privateKeyPath, t8);
    OptBack(r, c.privateKeyPassphrase, t9);
    OptBack(r, c.folderId, t10);
    TextsBack(r, c.tags, t11);
    OptBack(r, c.notes, t12);
    OptBack(r, c.jumpHostId, t13);
    TimeoutBack(r, c.timeoutSeconds, t14);
    OptBack(r, c.domain, rest);
  }

  lemma {:induction false} DataBack(r: Reader, d: VaultData, rest: seq<byte>)
    requires FitsData(d)
    ensures r.DataIn(r.endian.DataBytes(d) + rest) == Some((r.peer.HearsData(d), rest))
  {
    var e := r.endian;
    forall i, b | 0 <= i < |d.connections|
      ensures r.ConnectionIn(e.ConnectionBytes(d.connections[i]) + b) == Some((r.peer.HearsConnection(d.connections[i]), b))
    {
      ConnectionBack(r, d.connections[i], b);
    }
    forall i, b | 0 <= i < |d.folders|
      ensures r.FolderIn(e.FolderBytes(d.folders[i]) + b) == Some((r.peer.HearsFolder(d.folders[i]), b))
    {
      FolderBack(r, d.folders[i], b);
    }
    Assoc(e.List(e.ConnectionBytes, d.connections), e.List(e.FolderBytes, d.folders), rest);
    var folders := e.List(e.FolderBytes, d.folders) + rest;
    ListBack(r, e.ConnectionBytes, r.ConnectionIn, r.peer.HearsConnection, d.connections, folders);
    ListBack(r, e.FolderBytes, r.FolderIn, r.peer.HearsFolder, d.folders, rest);
  }

  // ---- Whatever is read fits ----

  lemma {:induction false} TextFits(r: Reader, b: seq<byte>)
    ensures r.Text(b).Some? ==> FitsText(r.Text(b).value.0)
  {
    if r.Text(b).Some? {
      var (n, b1) := r.I32(b).value;
      I32Range(r, b);
      Utf8.Canonical(b1[..n]);
    }
  }

  lemma {:induction false} I32Range(r: Reader, b: seq<byte>)
    ensures r.I32(b).Some? ==> -0x8000_0000 <= r.I32(b).value.0 < 0x8000_0000
  {
    if |b| >= 4 {
      ValueBound(b[..4]);
      Widths();
    }
  }

  lemma {:induction false} OptFits(r: Reader, b: seq<byte>)
    ensures r.OptText(b).Some? ==> FitsOpt(r.OptText(b).value.0)
  {
    if b != [] {
      TextFits(r, b[1..]);
    }
  }

  lemma {:induction false} ItemsFit<T>(decode: seq<byte> -> Parsed<T>, n: nat, b: seq<byte>, fits: T -> bool)
    requires forall b :: decode(b).Some? ==> fits(decode(b).value.0)
    ensures DecodeItems(decode, n, b).Some? ==>
              var xs := DecodeItems(decode, n, b).value.0;
              |xs| == n && forall i :: 0 <= i < |xs| ==> fits(xs[i])
  {
    if n > 0 && decode(b).Some? {
      ItemsFit(decode, n - 1, decode(b).value.1, fits);
    }
  }

  lemma {:induction false} ListFits<T>(r: Reader, decode: seq<byte> -> Parsed<T>, b: seq<byte>, fits: T -> bool)
    requires forall b :: decode(b).Some? ==> fits(decode(b).value.0)
    ensures r.List(decode, b).Some? ==>
              var xs := r.List(decode, b).value.0;
              |xs| < LIMIT && forall i :: 0 <= i < |xs| ==> fits(xs[i])
  {
    I32Range(r, b);
    if r.I32(b).Some? && r.I32(b).value.0 >= 0 {
      ItemsFit(decode, r.I32(b).value.0, r.I32(b).value.1, fits);
    }
  }

  lemma {:induction false} TextsFit(r: Reader, b: seq<byte>)
    ensures r.Texts(b).Some? ==> FitsTexts(r.Texts(b).value.0)
  {
    forall b | r.Text(b).Some?
      ensures FitsText(r.Text(b).value.0)
    {
      TextFits(r, b);
    }
    ListFits(r, r.Text, b, FitsText);
  }

  lemma {:induction false} ConnectionFits(r: Reader, b: seq<byte>)
    ensures r.ConnectionIn(b).Some? ==> FitsConnection(r.ConnectionIn(b).value.0)
  {
    if r.ConnectionIn(b).Some? {
      TextFits(r, b);
      var at := r.Text(b).value.1;
      TextFits(r, at);
      at := r.Code(r.Text(at).value.1).value.1;
      TextFits(r, at);
      at := r.U16(r.Text(at).value.1).value.1;
      OptFits(r, at);
      at := r.OptText(at).value.1;
      OptFits(r, at);
      at := r.OptText(at).value.1;
      OptFits(r, at);
      at := r.OptText(at).value.1;
      OptFits(r, at);
      at := r.OptText(at).value.1;
      OptFits(r, at);
      at := r.OptText(at).value.1;
      TextsFit(r, at);
      at := r.Texts(at).value.1;
      OptFits(r, at);
      at := r.OptText(at).value.1;
      OptFits(r, at);
      at := r.U64(r.OptText(at).value.1).value.1;
      OptFits(r, at);
    }
  }

  lemma {:induction false} FolderFits(r: Reader, b: seq<byte>)
    ensures r.FolderIn(b).Some? ==> FitsFolder(r.FolderIn(b).value.0)
  {
    if r.FolderIn(b).Some? {
      TextFits(r, b);
      var at := r.Text(b).value.1;
      TextFits(r, at);
      OptFits(r, r.Text(at).value.1);
    }
  }

  lemma {:induction false} CallFits(r: Reader, b: seq<byte>)
    ensures r.CallIn(b).Some? ==> FitsCall(r.CallIn(b).value)
  {
    if r.CallIn(b).Some? {
      TextFits(r, b);
      var at := r.Code(r.Text(b).value.1).value.1;
      TextFits(r, at);
      at := r.U16(r.Text(at).value.1).value.1;
      OptFits(r, at);
      at := r.OptText(at).value.1;
      OptFits(r, at);
      at := r.OptText(at).value.1;
      OptFits(r, at);
      at := r.OptText(at).value.1;
      OptFits(r, at);
      at := r.OptText(at).value.1;
      TextsFit(r, at);
      at := r.Texts(at).value.1;
      TextFits(r, at);
      at := r.Text(at).value.1;
      OptFits(r, at);
      at := r.U64(r.OptText(at).value.1).value.1;
      OptFits(r, at);
    }
  }

  lemma {:induction false} DataFits(r: Reader, b: seq<byte>)
    ensures r.DataIn(b).Some? ==> FitsData(r.DataIn(b).value.0)
  {
    forall b | r.ConnectionIn(b).Some?
      ensures FitsConnection(r.ConnectionIn(b).value.0)
    {
      ConnectionFits(r, b);
    }
    forall b | r.FolderIn(b).Some?
      ensures FitsFolder(r.FolderIn(b).value.0)
    {
      FolderFits(r, b);
    }
    ListFits(r, r.ConnectionIn, b, FitsConnection);
    if r.List(r.ConnectionIn, b).Some? {
      ListFits(r, r.FolderIn, r.List(r.ConnectionIn, b).value.1, FitsFolder);
    }
  }

  // ---- The values that Dart hears as they are: no text starts with a byte order mark ----

  predicate NoMark(s: string) {
    s == "" || s[0] != MARK
  }

  predicate NoMarkOpt(s: Option<string>) {
    s.Some? ==> NoMark(s.value)
  }

  predicate NoMarkFolder(f: Folder) {
    NoMark(f.id) && NoMark(f.name) && NoMarkOpt(f.parentId)
  }

  predicate NoMarkConnection(c: Connection) {
    && NoMark(c.id) && NoMark(c.name) && NoMark(c.host)
    && NoMarkOpt(c.username) && NoMarkOpt(c.password) && NoMarkOpt(c.privateKeyPath)
    && NoMarkOpt(c.privateKeyPassphrase) && NoMarkOpt(c.folderId)
    && (forall i :: 0 <= i < |c.tags| ==> NoMark(c.tags[i]))
    && NoMarkOpt(c.notes) && NoMarkOpt(c.jumpHostId) && NoMarkOpt(c.domain)
  }

  predicate NoMarkData(d: VaultData) {
    && (forall i :: 0 <= i < |d.connections| ==> NoMarkConnection(d.connections[i]))
    && (forall i :: 0 <= i < |d.folders| ==> NoMarkFolder(d.folders[i]))
  }

  lemma {:induction false} HeardAsIs(p: Peer, s: string)
    ensures p.Hears(s) == s <==> p.Rust? || NoMark(s)
  {
    assert s != "" ==> |s[1..]| != |s|;
  }

  lemma {:induction false} HeardAsIsOpt(p: Peer, s: Option<string>)
    ensures p.HearsOpt(s) == s <==> p.Rust? || NoMarkOpt(s)
  {
    if s.Some? {
      HeardAsIs(p, s.value);
    }
  }

  lemma {:induction false} MappedAsIs<T>(f: T -> T, xs: seq<T>)
    ensures Mapped(f, xs) == xs <==> forall i :: 0 <= i < |xs| ==> f(xs[i]) == xs[i]
  {
    if Mapped(f, xs) == xs {
      forall i | 0 <= i < |xs|
        ensures f(xs[i]) == xs[i]
      {
        assert Mapped(f, xs)[i] == f(xs[i]);
      }
    }
  }

  lemma {:induction false} TextsHeardAsIs(p: Peer, xs: seq<string>)
    ensures Mapped(p.Hears, xs) == xs <==> p.Rust? || forall i :: 0 <= i < |xs| ==> NoMark(xs[i])
  {
    MappedAsIs(p.Hears, xs);
    forall i | 0 <= i < |xs|
      ensures p.Hears(xs[i]) == xs[i] <==> p.Rust? || NoMark(xs[i])
    {
      HeardAsIs(p, xs[i]);
    }
  }

  lemma {:induction false} FolderHeardAsIs(p: Peer, f: Folder)
    ensures p.HearsFolder(f) == f <==> p.Rust? || NoMarkFolder(f)
  {
    HeardAsIs(p, f.id);
    HeardAsIs(p, f.name);
    HeardAsIsOpt(p, f.parentId);
  }

  lemma {:induction false} ConnectionHeardAsIs(p: Peer, c: Connection)
    ensures p.HearsConnection(c) == c <==> p.Rust? || NoMarkConnection(c)
  {
    HeardAsIs(p, c.id);
    HeardAsIs(p, c.name);
    HeardAsIs(p, c.host);
    HeardAsIsOpt(p, c.username);
    HeardAsIsOpt(p, c.password);
    HeardAsIsOpt(p, c.privateKeyPath);
    HeardAsIsOpt(p, c.privateKeyPassphrase);
    HeardAsIsOpt(p, c.folderId);
    TextsHeardAsIs(p, c.tags);
    HeardAsIsOpt(p, c.notes);
    HeardAsIsOpt(p, c.jumpHostId);
    HeardAsIsOpt(p, c.domain);
  }

  lemma {:induction false} DataHeardAsIs(p: Peer, d: VaultData)
    ensures p.HearsData(d) == d <==> p.Rust? || NoMarkData(d)
  {
    MappedAsIs(p.HearsConnection, d.connections);
    MappedAsIs(p.HearsFolder, d.folders);
    forall i | 0 <= i < |d.connections|
      ensures p.HearsConnection(d.connections[i]) == d.connections[i] <==> p.Rust? || NoMarkConnection(d.connections[i])
    {
      ConnectionHeardAsIs(p, d.connections[i]);
    }
    forall i | 0 <= i < |d.folders|
      ensures p.HearsFolder(d.folders[i]) == d.folders[i] <==> p.Rust? || NoMarkFolder(d.folders[i])
    {
      FolderHeardAsIs(p, d.folders[i]);
    }
  }

  // ---- The codec theorems ----

  /**
    Whichever half reads, it gets back what was written and stops exactly at its end, if and only if
    every length of the value is below 2^31 and, when Dart reads, no text in it starts with a byte order mark.
  */
  lemma {:induction false} ConnectionRoundTrip(r: Reader, c: Connection, rest: seq<byte>)
    ensures r.ConnectionIn(r.endian.ConnectionBytes(c) + rest) == Some((c, rest))
       <==> FitsConnection(c) && (r.peer.Rust? || NoMarkConnection(c))
  {
    ConnectionHeardAsIs(r.peer, c);
    ConnectionFits(r, r.endian.ConnectionBytes(c) + rest);
    if FitsConnection(c) {
      ConnectionBack(r, c, rest);
    }
  }

  lemma {:induction false} FolderRoundTrip(r: Reader, f: Folder, rest: seq<byte>)
    ensures r.FolderIn(r.endian.FolderBytes(f) + rest) == Some((f, rest))
       <==> FitsFolder(f) && (r.peer.Rust? || NoMarkFolder(f))
  {
    FolderHeardAsIs(r.peer, f);
    FolderFits(r, r.endian.FolderBytes(f) + rest);
    if FitsFolder(f) {
      FolderBack(r, f, rest);
    }
  }

  lemma {:induction false} DataRoundTrip(r: Reader, d: VaultData, rest: seq<byte>)
    ensures r.DataIn(r.endian.DataBytes(d) + rest) == Some((d, rest))
       <==> FitsData(d) && (r.peer.Rust? || NoMarkData(d))
  {
    DataHeardAsIs(r.peer, d);
    DataFits(r, r.endian.DataBytes(d) + rest);
    if FitsData(d) {
      DataBack(r, d, rest);
    }
  }

  /** No encoding is a prefix of another: what follows a value cannot change how it is read. */
  lemma {:induction false} DataUniquelyDecodable(e: Endian, d1: VaultData, d2: VaultData, r1: seq<byte>, r2: seq<byte>)
    requires FitsData(d1) && FitsData(d2)
    ensures e.DataBytes(d1) + r1 == e.DataBytes(d2) + r2 ==> d1 == d2 && r1 == r2
  {
    DataBack(Reader(e, Rust), d1, r1);
    DataBack(Reader(e, Rust), d2, r2);
    DataHeardAsIs(Rust, d1);
    DataHeardAsIs(Rust, d2);
  }

  lemma {:induction false} ConnectionUniquelyDecodable(
    e: Endian, c1: Connection, c2: Connection, r1: seq<byte>, r2: seq<byte>)
    requires FitsConnection(c1) && FitsConnection(c2)
    ensures e.ConnectionBytes(c1) + r1 == e.ConnectionBytes(c2) + r2 ==> c1 == c2 && r1 == r2
  {
    ConnectionBack(Reader(e, Rust), c1, r1);
    ConnectionBack(Reader(e, Rust), c2, r2);
    ConnectionHeardAsIs(Rust, c1);
    ConnectionHeardAsIs(Rust, c2);
  }

  lemma {:induction false} FolderUniquelyDecodable(e: Endian, f1: Folder, f2: Folder, r1: seq<byte>, r2: seq<byte>)
    requires FitsFolder(f1) && FitsFolder(f2)
    ensures e.FolderBytes(f1) + r1 == e.FolderBytes(f2) + r2 ==> f1 == f2 && r1 == r2
  {
    FolderBack(Reader(e, Rust), f1, r1);
    FolderBack(Reader(e, Rust), f2, r2);
    FolderHeardAsIs(Rust, f1);
    FolderHeardAsIs(Rust, f2);
  }

  lemma {:induction false} TextUniquelyDecodable(e: Endian, s1: string, s2: string, r1: seq<byte>, r2: seq<byte>)
    requires FitsText(s1) && FitsText(s2)
    ensures e.Text(s1) + r1 == e.Text(s2) + r2 ==> s1 == s2 && r1 == r2
  {
    TextBack(Reader(e, Rust), s1, r1);
    TextBack(Reader(e, Rust), s2, r2);
  }

  lemma {:induction false} OptUniquelyDecodable(
    e: Endian, s1: Option<string>, s2: Option<string>, r1: seq<byte>, r2: seq<byte>)
    requires FitsOpt(s1) && FitsOpt(s2)
    ensures e.OptText(s1) + r1 == e.OptText(s2) + r2 ==> s1 == s2 && r1 == r2
  {
    OptBack(Reader(e, Rust), s1, r1);
    OptBack(Reader(e, Rust), s2, r2);
    HeardAsIsOpt(Rust, s1);
    HeardAsIsOpt(Rust, s2);
  }

  lemma {:induction false} TextsUniquelyDecodable(
    e: Endian, xs: seq<string>, ys: seq<string>, r1: seq<byte>, r2: seq<byte>)
    requires FitsTexts(xs) && FitsTexts(ys)
    ensures e.Texts(xs) + r1 == e.Texts(ys) + r2 ==> xs == ys && r1 == r2
  {
    TextsBack(Reader(e, Rust), xs, r1);
    TextsBack(Reader(e, Rust), ys, r2);
    TextsHeardAsIs(Rust, xs);
    TextsHeardAsIs(Rust, ys);
  }

  /** Two calls that differ in any argument differ on the wire. */
  lemma {:induction false} CallUniquelyDecodable(e: Endian, a1: AddConnectionCall, a2: AddConnectionCall)
    requires FitsCall(a1) && FitsCall(a2)
    ensures e.CallBytes(a1) == e.CallBytes(a2) ==> a1 == a2
  {
    CallBack(Reader(e, Rust), a1);
    CallBack(Reader(e, Rust), a2);
  }

  /** A text that Rust sends and Dart reads as another: the mark before the letter is gone. */
  lemma {:induction false} MarkIsLost(e: Endian, rest: seq<byte>)
    ensures Reader(e, Dart).Text(e.Text([MARK, 'a']) + rest) == Some(("a", rest))
  {
    var s := [MARK, 'a'];
    EncodedSize(s);
    TextBack(Reader(e, Dart), s, rest);
    assert s[1..] == "a";
  }

  lemma {:induction false} EncodedSize(s: string)
    ensures |Utf8.Encode(s)| <= 4 * |s|
  {
    if s != "" {
      EncodedSize(s[1..]);
    }
  }

  /** The call that Dart writes is the call that Rust serves, argument by argument, and nothing is left over. */
  lemma {:induction false} CallRoundTrip(e: Endian, a: AddConnectionCall)
    ensures Reader(e, Rust).CallIn(e.CallBytes(a)) == Some(a) <==> FitsCall(a)
  {
    CallFits(Reader(e, Rust), e.CallBytes(a));
    if FitsCall(a) {
      CallBack(Reader(e, Rust), a);
    }
  }

  lemma {:induction false} CallBack(r: Reader, a: AddConnectionCall)
    requires FitsCall(a) && r.peer.Rust?
    ensures r.CallIn(r.endian.CallBytes(a)) == Some(a)
  {
    TextsHeardAsIs(r.peer, a.tags);
    var e := r.endian;
    var t12 := e.OptText(a.domain);
    var t11 := e.Uint(a.timeoutSeconds, 8) + t12;
    var t10 := e.OptText(a.jumpHostId) + t11;
    var t9 := e.Text(a.path) + t10;
    var t8 := e.Texts(a.tags) + t9;
    var t7 := e.OptText(a.folderId) + t8;
    var t6 := e.OptText(a.privateKeyPath) + t7;
    var t5 := e.OptText(a.password) + t6;
    var t4 := e.OptText(a.username) + t5;
    var t3 := e.Uint(a.port, 2) + t4;
    var t2 := e.Text(a.host) + t3;
    var t1 := e.Code(a.protocol) + t2;
    assert e.CallBytes(a) == e.Text(a.name) + t1;
    assert t12 == t12 + [];
    TextBack(r, a.name, t1);
    CodeBack(r, a.protocol, t2);
    TextBack(r, a.host, t3);
    PortBack(r, a.port, t4);
    OptBack(r, a.username, t5);
    OptBack(r, a.password, t6);
    OptBack(r, a.privateKeyPath, t7);
    OptBack(r, a.folderId, t8);
    TextsBack(r, a.tags, t9);
    TextBack(r, a.path, t10);
    OptBack(r, a.jumpHostId, t11);
    TimeoutBack(r, a.timeoutSeconds, t12);
    OptBack(r, a.domain, []);
  }

  /**
    Above the limit the halves part: a list of 2^31 to 2^32 - 1 items has a negative length on the wire,
    which Dart silently reads as the empty list, with all the items left over, and Rust refuses.
  */
  lemma {:induction false} OversizedList<T>(
    r: Reader, encode: T -> seq<byte>, decode: seq<byte> -> Parsed<T>, xs: seq<T>, rest: seq<byte>)
    requires LIMIT <= |xs| < 2 * LIMIT
    ensures r.List(decode, r.endian.List(encode, xs) + rest)
         == if r.peer.Dart? then Some(([], EncodeItems(encode, xs) + rest)) else None
  {
    Assoc(r.endian.I32(|xs|), EncodeItems(encode, xs), rest);
    WrapsNegative(r, |xs|, EncodeItems(encode, xs) + rest);
  }

  lemma {:induction false} WrapsNegative(r: Reader, n: int, rest: seq<byte>)
    requires LIMIT <= n < 2 * LIMIT
    ensures r.I32(r.endian.I32(n) + rest) == Some((n - 0x1_0000_0000, rest))
  {
    Widths();
    UintBack(r, n, 4, rest);
  }
}
