/**
  Known answers. The round trips of `Wire`, `Json` and `Utf8` would hold as well of another order of fields, or
  of other codes, if both halves kept to them; these examples, each with every part different, pin the formats.
*/
module Vectors {
  import opened Collections
  import opened Models
  import Json
  import Utf8
  import Wire

  lemma {:induction false} EncodeFirst(c: char, s: string)
    ensures Utf8.Encode([c] + s) == Utf8.EncodeChar(c) + Utf8.Encode(s)
  {
    assert ([c] + s)[1..] == s;
  }

  /** Of the examples in section 7 of RFC 3629: characters of one, two and three bytes. */
  lemma {:induction false} ShortCharacters()
    ensures Utf8.Encode("A\U{2262}\U{0391}.") == [0x41, 0xE2, 0x89, 0xA2, 0xCE, 0x91, 0x2E]
  {
    EncodeFirst('.', "");
    EncodeFirst('\U{0391}', ".");
    EncodeFirst('\U{2262}', "\U{0391}.");
    EncodeFirst('A', "\U{2262}\U{0391}.");
  }

  /** And one of four bytes, with a byte order mark before it. */
  lemma {:induction false} MarkAndLongCharacter()
    ensures Utf8.Encode("\U{FEFF}\U{233B4}") == [0xEF, 0xBB, 0xBF, 0xF0, 0xA3, 0x8E, 0xB4]
  {
    EncodeFirst('\U{233B4}', "");
    EncodeFirst('\U{FEFF}', "\U{233B4}");
  }

  /** A letter on the wire. */
  function Letter(e: Wire.Endian, b: Wire.byte): seq<Wire.byte> {
    (if e.Little? then [1, 0, 0, 0] else [0, 0, 0, 1]) + [b]
  }

  lemma {:induction false} LetterBytes(e: Wire.Endian, c: char)
    requires c as int < 0x80
    ensures e.Text([c]) == Letter(e, c as int) && e.OptText(Some([c])) == [1] + Letter(e, c as int)
  {
    EncodeFirst(c, "");
    assert [c] + "" == [c];
    NumberBytes(1);
  }

  lemma {:induction false} NumberBytes(n: nat)
    requires n < 256
    ensures Wire.LittleBytes(n, 4) == [n, 0, 0, 0] && Wire.BigBytes(n, 4) == [0, 0, 0, n]
  {
    assert Wire.LittleBytes(0, 3) == [0, 0, 0] && Wire.BigBytes(0, 3) == [0, 0, 0] by {
      assert Wire.LittleBytes(0, 1) == [0] && Wire.BigBytes(0, 1) == [0];
      assert Wire.LittleBytes(0, 2) == [0, 0] && Wire.BigBytes(0, 2) == [0, 0];
    }
  }

  const SAMPLE := Connection(
    "a", "b", Rdp, "c", 0x0102, Some("d"), Some("e"), Some("f"), Some("g"), Some("h"), ["i", "j"], Some("k"), None,
    0x0304, Some("l"))

  /** A 32-bit number below 256. */
  function Small(e: Wire.Endian, n: Wire.byte): seq<Wire.byte> {
    if e.Little? then [n, 0, 0, 0] else [0, 0, 0, n]
  }

  function OptLetter(e: Wire.Endian, b: Wire.byte): seq<Wire.byte> {
    [1] + Letter(e, b)
  }

  lemma {:induction false} TwoBytes(a: Wire.byte, b: Wire.byte, width: nat)
    ensures Wire.LittleBytes(256 * a + b, width + 2) == [b, a] + Wire.LittleBytes(0, width)
    ensures Wire.BigBytes(256 * a + b, width + 2) == Wire.BigBytes(0, width) + [a, b]
  {
    LastByte(a, b, width + 1);
    LastByte(0, a, width);
  }

  lemma {:induction false} LastByte(n: nat, b: Wire.byte, width: nat)
    ensures Wire.LittleBytes(256 * n + b, width + 1) == [b] + Wire.LittleBytes(n, width)
    ensures Wire.BigBytes(256 * n + b, width + 1) == Wire.BigBytes(n, width) + [b]
  {
    assert (256 * n + b) % 256 == b && (256 * n + b) / 256 == n;
  }

  lemma {:induction false} Zeros(width: nat)
    ensures Wire.LittleBytes(0, width) == seq(width, _ => 0) == Wire.BigBytes(0, width)
  {
    if width > 0 {
      Zeros(width - 1);
    }
  }

  lemma {:induction false} PortAndTimeout(e: Wire.Endian)
    ensures e.Uint(SAMPLE.port, 2) == if e.Little? then [2, 1] else [1, 2]
    ensures e.Uint(SAMPLE.timeoutSeconds, 8)
         == if e.Little? then [4, 3, 0, 0, 0, 0, 0, 0] else [0, 0, 0, 0, 0, 0, 3, 4]
  {
    TwoBytes(1, 2, 0);
    TwoBytes(3, 4, 6);
    Zeros(6);
  }

  lemma {:induction false} ListOfTwo<T>(e: Wire.Endian, encode: T -> seq<Wire.byte>, x: T, y: T)
    ensures e.List(encode, [x, y]) == e.I32(2) + (encode(x) + (encode(y) + []))
  {
    assert [x, y][1..] == [y] && [y][1..] == [];
    assert Wire.EncodeItems(encode, [y]) == encode(y) + Wire.EncodeItems(encode, []);
  }

  lemma {:induction false} TagBytes(e: Wire.Endian)
    ensures e.Texts(["i", "j"]) == Small(e, 2) + (Letter(e, 'i' as int) + (Letter(e, 'j' as int) + []))
  {
    LetterBytes(e, 'i');
    LetterBytes(e, 'j');
    SmallBytes(e, 2);
    ListOfTwo(e, e.Text, "i", "j");
  }

  /** The sample's bytes from its notes on. */
  function Rest(e: Wire.Endian): seq<Wire.byte> {
    var timeout := if e.Little? then [4, 3, 0, 0, 0, 0, 0, 0] else [0, 0, 0, 0, 0, 0, 3, 4];
    OptLetter(e, 'k' as int) + ([0] + (timeout + OptLetter(e, 'l' as int)))
  }

  /** The sample's bytes from its user name on. */
  function Secrets(e: Wire.Endian): seq<Wire.byte> {
    OptLetter(e, 'd' as int) + (OptLetter(e, 'e' as int) + (OptLetter(e, 'f' as int)
    + (OptLetter(e, 'g' as int) + (OptLetter(e, 'h' as int)
    + ((Small(e, 2) + (Letter(e, 'i' as int) + (Letter(e, 'j' as int) + []))) + Rest(e))))))
  }

  lemma {:induction false} DetailExample(e: Wire.Endian, c: Connection)
    requires c.notes == Some("k") && c.jumpHostId == None && c.domain == Some("l")
    requires c.timeoutSeconds == SAMPLE.timeoutSeconds
    ensures e.DetailBytes(c) == e.Texts(c.tags) + Rest(e)
  {
    LetterBytes(e, 'k');
    LetterBytes(e, 'l');
    PortAndTimeout(e);
    assert e.OptText(None) == [0];
  }

  lemma {:induction false} SecretExample(e: Wire.Endian)
    ensures e.SecretBytes(SAMPLE) == Secrets(e)
  {
    LetterBytes(e, 'd');
    LetterBytes(e, 'e');
    LetterBytes(e, 'f');
    LetterBytes(e, 'g');
    LetterBytes(e, 'h');
    TagBytes(e);
    DetailExample(e, SAMPLE);
  }

  /** A connection on the wire, byte for byte. */
  lemma {:induction false} ConnectionExample(e: Wire.Endian)
    ensures var port := if e.Little? then [2, 1] else [1, 2];
            e.ConnectionBytes(SAMPLE)
            == Letter(e, 'a' as int) + (Letter(e, 'b' as int) + (Small(e, 1) + (Letter(e, 'c' as int)
             + (port + Secrets(e)))))
  {
    SecretExample(e);
    HeadExample(e, SAMPLE);
  }

  /** The same up to the port, for any connection that starts like the sample. */
  lemma {:induction false} HeadExample(e: Wire.Endian, c: Connection)
    requires c.id == "a" && c.name == "b" && c.protocol == Rdp && c.host == "c" && c.port == SAMPLE.port
    ensures var port := if e.Little? then [2, 1] else [1, 2];
            e.ConnectionBytes(c)
            == Letter(e, 'a' as int) + (Letter(e, 'b' as int) + (Small(e, 1) + (Letter(e, 'c' as int)
             + (port + e.SecretBytes(c)))))
  {
    LetterBytes(e, 'a');
    LetterBytes(e, 'b');
    LetterBytes(e, 'c');
    SmallBytes(e, 1);
    PortAndTimeout(e);
  }

  /** A folder on the wire, byte for byte. */
  lemma {:induction false} FolderExample(e: Wire.Endian)
    ensures e.FolderBytes(Folder("a", "b", Some("c")))
         == Letter(e, 'a' as int) + (Letter(e, 'b' as int) + OptLetter(e, 'c' as int))
    ensures e.FolderBytes(Folder("a", "b", None)) == Letter(e, 'a' as int) + (Letter(e, 'b' as int) + [0])
  {
    LetterBytes(e, 'a');
    LetterBytes(e, 'b');
    LetterBytes(e, 'c');
    assert e.OptText(None) == [0] + [];
  }

  /** The vault's data on the wire: the connections come first. */
  lemma {:induction false} DataExample(e: Wire.Endian)
    ensures e.DataBytes(VaultData([], [Folder("a", "b", None)]))
         == Small(e, 0) + (Small(e, 1) + (Letter(e, 'a' as int) + (Letter(e, 'b' as int) + [0])))
  {
    SmallBytes(e, 0);
    SmallBytes(e, 1);
    FolderExample(e);
    ListOfNone(e, e.ConnectionBytes);
    ListOfOne(e, e.FolderBytes, Folder("a", "b", None));
  }

  lemma {:induction false} ListOfNone<T>(e: Wire.Endian, encode: T -> seq<Wire.byte>)
    ensures e.List(encode, []) == e.I32(0)
  {
    assert e.I32(0) + [] == e.I32(0);
  }

  lemma {:induction false} ListOfOne<T>(e: Wire.Endian, encode: T -> seq<Wire.byte>, x: T)
    ensures e.List(encode, [x]) == e.I32(1) + encode(x)
  {
    assert [x][1..] == [] && encode(x) + [] == encode(x);
    assert Wire.EncodeItems(encode, [x]) == encode(x) + Wire.EncodeItems(encode, []);
  }

  const CALL := Wire.AddConnectionCall(
    "a", Rdp, "b", 0x0102, Some("c"), Some("d"), Some("e"), Some("f"), [], "g", None, 0x0304, Some("h"))

  /** A call on the wire, byte for byte. */
  lemma {:induction false} CallExample(e: Wire.Endian)
    ensures var port := if e.Little? then [2, 1] else [1, 2];
            e.CallBytes(CALL)
            == Letter(e, 'a' as int) + (Small(e, 1) + (Letter(e, 'b' as int) + (port + (OptLetter(e, 'c' as int)
             + (OptLetter(e, 'd' as int) + CallRest(e))))))
  {
    LetterBytes(e, 'a');
    LetterBytes(e, 'b');
    LetterBytes(e, 'c');
    LetterBytes(e, 'd');
    SmallBytes(e, 1);
    PortAndTimeout(e);
    CallTailExample(e);
  }

  /** The call's bytes from the key's path on. */
  function CallRest(e: Wire.Endian): seq<Wire.byte> {
    var timeout := if e.Little? then [4, 3, 0, 0, 0, 0, 0, 0] else [0, 0, 0, 0, 0, 0, 3, 4];
    OptLetter(e, 'e' as int) + (OptLetter(e, 'f' as int) + (Small(e, 0) + (Letter(e, 'g' as int)
    + ([0] + (timeout + OptLetter(e, 'h' as int))))))
  }

  lemma {:induction false} CallTailExample(e: Wire.Endian)
    ensures e.CallTail(CALL) == CallRest(e)
  {
    LetterBytes(e, 'e');
    LetterBytes(e, 'f');
    LetterBytes(e, 'g');
    LetterBytes(e, 'h');
    SmallBytes(e, 0);
    PortAndTimeout(e);
    assert e.Texts([]) == Small(e, 0) && e.OptText(None) == [0];
  }

  /** A connection in the vault's JSON: what stands under which name. */
  lemma {:induction false} JsonExample()
    ensures Json.ConnectionJson(SAMPLE).Object?
    ensures var o := Json.ConnectionJson(SAMPLE).fields;
            && Json.GetText(o, Json.Id) == Some("a") && Json.GetText(o, Json.Name) == Some("b")
            && Json.GetText(o, Json.ProtocolField) == Some("Rdp") && Json.GetText(o, Json.Host) == Some("c")
            && Json.GetNumber(o, Json.Port, 0x1_0000) == Some(0x0102)
            && Json.GetOpt(o, Json.Username) == Some(Some("d")) && Json.GetOpt(o, Json.Password) == Some(Some("e"))
            && Json.GetOpt(o, Json.PrivateKeyPath) == Some(Some("f"))
            && Json.GetOpt(o, Json.FolderId) == Some(Some("h"))
            && Json.GetOpt(o, Json.Notes) == Some(Some("k")) && Json.GetOpt(o, Json.JumpHostId) == Some(None)
            && Json.GetOpt(o, Json.Domain) == Some(Some("l"))
            && Json.Tags in o && o[Json.Tags] == Json.Array([Json.Text("i"), Json.Text("j")])
            && Json.TimeoutSeconds in o && o[Json.TimeoutSeconds] == Json.Number(0x0304)
  {
    Json.WrittenFirst(SAMPLE);
    Json.WrittenAccess(SAMPLE);
    JsonDetailExample(SAMPLE);
    TagsJson();
  }

  lemma {:induction false} JsonDetailExample(c: Connection)
    ensures var o := Json.ConnectionJson(c).fields;
            && Json.HoldsLast(o, c) && Json.TimeoutSeconds in o
            && o[Json.Tags] == Json.Array(Json.TextsJson(c.tags))
  {
    Json.WrittenLast(c);
  }

  lemma {:induction false} TagsJson()
    ensures Json.TextsJson(["i", "j"]) == [Json.Text("i"), Json.Text("j")]
  {
    assert ["i", "j"][1..] == ["j"] && ["j"][1..] == [];
    assert Json.TextsJson(["j"]) == [Json.Text("j")] + [];
  }

  /** The codes of the protocols, in the order of their declaration. */
  lemma {:induction false} ProtocolExamples(e: Wire.Endian)
    ensures e.Code(Ssh) == Small(e, 0) && e.Code(Rdp) == Small(e, 1) && e.Code(Vnc) == Small(e, 2)
    ensures e.Code(Http) == Small(e, 3) && e.Code(Https) == Small(e, 4) && e.Code(Vpn) == Small(e, 5)
  {
    SmallBytes(e, 0);
    SmallBytes(e, 1);
    SmallBytes(e, 2);
    SmallBytes(e, 3);
    SmallBytes(e, 4);
    SmallBytes(e, 5);
  }

  lemma {:induction false} SmallBytes(e: Wire.Endian, n: nat)
    requires n < 256
    ensures e.I32(n) == Small(e, n)
  {
    NumberBytes(n);
    assert n % 0x1_0000_0000 == n;
  }
}
