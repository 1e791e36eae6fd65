/**
  One Node element of an mRemoteNG file (rust/src/api/import.rs:40-117): a writer of such elements, and
  what reading loses of a connection written that way.
*/
module ImportNode {
  import opened Collections
  import opened Models
  import opened Forest
  import opened Import

  function ProtocolText(p: Protocol): string {
    match p
    case Ssh => "SSH2"
    case Rdp => "RDP"
    case Vnc => "VNC"
    case Http => "HTTP"
    case Https => "HTTPS"
    case Vpn => "VPN"
  }

  function Decimal(n: nat): (s: string)
    ensures s != "" && forall i :: 0 <= i < |s| ==> '0' <= s[i] <= '9'
  {
    if n < 10 then [('0' as int + n) as char] else Decimal(n / 10) + [('0' as int + n % 10) as char]
  }

  function WithOptional(a: map<string, string>, name: string, value: Option<string>): map<string, string> {
    if value.Some? then a[name := value.value] else a
  }

  /** The attributes mRemoteNG writes for a connection. */
  function Attributes(c: Connection): map<string, string> {
    var named := map["Type" := "Connection", "Name" := c.name];
    var reached := named["Protocol" := ProtocolText(c.protocol)]["Hostname" := c.host]["Port" := Decimal(c.port)];
    WithOptional(WithOptional(WithOptional(reached, "Username", c.username), "Password", c.password),
                 "Description", c.notes)
  }

  /** An empty text is written and read as none. */
  function Unempty(value: Option<string>): Option<string> {
    if value == Some("") then None else value
  }

  lemma {:induction false} DecimalReadBack(n: nat)
    ensures ParseDigits(Decimal(n)) == Some(n)
  {
    if n >= 10 {
      DecimalReadBack(n / 10);
      var s := Decimal(n);
      assert s[..|s| - 1] == Decimal(n / 10);
    }
  }

  lemma {:induction false} PortReadBack(port: u16)
    ensures ParsePort(Decimal(port)) == Some(port) && ParsePort("+" + Decimal(port)) == Some(port)
  {
    DecimalReadBack(port);
    assert ("+" + Decimal(port))[1..] == Decimal(port);
  }

  lemma {:induction false} ProtocolReadBack(p: Protocol)
    ensures ParseProtocol(ProtocolText(p)) == if p == Vpn then Ssh else p
  {
    match p
    case Http | Https => assert ProtocolText(Https)[4] == 'S';
    case Ssh | Rdp | Vnc | Vpn =>
  }

  /** The text after an optional plus sign. */
  function Unsigned(s: string): string {
    if s != "" && s[0] == '+' then s[1..] else s
  }

  predicate IsDigit(c: char) {
    '0' <= c <= '9'
  }

  /** Digits only, and at least one. */
  predicate AllDigits(s: string) {
    s != "" && forall i :: 0 <= i < |s| ==> IsDigit(s[i])
  }

  lemma {:induction false} DigitsOnly(s: string)
    ensures ParseDigits(s).Some? <==> AllDigits(s)
  {
    if s != "" {
      DigitsOnly(s[..|s| - 1]);
      assert s == s[..|s| - 1] + [s[|s| - 1]];
    }
  }

  /** A port is taken over iff it is digits after an optional plus, and of 16 bits; any other text leaves 22. */
  lemma {:induction false} OtherPortsAre22(env: Env, x: Xml, id: string, key: Option<string>)
    requires IsNode(x) && "Port" in x.attributes
    ensures var text, port := Unsigned(x.attributes["Port"]), ToConnection(env, x, id, key).port;
            && (!AllDigits(text) ==> port == 22)
            && (AllDigits(text) ==>
                  && ParseDigits(text).Some?
                  && port == if ParseDigits(text).value < 0x1_0000 then ParseDigits(text).value else 22)
  {
    DigitsOnly(Unsigned(x.attributes["Port"]));
  }

  /** The attributes, looked up one by one, say what `c` is. */
  predicate Says(a: map<string, string>, c: Connection) {
    && Attribute(a, "Type", "Connection") == "Connection"
    && Attribute(a, "Name", "Unnamed") == c.name
    && Attribute(a, "Protocol", "SSH") == ProtocolText(c.protocol)
    && Attribute(a, "Hostname", "") == c.host
    && Attribute(a, "Port", "22") == Decimal(c.port)
    && NonEmpty(a, "Username") == Unempty(c.username)
    && NonEmpty(a, "Password") == Unempty(c.password)
    && NonEmpty(a, "Description") == Unempty(c.notes)
  }

  lemma {:induction false} ReadAsSaid(env: Env, x: Xml, c: Connection, id: string, key: Option<string>)
    requires IsNode(x) && Says(x.attributes, c) && env.upper(ProtocolText(c.protocol)) == ProtocolText(c.protocol)
    ensures !IsContainer(x) && ToConnection(env, x, id, key) == AsImported(c, id, key)
  {
    ProtocolReadBack(c.protocol);
    PortReadBack(c.port);
  }

  /** What the import makes of `c`: only the protocol that mRemoteNG lacks is another. */
  function AsImported(c: Connection, id: string, key: Option<string>): Connection {
    Connection(id, c.name, if c.protocol == Vpn then Ssh else c.protocol, c.host, c.port,
               Unempty(c.username), Unempty(c.password), None, None, key, [], Unempty(c.notes), None, 30, None)
  }

  /**
    What an element says of a connection is read back: name, host, port, and the protocol unless it is one
    that mRemoteNG lacks; user, password and description unless they are empty. The rest is the import's own.
  */
  lemma {:induction false} ElementReadBack(env: Env, c: Connection, kids: seq<Xml>, id: string, key: Option<string>)
    requires env.upper(ProtocolText(c.protocol)) == ProtocolText(c.protocol)
    ensures var x := Element("Node", Attributes(c), kids);
            IsNode(x) && !IsContainer(x) && ToConnection(env, x, id, key) == AsImported(c, id, key)
  {
    ReadAsSaid(env, Element("Node", Attributes(c), kids), c, id, key);
  }

  /** The attributes mRemoteNG writes for a container. */
  function ContainerAttributes(name: string): map<string, string> {
    map["Type" := "Container", "Name" := name]
  }

  /**
    A container element becomes a folder of its name, in the enclosing folder, and what is inside the element
    is filed in it; the elements after it are not.
  */
  lemma {:induction false} ContainerReadBack(
    env: Env, name: string, kids: seq<Xml>, more: seq<Xml>, key: Option<string>, n: nat)
    ensures var x := Element("Node", ContainerAttributes(name), kids);
            var (inside, n1) := Build(env, kids, Some(env.uuid(n)), n + 1);
            var (after, n2) := Build(env, more, key, n1);
            Build(env, [x] + more, key, n) == ([Branch(Folder(env.uuid(n), name, key), inside)] + after, n2)
  {
    var x := Element("Node", ContainerAttributes(name), kids);
    assert ([x] + more)[0] == x && ([x] + more)[1..] == more;
  }

  /** What an element leaves out, and what the import knows nothing of, has its default. */
  lemma {:induction false} MissingAttributes(env: Env, x: Xml, id: string, key: Option<string>)
    requires IsNode(x)
    ensures var a, c := x.attributes, ToConnection(env, x, id, key);
            && c.id == id && c.folderId == key
            && ("Type" !in a ==> !IsContainer(x))
            && ("Name" !in a ==> c.name == "Unnamed")
            && ("Hostname" !in a ==> c.host == "")
            && ("Port" !in a ==> c.port == 22)
            && ("Protocol" !in a && env.upper("SSH") == "SSH" ==> c.protocol == Ssh)
            && (c.username.Some? ==> c.username.value != "" && "Username" in a)
            && (c.password.Some? ==> c.password.value != "" && "Password" in a)
            && (c.notes.Some? ==> c.notes.value != "" && "Description" in a)
            && c.privateKeyPath == c.privateKeyPassphrase == c.jumpHostId == c.domain == None
            && c.tags == [] && c.timeoutSeconds == 30
  {
    DecimalReadBack(22);
    assert Decimal(22) == "22" by {
      assert Decimal(2) == "2";
    }
    PortReadBack(22);
  }
}
