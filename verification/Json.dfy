/**
  The JSON form of the vault's data, with the serde rules of rust/src/api/models.rs and
  rust/src/api/vault.rs:31-37: the key passphrase is never written, and fields that older files lack
  take their defaults.
*/
module Json {
  import opened Collections
  import opened Models

  /** The keys of the objects: the names of the structures' fields. */
  datatype Field =
    | Id | Name | ProtocolField | Host | Port | Username | Password | PrivateKeyPath | FolderId | Tags | Notes
    | JumpHostId | TimeoutSeconds | Domain | ParentId | Connections | Folders
    | Salt | PasswordHash | EncryptedData

  datatype Json =
    | Null
    | Text(text: string)
    | Number(number: nat)
    | Array(items: seq<Json>)
    | Object(fields: map<Field, Json>)

  // ---- Writing ----

  function OptJson(s: Option<string>): Json {
    if s.Some? then Text(s.value) else Null
  }

  function ProtocolName(p: Protocol): string {
    match p
    case Ssh => "Ssh"
    case Rdp => "Rdp"
    case Vnc => "Vnc"
    case Http => "Http"
    case Https => "Https"
    case Vpn => "Vpn"
  }

  function TextsJson(xs: seq<string>): seq<Json> {
    if xs == [] then [] else [Text(xs[0])] + TextsJson(xs[1..])
  }

  function ConnectionJson(c: Connection): Json {
    Object(map[
      Id := Text(c.id),
      Name := Text(c.name),
      ProtocolField := Text(ProtocolName(c.protocol)),
      Host := Text(c.host),
      Port := Number(c.port),
      Username := OptJson(c.username),
      Password := OptJson(c.password),
      PrivateKeyPath := OptJson(c.privateKeyPath),
      FolderId := OptJson(c.folderId),
      Tags := Array(TextsJson(c.tags)),
      Notes := OptJson(c.notes),
      JumpHostId := OptJson(c.jumpHostId),
      TimeoutSeconds := Number(c.timeoutSeconds),
      Domain := OptJson(c.domain)])
  }

  function FolderJson(f: Folder): Json {
    Object(map[Id := Text(f.id), Name := Text(f.name), ParentId := OptJson(f.parentId)])
  }

  function ConnectionsJson(cs: seq<Connection>): seq<Json> {
    if cs == [] then [] else [ConnectionJson(cs[0])] + ConnectionsJson(cs[1..])
  }

  function FoldersJson(fs: seq<Folder>): seq<Json> {
    if fs == [] then [] else [FolderJson(fs[0])] + FoldersJson(fs[1..])
  }

  function DataJson(d: VaultData): Json {
    Object(map[Connections := Array(ConnectionsJson(d.connections)), Folders := Array(FoldersJson(d.folders))])
  }

  // ---- Reading ----

  type Fields = map<Field, Json>

  function GetText(o: Fields, key: Field): Option<string> {
    if key in o && o[key].Text? then Some(o[key].text) else None
  }

  /** An optional field may be missing or null. */
  function GetOpt(o: Fields, key: Field): Option<Option<string>> {
    if key !in o || o[key].Null? then Some(None)
    else if o[key].Text? then Some(Some(o[key].text))
    else None
  }

  function GetNumber(o: Fields, key: Field, limit: nat): (n: Option<nat>)
    ensures n.Some? ==> n.value < limit
  {
    if key in o && o[key].Number? && o[key].number < limit then Some(o[key].number) else None
  }

  function ProtocolNamed(s: string): Option<Protocol> {
    match s
    case "Ssh" => Some(Ssh)
    case "Rdp" => Some(Rdp)
    case "Vnc" => Some(Vnc)
    case "Http" => Some(Http)
    case "Https" => Some(Https)
    case "Vpn" => Some(Vpn)
    case _ => None
  }

  function TextsOf(items: seq<Json>): Option<seq<string>> {
    if items == [] then Some([])
    else if !items[0].Text? then None
    else
      var rest :- TextsOf(items[1..]);
      Some([items[0].text] + rest)
  }

  function ConnectionOf(j: Json): Option<Connection> {
    if !j.Object? then None
    else
      var o := j.fields;
      var id :- GetText(o, Id);
      var name :- GetText(o, Name);
      var protocolName :- GetText(o, ProtocolField);
      var protocol :- ProtocolNamed(protocolName);
      var host :- GetText(o, Host);
      var port :- GetNumber(o, Port, 0x1_0000);
      var username :- GetOpt(o, Username);
      var password :- GetOpt(o, Password);
      var privateKeyPath :- GetOpt(o, PrivateKeyPath);
      var folderId :- GetOpt(o, FolderId);
      var tags :- if Tags in o && o[Tags].Array? then TextsOf(o[Tags].items) else None;
      var notes :- GetOpt(o, Notes);
      var jumpHostId :- GetOpt(o, JumpHostId);
      var timeoutSeconds :- if TimeoutSeconds in o
                            then GetNumber(o, TimeoutSeconds, 0x1_0000_0000_0000_0000)
                            else Some(DEFAULT_TIMEOUT);
      var domain :- GetOpt(o, Domain);
      Some(Connection(id, name, protocol, host, port, username, password, privateKeyPath, None,
                      folderId, tags, notes, jumpHostId, timeoutSeconds, domain))
  }

  function FolderOf(j: Json): Option<Folder> {
    if !j.Object? then None
    else
      var id :- GetText(j.fields, Id);
      var name :- GetText(j.fields, Name);
      var parentId :- GetOpt(j.fields, ParentId);
      Some(Folder(id, name, parentId))
  }

  function ConnectionsOf(items: seq<Json>): Option<seq<Connection>> {
    if items == [] then Some([])
    else
      var c :- ConnectionOf(items[0]);
      var rest :- ConnectionsOf(items[1..]);
      Some([c] + rest)
  }

  function FoldersOf(items: seq<Json>): Option<seq<Folder>> {
    if items == [] then Some([])
    else
      var f :- FolderOf(items[0]);
      var rest :- FoldersOf(items[1..]);
      Some([f] + rest)
  }

  /** A list field that is missing counts as empty. */
  function GetItems(o: Fields, key: Field): Option<seq<Json>> {
    if key !in o then Some([])
    else if o[key].Array? then Some(o[key].items)
    else None
  }

  function DataOf(j: Json): Option<VaultData> {
    if !j.Object? then None
    else
      var cs :- GetItems(j.fields, Connections);
      var connections :- ConnectionsOf(cs);
      var fs :- GetItems(j.fields, Folders);
      var folders :- FoldersOf(fs);
      Some(VaultData(connections, folders))
  }

  // ---- What is kept ----

  function EraseOne(c: Connection): Connection {
    c.(privateKeyPassphrase := None)
  }

  /** The data without the key passphrases, which are never written. */
  function Erase(d: VaultData): VaultData {
    d.(connections := EraseAll(d.connections))
  }

  function EraseAll(cs: seq<Connection>): (erased: seq<Connection>)
    ensures |erased| == |cs| && forall i :: 0 <= i < |cs| ==> erased[i] == EraseOne(cs[i])
  {
    seq(|cs|, i requires 0 <= i < |cs| => EraseOne(cs[i]))
  }

  lemma {:induction false} TextsBack(xs: seq<string>)
    ensures TextsOf(TextsJson(xs)) == Some(xs)
  {
    if xs != [] {
      TextsBack(xs[1..]);
      assert xs == [xs[0]] + xs[1..];
    }
  }

  /** The fields of `o`, looked up one by one, are those of `c`; the last two may be missing. */
  predicate Holds(o: Fields, c: Connection) {
    HoldsFirst(o, c) && HoldsAccess(o, c) && HoldsLast(o, c)
  }

  predicate HoldsFirst(o: Fields, c: Connection) {
    && GetText(o, Id) == Some(c.id)
    && GetText(o, Name) == Some(c.name)
    && GetText(o, ProtocolField) == Some(ProtocolName(c.protocol))
    && GetText(o, Host) == Some(c.host)
  }

  predicate HoldsAccess(o: Fields, c: Connection) {
    && GetNumber(o, Port, 0x1_0000) == Some(c.port)
    && GetOpt(o, Username) == Some(c.username)
    && GetOpt(o, Password) == Some(c.password)
  }

  predicate HoldsLast(o: Fields, c: Connection) {
    && GetOpt(o, PrivateKeyPath) == Some(c.privateKeyPath)
    && GetOpt(o, FolderId) == Some(c.folderId)
    && Tags in o && o[Tags] == Array(TextsJson(c.tags))
    && GetOpt(o, Notes) == Some(c.notes)
    && GetOpt(o, JumpHostId) == Some(c.jumpHostId)
    && (if TimeoutSeconds in o then o[TimeoutSeconds] == Number(c.timeoutSeconds)
        else c.timeoutSeconds == DEFAULT_TIMEOUT)
    && GetOpt(o, Domain) == Some(c.domain)
  }

  lemma {:induction false} ConnectionFromFields(o: Fields, c: Connection)
    requires Holds(o, c)
    ensures ConnectionOf(Object(o)) == Some(EraseOne(c))
  {
    TextsBack(c.tags);
    assert ProtocolNamed(ProtocolName(c.protocol)) == Some(c.protocol);
  }

  lemma {:induction false} ConnectionBack(c: Connection)
    ensures ConnectionOf(ConnectionJson(c)) == Some(EraseOne(c))
  {
    WrittenFirst(c);
    WrittenAccess(c);
    WrittenLast(c);
    ConnectionFromFields(ConnectionJson(c).fields, c);
  }

  lemma {:induction false} WrittenFirst(c: Connection)
    ensures HoldsFirst(ConnectionJson(c).fields, c)
  {
  }

  lemma {:induction false} WrittenAccess(c: Connection)
    ensures HoldsAccess(ConnectionJson(c).fields, c)
  {
  }

  lemma {:induction false} WrittenLast(c: Connection)
    ensures HoldsLast(ConnectionJson(c).fields, c)
  {
  }

  lemma {:induction false} HoldsWithout(o: Fields, c: Connection)
    requires Holds(o, c)
    ensures Holds(o - {TimeoutSeconds, Domain}, c.(timeoutSeconds := DEFAULT_TIMEOUT, domain := None))
  {
  }

  lemma {:induction false} ConnectionsBack(cs: seq<Connection>)
    ensures ConnectionsOf(ConnectionsJson(cs)) == Some(EraseAll(cs))
  {
    if cs != [] {
      ConnectionBack(cs[0]);
      ConnectionsBack(cs[1..]);
      assert ConnectionsJson(cs) == [ConnectionJson(cs[0])] + ConnectionsJson(cs[1..]);
      assert EraseAll(cs) == [EraseOne(cs[0])] + EraseAll(cs[1..]);
    }
  }

  lemma {:induction false} FoldersBack(fs: seq<Folder>)
    ensures FoldersOf(FoldersJson(fs)) == Some(fs)
  {
    if fs != [] {
      FoldersBack(fs[1..]);
      assert FolderOf(FolderJson(fs[0])) == Some(fs[0]);
      assert fs == [fs[0]] + fs[1..];
    }
  }

  /** Reading what was written gives the data back, with the key passphrases erased. */
  lemma {:induction false} DataBack(d: VaultData)
    ensures DataOf(DataJson(d)) == Some(Erase(d))
  {
    ConnectionsBack(d.connections);
    FoldersBack(d.folders);
  }

  /** Files from before timeouts and domains still load: 30 seconds, and no domain. */
  lemma {:induction false} OlderConnectionLoads(c: Connection)
    ensures ConnectionOf(Object(ConnectionJson(c).fields - {TimeoutSeconds, Domain}))
         == Some(EraseOne(c).(timeoutSeconds := 30, domain := None))
  {
    var o := ConnectionJson(c).fields;
    WrittenFirst(c);
    WrittenAccess(c);
    WrittenLast(c);
    HoldsWithout(o, c);
    ConnectionFromFields(o - {TimeoutSeconds, Domain}, c.(timeoutSeconds := 30, domain := None));
  }

  /** What is written does not depend on the key passphrases: erasing them first makes no difference. */
  lemma {:induction false} PassphraseIsNotWritten(cs: seq<Connection>)
    ensures ConnectionsJson(cs) == ConnectionsJson(EraseAll(cs))
  {
    if cs != [] {
      PassphraseIsNotWritten(cs[1..]);
      assert EraseAll(cs)[0] == EraseOne(cs[0]) && EraseAll(cs)[1..] == EraseAll(cs[1..]);
      assert ConnectionJson(cs[0]) == ConnectionJson(EraseOne(cs[0]));
    }
  }

  /** Whatever is read has no key passphrase in it. */
  lemma {:induction false} ReadIsErased(items: seq<Json>)
    ensures ConnectionsOf(items).Some? ==> EraseAll(ConnectionsOf(items).value) == ConnectionsOf(items).value
  {
    if items != [] && ConnectionsOf(items).Some? {
      ReadIsErased(items[1..]);
      var cs := ConnectionsOf(items).value;
      assert cs == [cs[0]] + ConnectionsOf(items[1..]).value;
      assert cs[0] == ConnectionOf(items[0]).value && EraseOne(cs[0]) == cs[0];
    }
  }
}
