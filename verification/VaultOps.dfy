/**
  What each vault operation does to the vault's data (rust/src/api/vault.rs:139-278), as functions, and
  what holds after every run of them.
*/
module VaultOps {
  import opened Collections
  import opened Models

  datatype Error =
    | VaultLocked
    | ConnectionNotFound(id: string)
    | FolderNotFound(id: string)
    | NoConnectionsElement
    | HashFailed
    | DeriveFailed
    | EncryptionFailed
    | WriteFailed
    | ReadFailed
    | BadVaultFile
    | WrongPassword
    | BadBase64
    | InvalidData
    | DecryptionFailed
    | BadContents

  // ---- Importing a batch ----

  /** Two connections with the same endpoint are duplicates for the import. */
  datatype Endpoint = Endpoint(name: string, host: string, port: u16)

  function EndpointOf(c: Connection): Endpoint {
    Endpoint(c.name, c.host, c.port)
  }

  function Endpoints(cs: seq<Connection>): set<Endpoint> {
    if cs == [] then {} else {EndpointOf(cs[0])} + Endpoints(cs[1..])
  }

  /** The list after the batch and the number added; `ids[i]` is the fresh id drawn for `batch[i]`. */
  function ImportBatch(cs: seq<Connection>, batch: seq<Connection>, ids: seq<string>): (seq<Connection>, nat)
    requires |ids| == |batch|
    decreases |batch|
  {
    if batch == [] then (cs, 0)
    else if EndpointOf(batch[0]) in Endpoints(cs) then ImportBatch(cs, batch[1..], ids[1..])
    else
      var (after, n) := ImportBatch(cs + [batch[0].(id := ids[0])], batch[1..], ids[1..]);
      (after, n + 1)
  }

  /** `batch[i]` has a new endpoint, and is the first of the batch to have it. */
  predicate IsNew(cs: seq<Connection>, batch: seq<Connection>, i: nat)
    requires i < |batch|
  {
    EndpointOf(batch[i]) !in Endpoints(cs) + Endpoints(batch[..i])
  }

  /** The new ones among the first `n` of the batch, in order, under their fresh ids. */
  function NewOnes(cs: seq<Connection>, batch: seq<Connection>, ids: seq<string>, n: nat): seq<Connection>
    requires |ids| == |batch| && n <= |batch|
  {
    if n == 0 then []
    else NewOnes(cs, batch, ids, n - 1)
         + if IsNew(cs, batch, n - 1) then [batch[n - 1].(id := ids[n - 1])] else []
  }

  lemma {:induction false} EndpointsConcat(a: seq<Connection>, b: seq<Connection>)
    ensures Endpoints(a + b) == Endpoints(a) + Endpoints(b)
  {
    if a == [] {
      assert a + b == b;
    } else {
      assert (a + b)[1..] == a[1..] + b;
      EndpointsConcat(a[1..], b);
    }
  }

  /** Importing a concatenation is importing its parts one after the other. */
  lemma {:induction false} ImportInTwo(
    cs: seq<Connection>, a: seq<Connection>, b: seq<Connection>, ia: seq<string>, ib: seq<string>)
    requires |ia| == |a| && |ib| == |b|
    ensures var (mid, n) := ImportBatch(cs, a, ia);
            var (end, m) := ImportBatch(mid, b, ib);
            ImportBatch(cs, a + b, ia + ib) == (end, n + m)
    decreases |a|
  {
    if a == [] {
      assert a + b == b && ia + ib == ib;
    } else {
      assert (a + b)[1..] == a[1..] + b && (ia + ib)[1..] == ia[1..] + ib;
      var cs' := if EndpointOf(a[0]) in Endpoints(cs) then cs else cs + [a[0].(id := ia[0])];
      ImportInTwo(cs', a[1..], b, ia[1..], ib);
    }
  }

  /**
    The import meets its simple specification: the old list is kept and followed by the first connection
    of each new endpoint, in order; the number added is the number of distinct new endpoints.
  */
  lemma {:induction false} ImportAddsFirstOccurrences(cs: seq<Connection>, batch: seq<Connection>, ids: seq<string>)
    requires |ids| == |batch|
    ensures ImportBatch(cs, batch, ids)
         == (cs + NewOnes(cs, batch, ids, |batch|), |Endpoints(batch) - Endpoints(cs)|)
  {
    ImportPrefix(cs, batch, ids, |batch|);
    CountNewOnes(cs, batch, ids, |batch|);
    assert batch[..|batch|] == batch && ids[..|batch|] == ids;
  }

  /** The number is that of the connections added. */
  lemma {:induction false} ImportCounts(cs: seq<Connection>, batch: seq<Connection>, ids: seq<string>)
    requires |ids| == |batch|
    ensures |ImportBatch(cs, batch, ids).0| == |cs| + ImportBatch(cs, batch, ids).1
  {
    ImportPrefix(cs, batch, ids, |batch|);
    assert batch[..|batch|] == batch && ids[..|batch|] == ids;
  }

  lemma {:induction false} ImportedEndpoints(cs: seq<Connection>, batch: seq<Connection>, ids: seq<string>, n: nat)
    requires |ids| == |batch| && n <= |batch|
    ensures Endpoints(cs + NewOnes(cs, batch, ids, n)) == Endpoints(cs) + Endpoints(batch[..n])
  {
    if n == 0 {
      assert cs + [] == cs && batch[..0] == [];
    } else {
      var c, id := batch[n - 1], ids[n - 1];
      var sofar := NewOnes(cs, batch, ids, n - 1);
      ImportedEndpoints(cs, batch, ids, n - 1);
      assert batch[..n] == batch[..n - 1] + [c];
      EndpointsConcat(batch[..n - 1], [c]);
      assert Endpoints([c]) == {EndpointOf(c)} == Endpoints([c.(id := id)]);
      if IsNew(cs, batch, n - 1) {
        Assoc(cs, sofar, [c.(id := id)]);
        EndpointsConcat(cs + sofar, [c.(id := id)]);
      } else {
        assert NewOnes(cs, batch, ids, n) == sofar;
      }
    }
  }

  /** The number of distinct new endpoints grows with each new one. */
  lemma {:induction false} CountNew(cs: seq<Connection>, batch: seq<Connection>, n: nat)
    requires 0 < n <= |batch|
    ensures |Endpoints(batch[..n]) - Endpoints(cs)|
         == |Endpoints(batch[..n - 1]) - Endpoints(cs)| + if IsNew(cs, batch, n - 1) then 1 else 0
  {
    var e := EndpointOf(batch[n - 1]);
    var before, seen := Endpoints(cs), Endpoints(batch[..n - 1]);
    assert batch[..n] == batch[..n - 1] + [batch[n - 1]];
    EndpointsConcat(batch[..n - 1], [batch[n - 1]]);
    assert Endpoints([batch[n - 1]]) == {e};
    OneMore(seen, before, e);
  }

  lemma {:induction false} OneMore<T>(seen: set<T>, before: set<T>, e: T)
    ensures |(seen + {e}) - before| == |seen - before| + if e in before + seen then 0 else 1
  {
    assert (seen + {e}) - before == if e in before + seen then seen - before else (seen - before) + {e};
  }

  lemma {:induction false} CountNewOnes(cs: seq<Connection>, batch: seq<Connection>, ids: seq<string>, n: nat)
    requires |ids| == |batch| && n <= |batch|
    ensures |NewOnes(cs, batch, ids, n)| == |Endpoints(batch[..n]) - Endpoints(cs)|
  {
    if n == 0 {
      assert Endpoints(batch[..0]) - Endpoints(cs) == {};
    } else {
      CountNewOnes(cs, batch, ids, n - 1);
      CountNew(cs, batch, n);
    }
  }

  lemma {:induction false} ImportPrefix(cs: seq<Connection>, batch: seq<Connection>, ids: seq<string>, n: nat)
    requires |ids| == |batch| && n <= |batch|
    ensures ImportBatch(cs, batch[..n], ids[..n])
         == (cs + NewOnes(cs, batch, ids, n), |NewOnes(cs, batch, ids, n)|)
  {
    if n == 0 {
      assert cs + [] == cs;
    } else {
      var a, c, ia, id := batch[..n - 1], batch[n - 1], ids[..n - 1], ids[n - 1];
      ImportPrefix(cs, batch, ids, n - 1);
      ImportedEndpoints(cs, batch, ids, n - 1);
      ImportNext(cs, a, c, ia, id);
      TakeOneMore(batch, n);
      TakeOneMore(ids, n);
      Assoc(cs, NewOnes(cs, batch, ids, n - 1), if IsNew(cs, batch, n - 1) then [c.(id := id)] else []);
    }
  }

  lemma {:induction false} ImportNext(
    cs: seq<Connection>, a: seq<Connection>, c: Connection, ia: seq<string>, id: string)
    requires |ia| == |a|
    ensures var (mid, n) := ImportBatch(cs, a, ia);
            ImportBatch(cs, a + [c], ia + [id])
            == if EndpointOf(c) in Endpoints(mid) then (mid + [], n) else (mid + [c.(id := id)], n + 1)
  {
    var mid := ImportBatch(cs, a, ia).0;
    ImportInTwo(cs, a, [c], ia, [id]);
    assert [c][1..] == [] && [id][1..] == [] && mid + [] == mid;
  }

  /** A batch imported once already adds nothing and changes nothing. */
  lemma {:induction false} ReimportAddsNothing(
    cs: seq<Connection>, batch: seq<Connection>, ids: seq<string>, ids': seq<string>)
    requires |ids| == |ids'| == |batch|
    ensures var (once, _) := ImportBatch(cs, batch, ids);
            ImportBatch(once, batch, ids') == (once, 0)
  {
    ImportPrefix(cs, batch, ids, |batch|);
    ImportedEndpoints(cs, batch, ids, |batch|);
    assert batch[..|batch|] == batch && ids[..|batch|] == ids;
    KnownBatch(ImportBatch(cs, batch, ids).0, batch, ids');
  }

  lemma {:induction false} KnownBatch(cs: seq<Connection>, batch: seq<Connection>, ids: seq<string>)
    requires |ids| == |batch| && Endpoints(batch) <= Endpoints(cs)
    ensures ImportBatch(cs, batch, ids) == (cs, 0)
  {
    if batch != [] {
      KnownBatch(cs, batch[1..], ids[1..]);
    }
  }

  // ---- The operations ----

  /** The first position of an id, as `iter().position` finds it. */
  function ConnectionAt(cs: seq<Connection>, id: string): (pos: Option<nat>)
    ensures pos.Some? ==> pos.value < |cs| && cs[pos.value].id == id
    ensures pos.Some? ==> forall i :: 0 <= i < pos.value ==> cs[i].id != id
    ensures pos.None? ==> forall c :: c in cs ==> c.id != id
  {
    if cs == [] then None
    else if cs[0].id == id then Some(0)
    else
      var pos :- ConnectionAt(cs[1..], id);
      Some(pos + 1)
  }

  function FolderAt(fs: seq<Folder>, id: string): (pos: Option<nat>)
    ensures pos.Some? ==> pos.value < |fs| && fs[pos.value].id == id
    ensures pos.Some? ==> forall i :: 0 <= i < pos.value ==> fs[i].id != id
    ensures pos.None? ==> forall f :: f in fs ==> f.id != id
  {
    if fs == [] then None
    else if fs[0].id == id then Some(0)
    else
      var pos :- FolderAt(fs[1..], id);
      Some(pos + 1)
  }

  /** The connections with those of folder `id` moved to the root. */
  function Unfile(cs: seq<Connection>, id: string): (moved: seq<Connection>)
    ensures |moved| == |cs|
    ensures forall i :: 0 <= i < |cs| ==>
              moved[i] == if cs[i].folderId == Some(id) then cs[i].(folderId := None) else cs[i]
  {
    seq(|cs|, i requires 0 <= i < |cs| =>
      if cs[i].folderId == Some(id) then cs[i].(folderId := None) else cs[i])
  }

  datatype Op =
    | AddConnection(connection: Connection)
    | UpdateConnection(connection: Connection)
    | DeleteConnection(id: string)
    | ReplaceConnections(connections: seq<Connection>)
    | ImportConnections(connections: seq<Connection>, ids: seq<string>)
    | AddFolder(folder: Folder)
    | UpdateFolder(folder: Folder)
    | DeleteFolder(id: string)
  {
    /** An import draws an id for every connection of its batch. */
    predicate WellFormed() {
      ImportConnections? ==> |ids| == |connections|
    }
  }

  function Apply(op: Op, d: VaultData): Result<VaultData, Error>
    requires op.WellFormed()
  {
    match op
    case AddConnection(c) => Ok(d.(connections := d.connections + [c]))
    case UpdateConnection(c) =>
      (match ConnectionAt(d.connections, c.id)
       case Some(pos) => Ok(d.(connections := d.connections[pos := c]))
       case None => Err(ConnectionNotFound(c.id)))
    case DeleteConnection(id) =>
      (match ConnectionAt(d.connections, id)
       case Some(pos) => Ok(d.(connections := d.connections[..pos] + d.connections[pos + 1..]))
       case None => Err(ConnectionNotFound(id)))
    case ReplaceConnections(cs) => Ok(d.(connections := cs))
    case ImportConnections(batch, ids) => Ok(d.(connections := ImportBatch(d.connections, batch, ids).0))
    case AddFolder(f) => Ok(d.(folders := d.folders + [f]))
    case UpdateFolder(f) =>
      (match FolderAt(d.folders, f.id)
       case Some(pos) => Ok(d.(folders := d.folders[pos := f]))
       case None => Err(FolderNotFound(f.id)))
    case DeleteFolder(id) =>
      (match FolderAt(d.folders, id)
       case Some(pos) => Ok(VaultData(Unfile(d.connections, id), d.folders[..pos] + d.folders[pos + 1..]))
       case None => Err(FolderNotFound(id)))
  }

  // ---- What each operation promises ----

  /** `pos` is where the first of these ids is `id`. */
  ghost predicate FirstAt(ids: seq<string>, id: string, pos: nat) {
    pos < |ids| && ids[pos] == id && forall i :: 0 <= i < pos ==> ids[i] != id
  }

  ghost function IdsOfConnections(cs: seq<Connection>): (ids: seq<string>)
    ensures |ids| == |cs| && forall i :: 0 <= i < |cs| ==> ids[i] == cs[i].id
  {
    seq(|cs|, i requires 0 <= i < |cs| => cs[i].id)
  }

  ghost function IdsOfFolders(fs: seq<Folder>): (ids: seq<string>)
    ensures |ids| == |fs| && forall i :: 0 <= i < |fs| ==> ids[i] == fs[i].id
  {
    seq(|fs|, i requires 0 <= i < |fs| => fs[i].id)
  }

  /** One more element at the end, everything before it as it was. */
  ghost predicate Extended<T(!new)>(before: seq<T>, after: seq<T>, x: T) {
    |after| == |before| + 1 && Last(after) == x && forall i :: 0 <= i < |before| ==> after[i] == before[i]
  }

  /** Position `pos` holds `x`, every other what it held. */
  ghost predicate Replaced<T(!new)>(before: seq<T>, after: seq<T>, pos: nat, x: T) {
    |after| == |before| && forall i :: 0 <= i < |before| ==> after[i] == if i == pos then x else before[i]
  }

  /** Position `pos` is gone, what came after it has moved up, and the order is kept. */
  ghost predicate Removed<T(!new)>(before: seq<T>, after: seq<T>, pos: nat) {
    |before| == |after| + 1 && forall i :: 0 <= i < |after| ==> after[i] == before[if i < pos then i else i + 1]
  }

  ghost predicate Unfiled(before: seq<Connection>, after: seq<Connection>, id: string) {
    && |after| == |before|
    && forall i :: 0 <= i < |before| ==>
         && (before[i].folderId == Some(id) ==> after[i] == before[i].(folderId := None))
         && (before[i].folderId != Some(id) ==> after[i] == before[i])
  }

  ghost predicate Twins(a: Connection, b: Connection) {
    a.name == b.name && a.host == b.host && a.port == b.port
  }

  /** Nothing is imported twice: two of the list that share name, host and port were both there before. */
  ghost predicate NoNewTwin(before: seq<Connection>, after: seq<Connection>) {
    forall i, j :: 0 <= i < j < |after| && j >= |before| ==> !Twins(after[i], after[j])
  }

  /** `c` is from the batch, under the id drawn for it. */
  ghost predicate Picked(c: Connection, batch: seq<Connection>, ids: seq<string>)
    requires |ids| == |batch|
  {
    exists k :: 0 <= k < |batch| && c == batch[k].(id := ids[k])
  }

  ghost predicate NewFrom(before: seq<Connection>, after: seq<Connection>, batch: seq<Connection>, ids: seq<string>)
    requires |ids| == |batch|
  {
    forall i :: |before| <= i < |after| ==> Picked(after[i], batch, ids)
  }

  ghost predicate HasTwin(cs: seq<Connection>, c: Connection) {
    exists i :: 0 <= i < |cs| && Twins(cs[i], c)
  }

  /** Each of the batch has its like in the list. */
  ghost predicate AllArrived(after: seq<Connection>, batch: seq<Connection>) {
    forall k :: 0 <= k < |batch| ==> HasTwin(after, batch[k])
  }

  ghost predicate ImportedFrom(
    before: seq<Connection>, after: seq<Connection>, batch: seq<Connection>, ids: seq<string>)
    requires |ids| == |batch|
  {
    before <= after && NoNewTwin(before, after) && NewFrom(before, after, batch, ids) && AllArrived(after, batch)
  }

  /** What a successful operation has done, in positions and contents. */
  ghost predicate Does(op: Op, d: VaultData, after: VaultData)
    requires op.WellFormed()
  {
    match op
    case AddConnection(c) => after.folders == d.folders && Extended(d.connections, after.connections, c)
    case UpdateConnection(c) =>
      && after.folders == d.folders
      && exists pos :: FirstAt(IdsOfConnections(d.connections), c.id, pos)
                       && Replaced(d.connections, after.connections, pos, c)
    case DeleteConnection(id) =>
      && after.folders == d.folders
      && exists pos :: FirstAt(IdsOfConnections(d.connections), id, pos)
                       && Removed(d.connections, after.connections, pos)
    case ReplaceConnections(cs) => after.folders == d.folders && after.connections == cs
    case ImportConnections(batch, ids) =>
      after.folders == d.folders && ImportedFrom(d.connections, after.connections, batch, ids)
    case AddFolder(f) => after.connections == d.connections && Extended(d.folders, after.folders, f)
    case UpdateFolder(f) =>
      && after.connections == d.connections
      && exists pos :: FirstAt(IdsOfFolders(d.folders), f.id, pos) && Replaced(d.folders, after.folders, pos, f)
    case DeleteFolder(id) =>
      && Unfiled(d.connections, after.connections, id)
      && exists pos :: FirstAt(IdsOfFolders(d.folders), id, pos) && Removed(d.folders, after.folders, pos)
  }

  /** Why an operation on an unlocked vault is refused, if it is: there is nothing of that id. */
  ghost function Refusal(op: Op, d: VaultData): Option<Error> {
    match op
    case UpdateConnection(c) =>
      if c.id in IdsOfConnections(d.connections) then None else Some(ConnectionNotFound(c.id))
    case DeleteConnection(id) =>
      if id in IdsOfConnections(d.connections) then None else Some(ConnectionNotFound(id))
    case UpdateFolder(f) => if f.id in IdsOfFolders(d.folders) then None else Some(FolderNotFound(f.id))
    case DeleteFolder(id) => if id in IdsOfFolders(d.folders) then None else Some(FolderNotFound(id))
    case _ => None
  }

  /** Every operation does what it promises, or is refused for want of the id, and then for that reason. */
  lemma {:induction false} ApplyDoes(op: Op, d: VaultData)
    requires op.WellFormed()
    ensures Refusal(op, d).Some? ==> Apply(op, d) == Err(Refusal(op, d).value)
    ensures Refusal(op, d).None? ==> Apply(op, d).Ok? && Does(op, d, Apply(op, d).value)
  {
    match op {
      case UpdateConnection(_) => UpdateConnectionDoes(op, d);
      case DeleteConnection(_) => DeleteConnectionDoes(op, d);
      case ImportConnections(batch, ids) => ImportDoes(d.connections, batch, ids);
      case UpdateFolder(_) => UpdateFolderDoes(op, d);
      case DeleteFolder(_) => DeleteFolderDoes(op, d);
      case AddConnection(_) | ReplaceConnections(_) | AddFolder(_) =>
    }
  }

  lemma {:induction false} UpdateConnectionDoes(op: Op, d: VaultData)
    requires op.UpdateConnection?
    ensures Refusal(op, d).Some? ==> Apply(op, d) == Err(Refusal(op, d).value)
    ensures Refusal(op, d).None? ==> Apply(op, d).Ok? && Does(op, d, Apply(op, d).value)
  {
    FirstConnection(d.connections, op.connection.id);
  }

  lemma {:induction false} DeleteConnectionDoes(op: Op, d: VaultData)
    requires op.DeleteConnection?
    ensures Refusal(op, d).Some? ==> Apply(op, d) == Err(Refusal(op, d).value)
    ensures Refusal(op, d).None? ==> Apply(op, d).Ok? && Does(op, d, Apply(op, d).value)
  {
    FirstConnection(d.connections, op.id);
  }

  lemma {:induction false} UpdateFolderDoes(op: Op, d: VaultData)
    requires op.UpdateFolder?
    ensures Refusal(op, d).Some? ==> Apply(op, d) == Err(Refusal(op, d).value)
    ensures Refusal(op, d).None? ==> Apply(op, d).Ok? && Does(op, d, Apply(op, d).value)
  {
    FirstFolder(d.folders, op.folder.id);
  }

  lemma {:induction false} DeleteFolderDoes(op: Op, d: VaultData)
    requires op.DeleteFolder?
    ensures Refusal(op, d).Some? ==> Apply(op, d) == Err(Refusal(op, d).value)
    ensures Refusal(op, d).None? ==> Apply(op, d).Ok? && Does(op, d, Apply(op, d).value)
  {
    FirstFolder(d.folders, op.id);
  }

  lemma {:induction false} FirstConnection(cs: seq<Connection>, id: string)
    ensures ConnectionAt(cs, id).Some? <==> id in IdsOfConnections(cs)
    ensures ConnectionAt(cs, id).Some? ==> FirstAt(IdsOfConnections(cs), id, ConnectionAt(cs, id).value)
  {
    if ConnectionAt(cs, id).Some? {
      assert IdsOfConnections(cs)[ConnectionAt(cs, id).value] == id;
    }
  }

  lemma {:induction false} FirstFolder(fs: seq<Folder>, id: string)
    ensures FolderAt(fs, id).Some? <==> id in IdsOfFolders(fs)
    ensures FolderAt(fs, id).Some? ==> FirstAt(IdsOfFolders(fs), id, FolderAt(fs, id).value)
  {
    if FolderAt(fs, id).Some? {
      assert IdsOfFolders(fs)[FolderAt(fs, id).value] == id;
    }
  }

  /** Nothing else does it: what an operation promises leaves no choice, but for which twins an import takes. */
  lemma {:induction false} DoesOneThing(op: Op, d: VaultData, a: VaultData, b: VaultData)
    requires op.WellFormed() && !op.ImportConnections? && Does(op, d, a) && Does(op, d, b)
    ensures a == b
  {
    assert a.connections == b.connections && a.folders == b.folders by {
      match op
      case AddConnection(c) => SameExtended(d.connections, a.connections, b.connections, c);
      case AddFolder(f) => SameExtended(d.folders, a.folders, b.folders, f);
      case _ =>
    }
  }

  lemma {:induction false} SameExtended<T(!new)>(before: seq<T>, a: seq<T>, b: seq<T>, x: T)
    requires Extended(before, a, x) && Extended(before, b, x)
    ensures a == b
  {
  }

  lemma {:induction false} ImportDoes(cs: seq<Connection>, batch: seq<Connection>, ids: seq<string>)
    requires |ids| == |batch|
    ensures ImportedFrom(cs, ImportBatch(cs, batch, ids).0, batch, ids)
    decreases |batch|
  {
    if batch != [] {
      var known := EndpointOf(batch[0]) in Endpoints(cs);
      var cs' := if known then cs else cs + [batch[0].(id := ids[0])];
      var after := ImportBatch(cs', batch[1..], ids[1..]).0;
      ImportDoes(cs', batch[1..], ids[1..]);
      KnownIffTwin(cs, batch[0]);
      ImportedFirst(cs, known, after, batch, ids);
    }
  }

  lemma {:induction false} KnownIffTwin(cs: seq<Connection>, c: Connection)
    ensures EndpointOf(c) in Endpoints(cs) <==> HasTwin(cs, c)
  {
    if cs != [] {
      KnownIffTwin(cs[1..], c);
      if i :| 0 <= i < |cs[1..]| && Twins(cs[1..][i], c) {
        assert Twins(cs[i + 1], c);
      }
      if i :| 1 <= i < |cs| && Twins(cs[i], c) {
        assert Twins(cs[1..][i - 1], c);
      }
    }
  }

  /** One element of a batch, and then the others. */
  lemma {:induction false} ImportedFirst(
    cs: seq<Connection>, known: bool, after: seq<Connection>, batch: seq<Connection>, ids: seq<string>)
    requires |ids| == |batch| > 0 && (known <==> HasTwin(cs, batch[0]))
    requires ImportedFrom(if known then cs else cs + [batch[0].(id := ids[0])], after, batch[1..], ids[1..])
    ensures ImportedFrom(cs, after, batch, ids)
  {
    if known {
      var i :| 0 <= i < |cs| && Twins(cs[i], batch[0]);
      assert after[i] == cs[i];
      FirstHasLike(after, batch, i);
    } else {
      var c := batch[0].(id := ids[0]);
      assert (cs + [c])[|cs|] == c == after[|cs|];
      FirstIsNoTwin(cs, c, after);
      FirstHasLike(after, batch, |cs|);
    }
    FirstIsFromBatch(cs, known, after, batch, ids);
  }

  lemma {:induction false} FirstIsNoTwin(cs: seq<Connection>, c: Connection, after: seq<Connection>)
    requires cs + [c] <= after && NoNewTwin(cs + [c], after) && forall i :: 0 <= i < |cs| ==> !Twins(cs[i], c)
    ensures cs <= after && NoNewTwin(cs, after)
  {
    assert after[|cs|] == (cs + [c])[|cs|] && forall i :: 0 <= i < |cs| ==> after[i] == (cs + [c])[i] == cs[i];
  }

  lemma {:induction false} FirstIsFromBatch(
    cs: seq<Connection>, known: bool, after: seq<Connection>, batch: seq<Connection>, ids: seq<string>)
    requires |ids| == |batch| > 0 && (!known ==> |cs| < |after| && after[|cs|] == batch[0].(id := ids[0]))
    requires NewFrom(if known then cs else cs + [batch[0].(id := ids[0])], after, batch[1..], ids[1..])
    ensures NewFrom(cs, after, batch, ids)
  {
    forall i | |cs| <= i < |after|
      ensures Picked(after[i], batch, ids)
    {
      if known || i > |cs| {
        assert Picked(after[i], batch[1..], ids[1..]);
        var k :| 0 <= k < |batch[1..]| && after[i] == batch[1..][k].(id := ids[1..][k]);
        assert after[i] == batch[k + 1].(id := ids[k + 1]);
      } else {
        assert after[i] == batch[0].(id := ids[0]);
      }
    }
  }

  lemma {:induction false} FirstHasLike(after: seq<Connection>, batch: seq<Connection>, i: nat)
    requires batch != [] && i < |after| && Twins(after[i], batch[0]) && AllArrived(after, batch[1..])
    ensures AllArrived(after, batch)
  {
    forall k | 0 <= k < |batch|
      ensures HasTwin(after, batch[k])
    {
      assert k > 0 ==> batch[1..][k - 1] == batch[k];
    }
  }

  // ---- Reference integrity ----

  predicate Refers(key: Option<string>, fs: seq<Folder>) {
    key.Some? ==> key.value in FolderIds(fs)
  }

  /** Folder ids are unique and every connection is filed in an existing folder or in none. */
  ghost predicate Consistent(d: VaultData) {
    UniqueIds(d.folders) && forall c :: c in d.connections ==> Refers(c.folderId, d.folders)
  }

  /** The caller names only folders that exist, and a new folder has a fresh id. */
  ghost predicate CallerObeys(op: Op, d: VaultData) {
    && op.WellFormed()
    && match op
       case AddConnection(c) => Refers(c.folderId, d.folders)
       case UpdateConnection(c) => Refers(c.folderId, d.folders)
       case ReplaceConnections(cs) => forall c :: c in cs ==> Refers(c.folderId, d.folders)
       case ImportConnections(cs, _) => forall c :: c in cs ==> Refers(c.folderId, d.folders)
       case AddFolder(f) => f.id !in FolderIds(d.folders)
       case _ => true
  }

  lemma {:induction false} ApplyKeepsConsistent(op: Op, d: VaultData)
    requires Consistent(d) && CallerObeys(op, d)
    ensures Apply(op, d).Ok? ==> Consistent(Apply(op, d).value)
  {
    match op {
      case AddConnection(c) =>
      case UpdateConnection(c) =>
      case DeleteConnection(id) =>
      case ReplaceConnections(cs) =>
      case ImportConnections(batch, ids) => ImportedRefer(d.connections, batch, ids, d.folders);
      case AddFolder(f) => AddKeepsConsistent(d, f);
      case UpdateFolder(f) => UpdateKeepsConsistent(d, f);
      case DeleteFolder(id) => DeleteKeepsConsistent(d, id);
    }
  }

  lemma {:induction false} AddKeepsConsistent(d: VaultData, f: Folder)
    requires Consistent(d) && f.id !in FolderIds(d.folders)
    ensures Consistent(d.(folders := d.folders + [f]))
  {
    forall g | g in d.folders
      ensures g in d.folders + [f]
    {
    }
    assert FolderIds(d.folders) <= FolderIds(d.folders + [f]);
  }

  lemma {:induction false} UpdateKeepsConsistent(d: VaultData, f: Folder)
    requires Consistent(d)
    ensures Apply(UpdateFolder(f), d).Ok? ==> Consistent(Apply(UpdateFolder(f), d).value)
  {
    if FolderAt(d.folders, f.id).Some? {
      SameIds(d.folders, FolderAt(d.folders, f.id).value, f);
    }
  }

  lemma {:induction false} DeleteKeepsConsistent(d: VaultData, id: string)
    requires Consistent(d)
    ensures Apply(DeleteFolder(id), d).Ok? ==> Consistent(Apply(DeleteFolder(id), d).value)
  {
    if FolderAt(d.folders, id).Some? {
      WithoutOne(d.folders, FolderAt(d.folders, id).value);
    }
  }

  lemma {:induction false} ImportedRefer(
    cs: seq<Connection>, batch: seq<Connection>, ids: seq<string>, fs: seq<Folder>)
    requires |ids| == |batch|
    requires forall c :: c in cs ==> Refers(c.folderId, fs)
    requires forall c :: c in batch ==> Refers(c.folderId, fs)
    ensures forall c :: c in ImportBatch(cs, batch, ids).0 ==> Refers(c.folderId, fs)
    decreases |batch|
  {
    if batch != [] {
      var cs' := if EndpointOf(batch[0]) in Endpoints(cs) then cs else cs + [batch[0].(id := ids[0])];
      assert batch[0] in batch;
      ImportedRefer(cs', batch[1..], ids[1..], fs);
    }
  }

  lemma {:induction false} SameIds(fs: seq<Folder>, pos: nat, f: Folder)
    requires pos < |fs| && fs[pos].id == f.id
    ensures FolderIds(fs[pos := f]) == FolderIds(fs)
  {
    var fs' := fs[pos := f];
    forall id
      ensures id in FolderIds(fs') <==> id in FolderIds(fs)
    {
      assert forall i :: 0 <= i < |fs| ==> fs'[i].id == fs[i].id && fs[i] in fs && fs'[i] in fs';
    }
  }

  lemma {:induction false} WithoutOne(fs: seq<Folder>, pos: nat)
    requires UniqueIds(fs) && pos < |fs|
    ensures var left := fs[..pos] + fs[pos + 1..];
            UniqueIds(left) && FolderIds(left) == FolderIds(fs) - {fs[pos].id}
            && forall f :: f in left <==> f in fs && f != fs[pos]
  {
    var left := fs[..pos] + fs[pos + 1..];
    assert forall i :: 0 <= i < |left| ==> left[i] == fs[if i < pos then i else i + 1];
    forall f | f in fs && f != fs[pos]
      ensures f in left
    {
      var i :| 0 <= i < |fs| && fs[i] == f;
      assert left[if i < pos then i else i - 1] == f;
    }
  }

  /** The data after a run; an operation that fails changes nothing. */
  function RunOps(ops: seq<Op>, d: VaultData): VaultData
    requires forall op :: op in ops ==> op.WellFormed()
    decreases ops
  {
    if ops == [] then d
    else
      var r := Apply(ops[0], d);
      RunOps(ops[1..], if r.Ok? then r.value else d)
  }

  ghost predicate CallersObey(ops: seq<Op>, d: VaultData)
    requires forall op :: op in ops ==> op.WellFormed()
    decreases ops
  {
    ops != [] ==>
      && CallerObeys(ops[0], d)
      && var r := Apply(ops[0], d); CallersObey(ops[1..], if r.Ok? then r.value else d)
  }

  /** Reference integrity over all runs. */
  lemma {:induction false} RunsKeepConsistent(ops: seq<Op>, d: VaultData)
    requires forall op :: op in ops ==> op.WellFormed()
    requires Consistent(d) && CallersObey(ops, d)
    ensures Consistent(RunOps(ops, d))
    decreases ops
  {
    if ops != [] {
      ApplyKeepsConsistent(ops[0], d);
      var r := Apply(ops[0], d);
      RunsKeepConsistent(ops[1..], if r.Ok? then r.value else d);
    }
  }

  // ---- Deleting a folder ----

  /** The folders whose parent id names no folder. */
  ghost function Dangling(fs: seq<Folder>): set<Folder> {
    set f | f in fs && !Refers(f.parentId, fs)
  }

  /**
    Deleting a folder keeps every connection in its place under its id, moves exactly those of the folder
    to the root, and leaves dangling exactly the folder's children besides those that dangled before.
  */
  lemma {:induction false} DeleteFolderExactly(d: VaultData, id: string)
    requires Consistent(d) && Apply(DeleteFolder(id), d).Ok?
    ensures var after := Apply(DeleteFolder(id), d).value;
            && |after.connections| == |d.connections|
            && (forall i :: 0 <= i < |d.connections| ==>
                  && after.connections[i].id == d.connections[i].id
                  && after.connections[i].folderId
                     == if d.connections[i].folderId == Some(id) then None else d.connections[i].folderId)
            && (forall f :: f in after.folders <==> f in d.folders && f.id != id)
            && Dangling(after.folders)
               == set f | f in d.folders && f.id != id && (f in Dangling(d.folders) || f.parentId == Some(id))
  {
    var pos := FolderAt(d.folders, id).value;
    WithoutOne(d.folders, pos);
  }

  // ---- The import as operations ----

  /** `import_mremoteng_xml` after parsing: all folders first, so that the connections can refer to them. */
  function ImportOps(folders: seq<Folder>, connections: seq<Connection>, ids: seq<string>): seq<Op> {
    seq(|folders|, i requires 0 <= i < |folders| => AddFolder(folders[i])) + [ImportConnections(connections, ids)]
  }

  lemma {:induction false} ImportRun(
    folders: seq<Folder>, connections: seq<Connection>, ids: seq<string>, d: VaultData)
    requires |ids| == |connections|
    ensures forall op :: op in ImportOps(folders, connections, ids) ==> op.WellFormed()
    ensures RunOps(ImportOps(folders, connections, ids), d)
         == VaultData(ImportBatch(d.connections, connections, ids).0, d.folders + folders)
    ensures UniqueIds(d.folders + folders)
            && (forall c :: c in connections ==> Refers(c.folderId, d.folders + folders))
            ==> CallersObey(ImportOps(folders, connections, ids), d)
    decreases |folders|
  {
    var ops := ImportOps(folders, connections, ids);
    if folders == [] {
      assert ops == [ImportConnections(connections, ids)];
      assert ops[1..] == [] && d.folders + folders == d.folders;
    } else {
      assert ops[1..] == ImportOps(folders[1..], connections, ids);
      var d' := d.(folders := d.folders + [folders[0]]);
      assert d'.folders + folders[1..] == d.folders + folders;
      ImportRun(folders[1..], connections, ids, d');
      if UniqueIds(d.folders + folders) {
        var all := d.folders + folders;
        forall i | 0 <= i < |d.folders|
          ensures d.folders[i].id != folders[0].id
        {
          assert all[i] == d.folders[i] && all[|d.folders|] == folders[0];
        }
      }
    }
  }
}
