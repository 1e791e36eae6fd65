/** The vault object and its methods (rust/src/api/vault.rs), each doing what its specification says. */
module Vault {
  import opened Collections
  import opened Models
  import opened VaultOps
  import opened VaultFile

  /** The files on disk, by path. */
  class Disk {
    var files: map<string, string>

    constructor ()
      ensures files == map[]
    {
      files := map[];
    }
  }

  /** An operation on a vault that may be locked; a failing one leaves the state as it was. */
  function Perform(op: Op, state: Option<VaultState>): (Option<VaultState>, Result<(), Error>)
    requires op.WellFormed()
  {
    if state.None? then (None, Err(VaultLocked))
    else
      match Apply(op, state.value.data)
      case Ok(d) => (Some(state.value.(data := d)), Ok(()))
      case Err(e) => (state, Err(e))
  }

  /**
    What an operation has made of the vault, and said: a locked vault refuses; an id that is not there is
    refused; otherwise the data is as promised. Nothing else changes, and after a refusal nothing at all.
  */
  ghost predicate Performed(
    op: Op, before: Option<VaultState>, after: Option<VaultState>, r: Result<(), Error>)
    requires op.WellFormed()
  {
    if before.None? then after == None && r == Err(VaultLocked)
    else if Refusal(op, before.value.data).Some? then
      after == before && r == Err(Refusal(op, before.value.data).value)
    else
      && r == Ok(()) && after.Some?
      && after.value.salt == before.value.salt && after.value.passwordHash == before.value.passwordHash
      && Does(op, before.value.data, after.value.data)
  }

  lemma {:induction false} PerformDoes(op: Op, state: Option<VaultState>)
    requires op.WellFormed()
    ensures Performed(op, state, Perform(op, state).0, Perform(op, state).1)
  {
    if state.Some? {
      ApplyDoes(op, state.value.data);
    }
  }

  class Vault {
    const pr: Primitives
    var state: Option<VaultState>
    var masterKey: Option<Key>

    constructor (pr: Primitives)
      ensures this.pr == pr && state == None && masterKey == None
    {
      this.pr, state, masterKey := pr, None, None;
    }

    /** Both fields are set or neither is, and then they belong to one password. */
    ghost predicate Agrees(password: string)
      reads this
    {
      && (state.Some? <==> masterKey.Some?)
      && (state.Some? ==> Unlocks(pr, password, state.value, masterKey.value))
    }

    method Create(password: string, salt: string) returns (r: Result<(), Error>)
      requires pr.Lawful()
      modifies this
      ensures r.Ok? ==> Agrees(password)
      ensures r.Ok? ==> && pr.hash(password, salt).Some? && masterKey == pr.derive(password, salt)
                        && state == Some(VaultState(EMPTY_DATA, salt, pr.hash(password, salt).value))
      ensures r.Ok? <==> pr.hash(password, salt).Some? && pr.derive(password, salt).Some?
      ensures r == Err(HashFailed) <==> pr.hash(password, salt).None?
      ensures r == Err(DeriveFailed) <==> pr.hash(password, salt).Some? && pr.derive(password, salt).None?
      ensures r.Err? ==> state == old(state) && masterKey == old(masterKey)
    {
      var passwordHash :- OrError(pr.hash(password, salt), HashFailed);
      var key :- OrError(pr.derive(password, salt), DeriveFailed);
      state := Some(VaultState(EMPTY_DATA, salt, passwordHash));
      masterKey := Some(key);
      r := Ok(());
    }

    method Lock()
      modifies this
      ensures state == None && masterKey == None
    {
      masterKey := None;
      state := None;
    }

    function IsUnlocked(): bool
      reads this
    {
      masterKey.Some?
    }

    method AddConnection(c: Connection) returns (r: Result<(), Error>)
      modifies this`state
      ensures (state, r) == Perform(Op.AddConnection(c), old(state))
      ensures Performed(Op.AddConnection(c), old(state), state, r)
    {
      PerformDoes(Op.AddConnection(c), state);
      if state.None? {
        return Err(VaultLocked);
      }
      SetConnections(state.value.data.connections + [c]);
      r := Ok(());
    }

    method UpdateConnection(c: Connection) returns (r: Result<(), Error>)
      modifies this`state
      ensures (state, r) == Perform(Op.UpdateConnection(c), old(state))
      ensures Performed(Op.UpdateConnection(c), old(state), state, r)
    {
      PerformDoes(Op.UpdateConnection(c), state);
      if state.None? {
        return Err(VaultLocked);
      }
      var pos := ConnectionAt(state.value.data.connections, c.id);
      if pos.None? {
        return Err(ConnectionNotFound(c.id));
      }
      SetConnections(state.value.data.connections[pos.value := c]);
      r := Ok(());
    }

    method DeleteConnection(id: string) returns (r: Result<(), Error>)
      modifies this`state
      ensures (state, r) == Perform(Op.DeleteConnection(id), old(state))
      ensures Performed(Op.DeleteConnection(id), old(state), state, r)
    {
      PerformDoes(Op.DeleteConnection(id), state);
      if state.None? {
        return Err(VaultLocked);
      }
      var cs := state.value.data.connections;
      var pos := ConnectionAt(cs, id);
      if pos.None? {
        return Err(ConnectionNotFound(id));
      }
      SetConnections(cs[..pos.value] + cs[pos.value + 1..]);
      r := Ok(());
    }

    method ReplaceConnections(cs: seq<Connection>) returns (r: Result<(), Error>)
      modifies this`state
      ensures (state, r) == Perform(Op.ReplaceConnections(cs), old(state))
      ensures Performed(Op.ReplaceConnections(cs), old(state), state, r)
    {
      PerformDoes(Op.ReplaceConnections(cs), state);
      if state.None? {
        return Err(VaultLocked);
      }
      SetConnections(cs);
      r := Ok(());
    }

    /** `ids[i]` is the id drawn for `batch[i]`, should it be added. */
    method ImportConnections(batch: seq<Connection>, ids: seq<string>) returns (r: Result<nat, Error>)
      requires |ids| == |batch|
      modifies this`state
      ensures state == Perform(Op.ImportConnections(batch, ids), old(state)).0
      ensures r == if old(state).None? then Err(VaultLocked)
                   else Ok(ImportBatch(old(state).value.data.connections, batch, ids).1)
      ensures Performed(Op.ImportConnections(batch, ids), old(state), state, if r.Ok? then Ok(()) else Err(r.error))
      ensures r.Ok? ==> |state.value.data.connections| == |old(state).value.data.connections| + r.value
    {
      ghost var was := state;
      if state.None? {
        return Err(VaultLocked);
      }
      var cs := state.value.data.connections;
      var added := 0;
      assert batch[0..] == batch && ids[0..] == ids;
      for i := 0 to |batch|
        invariant var (end, n) := ImportBatch(cs, batch[i..], ids[i..]);
                  (end, added + n) == ImportBatch(old(state).value.data.connections, batch, ids)
      {
        assert batch[i..][1..] == batch[i + 1..] && ids[i..][1..] == ids[i + 1..];
        var conn := batch[i];
        if EndpointOf(conn) !in Endpoints(cs) {
          cs := cs + [conn.(id := ids[i])];
          added := added + 1;
        }
      }
      SetConnections(cs);
      PerformDoes(Op.ImportConnections(batch, ids), was);
      ImportCounts(was.value.data.connections, batch, ids);
      r := Ok(added);
    }

    method AddFolder(f: Folder) returns (r: Result<(), Error>)
      modifies this`state
      ensures (state, r) == Perform(Op.AddFolder(f), old(state))
      ensures Performed(Op.AddFolder(f), old(state), state, r)
    {
      PerformDoes(Op.AddFolder(f), state);
      if state.None? {
        return Err(VaultLocked);
      }
      SetFolders(state.value.data.folders + [f]);
      r := Ok(());
    }

    method UpdateFolder(f: Folder) returns (r: Result<(), Error>)
      modifies this`state
      ensures (state, r) == Perform(Op.UpdateFolder(f), old(state))
      ensures Performed(Op.UpdateFolder(f), old(state), state, r)
    {
      PerformDoes(Op.UpdateFolder(f), state);
      if state.None? {
        return Err(VaultLocked);
      }
      var pos := FolderAt(state.value.data.folders, f.id);
      if pos.None? {
        return Err(FolderNotFound(f.id));
      }
      SetFolders(state.value.data.folders[pos.value := f]);
      r := Ok(());
    }

    method DeleteFolder(id: string) returns (r: Result<(), Error>)
      modifies this`state
      ensures (state, r) == Perform(Op.DeleteFolder(id), old(state))
      ensures Performed(Op.DeleteFolder(id), old(state), state, r)
    {
      PerformDoes(Op.DeleteFolder(id), state);
      if state.None? {
        return Err(VaultLocked);
      }
      var fs := state.value.data.folders;
      var pos := FolderAt(fs, id);
      if pos.None? {
        return Err(FolderNotFound(id));
      }
      SetFolders(fs[..pos.value] + fs[pos.value + 1..]);
      var cs := state.value.data.connections;
      ghost var before := cs;
      for i := 0 to |cs|
        invariant |cs| == |before|
        invariant cs[..i] == Unfile(before, id)[..i] && cs[i..] == before[i..]
      {
        if cs[i].folderId == Some(id) {
          cs := cs[i := cs[i].(folderId := None)];
        }
      }
      assert cs == Unfile(before, id);
      SetConnections(cs);
      r := Ok(());
    }

    method SetConnections(cs: seq<Connection>)
      requires state.Some?
      modifies this`state
      ensures state == Some(old(state).value.(data := old(state).value.data.(connections := cs)))
    {
      state := Some(state.value.(data := state.value.data.(connections := cs)));
    }

    method SetFolders(fs: seq<Folder>)
      requires state.Some?
      modifies this`state
      ensures state == Some(old(state).value.(data := old(state).value.data.(folders := fs)))
    {
      state := Some(state.value.(data := state.value.data.(folders := fs)));
    }

    /** `writable` says whether the directory can be made and the file written. */
    method SaveToFile(disk: Disk, path: string, nonce: seq<byte>, writable: bool) returns (r: Result<(), Error>)
      modifies disk
      ensures r.Ok? <==>
                && state.Some? && masterKey.Some? && writable
                && FileText(pr, state.value, masterKey.value, nonce).Ok?
      ensures state.None? || masterKey.None? ==> r == Err(VaultLocked)
      ensures state.Some? && masterKey.Some? && FileText(pr, state.value, masterKey.value, nonce).Err? ==>
                r == Err(FileText(pr, state.value, masterKey.value, nonce).error)
      ensures r == Err(WriteFailed) <==>
                && state.Some? && masterKey.Some? && !writable
                && FileText(pr, state.value, masterKey.value, nonce).Ok?
      ensures disk.files == if r.Ok? then old(disk.files)[path := FileText(pr, state.value, masterKey.value, nonce).value]
                            else old(disk.files)
    {
      if state.None? || masterKey.None? {
        return Err(VaultLocked);
      }
      var text :- FileText(pr, state.value, masterKey.value, nonce);
      if !writable {
        return Err(WriteFailed);
      }
      disk.files := disk.files[path := text];
      r := Ok(());
    }

    /** All or nothing: a failing load leaves both fields as they were. */
    method LoadFromFile(disk: Disk, path: string, password: string) returns (r: Result<(), Error>)
      modifies this
      ensures r.Ok? <==> path in disk.files && OpenFile(pr, disk.files[path], password).Ok?
      ensures r.Ok? ==> Agrees(password)
      ensures r.Ok? ==> var (vs, key) := OpenFile(pr, disk.files[path], password).value;
                        state == Some(vs) && masterKey == Some(key)
      ensures r.Err? ==> state == old(state) && masterKey == old(masterKey)
      ensures path !in disk.files ==> r == Err(ReadFailed)
      ensures path in disk.files && OpenFile(pr, disk.files[path], password).Err? ==>
                r == Err(OpenFile(pr, disk.files[path], password).error)
    {
      if path !in disk.files {
        return Err(ReadFailed);
      }
      var loaded :- OpenFile(pr, disk.files[path], password);
      OpenedIsUnlocked(pr, disk.files[path], password);
      state := Some(loaded.0);
      masterKey := Some(loaded.1);
      r := Ok(());
    }
  }

  // ---- Runs ----

  /** The state of an unlocked vault after a run of operations. */
  lemma {:induction false} RunsKeepThePassword(pr: Primitives, password: string, vs: VaultState, key: Key, ops: seq<Op>)
    requires forall op :: op in ops ==> op.WellFormed()
    requires Unlocks(pr, password, vs, key)
    ensures PerformAll(ops, Some(vs)) == Some(vs.(data := RunOps(ops, vs.data)))
    ensures Unlocks(pr, password, PerformAll(ops, Some(vs)).value, key)
    decreases ops
  {
    if ops != [] {
      RunsKeepThePassword(pr, password, Perform(ops[0], Some(vs)).0.value, key, ops[1..]);
    }
  }

  function PerformAll(ops: seq<Op>, state: Option<VaultState>): Option<VaultState>
    requires forall op :: op in ops ==> op.WellFormed()
    decreases ops
  {
    if ops == [] then state else PerformAll(ops[1..], Perform(ops[0], state).0)
  }

  /**
    The persistence round trip: from a vault that a password unlocks, after any run of operations, saving,
    locking and loading with that password brings the same data back, key passphrases aside.
  */
  lemma {:induction false} RestartKeepsData(
    pr: Primitives, password: string, vs: VaultState, key: Key, ops: seq<Op>, nonce: seq<byte>)
    requires pr.Lawful() && |nonce| == NONCE_SIZE
    requires forall op :: op in ops ==> op.WellFormed()
    requires Unlocks(pr, password, vs, key)
    ensures var now := vs.(data := RunOps(ops, vs.data));
            && PerformAll(ops, Some(vs)) == Some(now)
            && FileText(pr, now, key, nonce).Ok?
            && OpenFile(pr, FileText(pr, now, key, nonce).value, password) == Ok((Erased(now), key))
  {
    RunsKeepThePassword(pr, password, vs, key, ops);
    SavedFileOpens(pr, PerformAll(ops, Some(vs)).value, key, nonce, password);
  }

  /** The same for the objects: save, lock, load. */
  method Restart(vault: Vault, disk: Disk, path: string, password: string, nonce: seq<byte>)
    returns (r: Result<(), Error>)
    requires vault.pr.Lawful() && |nonce| == NONCE_SIZE
    requires vault.Agrees(password) && vault.state.Some?
    modifies vault, disk
    ensures r.Ok? && vault.Agrees(password)
    ensures vault.state == Some(Erased(old(vault.state).value)) && vault.masterKey == old(vault.masterKey)
  {
    SavedFileOpens(vault.pr, vault.state.value, vault.masterKey.value, nonce, password);
    var saved := vault.SaveToFile(disk, path, nonce, true);
    vault.Lock();
    r := vault.LoadFromFile(disk, path, password);
  }
}
