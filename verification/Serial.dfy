/**
  The threads' scripts and the vault object are two accounts of the same calls. Here each call is carried out
  on the objects, and does to them what the sections of its script do, one after the other; the steps of a
  thread that no other interrupts lead there too (`Solo.CallReaches`).
*/
module Serial {
  import opened Collections
  import opened Models
  import opened VaultOps
  import opened VaultFile
  import opened Vault
  import opened Concurrency
  import opened Solo
  import App

  /** What the objects hold. */
  ghost function Held(vault: Vault, disk: Disk): Store
    reads vault, disk
  {
    Store(vault.state, vault.masterKey, disk.files)
  }

  lemma {:induction false} DoOne(pr: Primitives, s: Store, action: Action, writable: bool)
    requires !action.ReadFile?
    ensures Do(pr, s, [action], writable) == Section(pr, s, action, writable).0
  {
    DoFirst(pr, s, action, [], writable);
    assert [action] + [] == [action];
  }

  /** One operation of the vault, by the method of that name. */
  method Change(vault: Vault, op: Op) returns (r: Result<(), Error>)
    requires op.WellFormed()
    modifies vault`state
    ensures vault.state == Perform(op, old(vault.state)).0
    ensures r == Perform(op, old(vault.state)).1
  {
    match op {
      case AddConnection(c) => r := vault.AddConnection(c);
      case UpdateConnection(c) => r := vault.UpdateConnection(c);
      case DeleteConnection(id) => r := vault.DeleteConnection(id);
      case ReplaceConnections(cs) => r := vault.ReplaceConnections(cs);
      case ImportConnections(batch, ids) =>
        var added := vault.ImportConnections(batch, ids);
        r := if added.Ok? then Ok(()) else Err(added.error);
      case AddFolder(f) => r := vault.AddFolder(f);
      case UpdateFolder(f) => r := vault.UpdateFolder(f);
      case DeleteFolder(id) => r := vault.DeleteFolder(id);
    }
  }

  /** An operation of the application: a change, and a save unless it failed. */
  method ChangeAndSave(vault: Vault, disk: Disk, op: Op, path: string, nonce: seq<byte>, writable: bool)
    returns (r: Result<(), Error>)
    requires op.WellFormed()
    modifies vault`state, disk
    ensures Held(vault, disk)
         == Do(vault.pr, old(Held(vault, disk)), Script(vault.pr, Edit(op, path, nonce)), writable)
    ensures var (after, said) := Perform(op, old(vault.state));
            && vault.state == after && vault.masterKey == old(vault.masterKey)
            && (said.Err? ==> r == said && disk.files == old(disk.files))
            && (said.Ok? ==>
                  && (r.Ok? <==> App.Saves(vault, App.SaveLuck(nonce, writable)))
                  && (r.Ok? ==> App.Saved(vault, disk.files, old(disk.files), path, App.SaveLuck(nonce, writable)))
                  && (r.Err? ==> disk.files == old(disk.files)))
  {
    ghost var before := Held(vault, disk);
    assert [Mutate(op), Save(path, nonce)] == [Mutate(op)] + [Save(path, nonce)];
    DoFirst(vault.pr, before, Mutate(op), [Save(path, nonce)], writable);
    var change :- Change(vault, op);
    assert [] + [Save(path, nonce)] == [Save(path, nonce)];
    DoOne(vault.pr, before.(mem := vault.state), Save(path, nonce), writable);
    r := vault.SaveToFile(disk, path, nonce, writable);
  }

  lemma {:induction false} DoTwoPuts(
    pr: Primitives, s: Store, vs: VaultState, key: Key, rest: seq<Action>, writable: bool)
    ensures Do(pr, s, [PutState(vs), PutKey(key)] + rest, writable)
         == Do(pr, s.(mem := Some(vs), key := Some(key)), rest, writable)
  {
    var second := [PutKey(key)] + rest;
    assert [PutState(vs), PutKey(key)] + rest == [PutState(vs)] + second;
    DoPutState(pr, s, vs, second, writable);
    DoPutKey(pr, s.(mem := Some(vs)), key, rest, writable);
  }

  lemma {:induction false} DoPutState(pr: Primitives, s: Store, vs: VaultState, rest: seq<Action>, writable: bool)
    ensures Do(pr, s, [PutState(vs)] + rest, writable) == Do(pr, s.(mem := Some(vs)), rest, writable)
  {
    DoFirst(pr, s, PutState(vs), rest, writable);
    assert [] + rest == rest;
  }

  lemma {:induction false} DoPutKey(pr: Primitives, s: Store, key: Key, rest: seq<Action>, writable: bool)
    ensures Do(pr, s, [PutKey(key)] + rest, writable) == Do(pr, s.(key := Some(key)), rest, writable)
  {
    DoFirst(pr, s, PutKey(key), rest, writable);
    assert [] + rest == rest;
  }

  method CreateAndSave(
    vault: Vault, disk: Disk, password: string, salt: string, path: string, nonce: seq<byte>, writable: bool)
    returns (r: Result<(), Error>)
    requires vault.pr.Lawful()
    modifies vault, disk
    ensures Held(vault, disk)
         == Do(vault.pr, old(Held(vault, disk)), Script(vault.pr, CreateVault(password, salt, path, nonce)), writable)
  {
    DoCreate(vault.pr, Held(vault, disk), password, salt, path, nonce, writable);
    var created :- vault.Create(password, salt);
    r := vault.SaveToFile(disk, path, nonce, writable);
  }

  lemma {:induction false} DoCreate(
    pr: Primitives, s: Store, password: string, salt: string, path: string, nonce: seq<byte>, writable: bool)
    ensures var r := Do(pr, s, Script(pr, CreateVault(password, salt, path, nonce)), writable);
            var passwordHash, key := pr.hash(password, salt), pr.derive(password, salt);
            if passwordHash.None? || key.None? then r == s
            else
              var created := s.(mem := Some(VaultState(EMPTY_DATA, salt, passwordHash.value)), key := key);
              r == Section(pr, created, Save(path, nonce), writable).0
  {
    var passwordHash, key := pr.hash(password, salt), pr.derive(password, salt);
    if passwordHash.Some? && key.Some? {
      var vs, save := VaultState(EMPTY_DATA, salt, passwordHash.value), [Save(path, nonce)];
      assert [PutState(vs), PutKey(key.value)] + save == [PutState(vs), PutKey(key.value), Save(path, nonce)];
      DoTwoPuts(pr, s, vs, key.value, save, writable);
      DoOne(pr, s.(mem := Some(vs), key := key), Save(path, nonce), writable);
    }
  }

  method Unlock(vault: Vault, disk: Disk, path: string, password: string, writable: bool)
    returns (r: Result<(), Error>)
    modifies vault
    ensures Held(vault, disk)
         == Do(vault.pr, old(Held(vault, disk)), Script(vault.pr, UnlockVault(path, password)), writable)
  {
    ghost var before := Held(vault, disk);
    assert [ReadFile(path, password)] == [ReadFile(path, password)] + [];
    DoFirst(vault.pr, before, ReadFile(path, password), [], writable);
    r := vault.LoadFromFile(disk, path, password);
    if r.Ok? {
      DoTwoPuts(vault.pr, before, vault.state.value, vault.masterKey.value, [], writable);
    }
  }

  method Lock(vault: Vault, disk: Disk, writable: bool)
    modifies vault
    ensures Held(vault, disk) == Do(vault.pr, old(Held(vault, disk)), Script(vault.pr, LockVault), writable)
  {
    ghost var before := Held(vault, disk);
    assert [ClearKey, ClearState] == [ClearKey] + [ClearState];
    DoFirst(vault.pr, before, ClearKey, [ClearState], writable);
    assert [] + [ClearState] == [ClearState];
    DoOne(vault.pr, before.(key := None), ClearState, writable);
    vault.Lock();
  }

  lemma {:induction false} DoChange(
    pr: Primitives, s: Store, op: Op, d: VaultData, rest: seq<Action>, writable: bool)
    requires op.WellFormed() && s.mem.Some? && Apply(op, s.mem.value.data) == Ok(d)
    ensures Do(pr, s, [Mutate(op)] + rest, writable) == Do(pr, s.(mem := Some(s.mem.value.(data := d))), rest, writable)
  {
    DoFirst(pr, s, Mutate(op), rest, writable);
    assert [] + rest == rest;
  }

  function Holding(s: Store, d: VaultData): Store
    requires s.mem.Some?
  {
    s.(mem := Some(s.mem.value.(data := d)))
  }

  /** Operations that cannot fail on an unlocked vault, one after the other. */
  lemma {:induction false} DoChanges(pr: Primitives, s: Store, ops: seq<Op>, rest: seq<Action>, writable: bool)
    requires s.mem.Some?
    requires forall i :: 0 <= i < |ops| ==> ops[i].WellFormed() && (ops[i].AddFolder? || ops[i].ImportConnections?)
    ensures forall op :: op in ops ==> op.WellFormed()
    ensures Do(pr, s, Mutations(ops) + rest, writable)
         == Do(pr, Holding(s, RunOps(ops, s.mem.value.data)), rest, writable)
    decreases |ops|
  {
    if ops == [] {
      assert Mutations(ops) + rest == rest && Holding(s, s.mem.value.data) == s;
    } else {
      var others, d := Mutations(ops[1..]) + rest, Apply(ops[0], s.mem.value.data).value;
      assert Mutations(ops) + rest == [Mutate(ops[0])] + others;
      DoChange(pr, s, ops[0], d, others, writable);
      DoChanges(pr, Holding(s, d), ops[1..], rest, writable);
      assert RunOps(ops, s.mem.value.data) == RunOps(ops[1..], d);
    }
  }

  /** What the import's script does, whole. */
  lemma {:induction false} DoImport(
    pr: Primitives, s: Store, folders: seq<Folder>, connections: seq<Connection>, ids: seq<string>, path: string,
    nonce: seq<byte>, writable: bool)
    requires |ids| == |connections|
    ensures var r := Do(pr, s, Script(pr, ImportXml(folders, connections, ids, path, nonce)), writable);
            if s.mem.None? then r == s
            else
              var d := s.mem.value.data;
              var imported := VaultData(ImportBatch(d.connections, connections, ids).0, d.folders + folders);
              r == Section(pr, Holding(s, imported), Save(path, nonce), writable).0
  {
    var ops, save := ImportOps(folders, connections, ids), [Save(path, nonce)];
    if s.mem.None? {
      var others := (Mutations(ops) + save)[1..];
      assert Mutations(ops) + save == [Mutate(ops[0])] + others;
      DoFirst(pr, s, Mutate(ops[0]), others, writable);
    } else {
      DoChanges(pr, s, ops, save, writable);
      ImportRun(folders, connections, ids, s.mem.value.data);
      DoOne(pr, Holding(s, RunOps(ops, s.mem.value.data)), Save(path, nonce), writable);
    }
  }

  /** The import, from its two lists on. */
  method ImportAndSave(
    vault: Vault, disk: Disk, folders: seq<Folder>, connections: seq<Connection>, ids: seq<string>, path: string,
    nonce: seq<byte>, writable: bool)
    returns (r: Result<(nat, nat), Error>)
    requires |ids| == |connections|
    modifies vault`state, disk
    ensures Held(vault, disk)
         == Do(vault.pr, old(Held(vault, disk)),
               Script(vault.pr, ImportXml(folders, connections, ids, path, nonce)), writable)
  {
    DoImport(vault.pr, Held(vault, disk), folders, connections, ids, path, nonce, writable);
    r := App.ImportLists(vault, disk, connections, folders, ids, path, App.SaveLuck(nonce, writable));
  }
}
