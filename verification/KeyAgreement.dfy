/**
  The two mutexes of the vault are separate, so nothing in one call keeps them in agreement when calls
  that replace the whole state overlap. This module proves that they agree in every run where such calls
  do not overlap each other, except locks and loads of one vault, whatever else runs meanwhile; and it
  exhibits overlaps of the others that tear them apart.
*/
module KeyAgreement {
  import opened Collections
  import opened Models
  import opened VaultOps
  import opened VaultFile
  import opened Concurrency
  import opened Solo

  /** Memory and key are both there or both not, and then one of the given passwords accounts for both. */
  ghost predicate Agree(pr: Primitives, given: set<string>, mem: Option<VaultState>, key: Option<Key>) {
    && (mem.Some? <==> key.Some?)
    && (mem.Some? ==> exists password :: password in given && Unlocks(pr, password, mem.value, key.value))
  }

  ghost predicate Agreed(pr: Primitives, w: World) {
    Agree(pr, w.given, w.mem, w.key)
  }

  ghost predicate LifecycleRuns(w: World, t: nat)
    requires t < |w.threads|
  {
    w.threads[t].call.IsLifecycle() && !w.threads[t].Idle()
  }

  ghost predicate NoLifecycle(w: World) {
    forall t :: 0 <= t < |w.threads| ==> !LifecycleRuns(w, t)
  }

  // ---- Which calls may overlap ----

  ghost predicate SavesTo(w: World, t: nat, path: string)
    requires t < |w.threads|
  {
    var th := w.threads[t];
    !th.call.IsLifecycle() && !th.Idle() && Last(th.todo).Save? && Last(th.todo).path == path
  }

  /** What a load has read, or has put into memory and not yet its key, is this vault. */
  ghost predicate HasRead(w: World, t: nat, header: Header)
    requires t < |w.threads| && LifecycleRuns(w, t)
  {
    var first := w.threads[t].todo[0];
    && (first.PutState? ==> HeaderOf(first.vs) == header)
    && (first.PutKey? ==> w.mem.Some? && HeaderOf(w.mem.value) == header)
  }

  /** The file, what the running loads have read, and the vault in memory if anyone may save it there. */
  ghost predicate About(pr: Primitives, w: World, path: string, header: Header) {
    && (FileHeader(pr, w.disk, path).Some? ==> FileHeader(pr, w.disk, path).value == header)
    && (forall t :: 0 <= t < |w.threads| && LifecycleRuns(w, t) && w.threads[t].call.UnlockVault? ==>
                      HasRead(w, t, header))
    && (w.mem.None? || HeaderOf(w.mem.value) == header
        || forall t :: 0 <= t < |w.threads| ==> !SavesTo(w, t, path))
  }

  /** All these are one vault. */
  ghost predicate OneVault(pr: Primitives, w: World, path: string) {
    exists header :: About(pr, w, path, header)
  }

  /** The header in a file, if it has one. */
  function FileHeader(pr: Primitives, disk: map<string, string>, path: string): Option<Header> {
    if path !in disk then None else HeaderIn(pr, disk[path])
  }

  /** Two locks may overlap, and two loads of one file under one password. */
  ghost predicate MayOverlap(pr: Primitives, w: World, a: Call, b: Call) {
    a == b && !a.CreateVault? && (a.UnlockVault? ==> OneVault(pr, w, a.path))
  }

  /** Of the calls under way that create, load or lock, each two may overlap. */
  ghost predicate Compatible(pr: Primitives, w: World) {
    forall t, u ::
      0 <= t < |w.threads| && 0 <= u < |w.threads| && t != u && LifecycleRuns(w, t) && LifecycleRuns(w, u) ==>
        MayOverlap(pr, w, w.threads[t].call, w.threads[u].call)
  }

  /** Calls start only when those under way may then overlap; edits, imports, saves and reads always may. */
  ghost predicate Exclusive(pr: Primitives, w: World, move: Move) {
    move.Start? && Next(pr, w, move).Some? ==> Compatible(pr, Next(pr, w, move).value)
  }

  // ---- The invariant ----

  /** What a lock has still to do. */
  predicate Clearing(todo: seq<Action>) {
    todo == [ClearKey, ClearState] || todo == [ClearState]
  }

  /** Both puts of one vault are still to come, or the second is and the first still holds; then `rest`. */
  ghost predicate PutsAhead(
    pr: Primitives, password: string, mem: Option<VaultState>, todo: seq<Action>, rest: seq<Action>)
  {
    || (|todo| == 2 + |rest| && todo[0].PutState? && todo[1].PutKey? && todo[2..] == rest
        && Unlocks(pr, password, todo[0].vs, todo[1].key))
    || (|todo| == 1 + |rest| && todo[0].PutKey? && todo[1..] == rest
        && mem.Some? && Unlocks(pr, password, mem.value, todo[0].key))
  }

  /** Saving, if at all, is the last thing an edit does. */
  ghost predicate Plain(todo: seq<Action>) {
    forall i :: 0 <= i < |todo| ==>
      todo[i].Mutate? || todo[i].PeekState? || todo[i].PeekKey? || (todo[i].Save? && i == |todo| - 1)
  }

  ghost predicate ThreadAgrees(pr: Primitives, w: World, t: nat)
    requires t < |w.threads|
  {
    var todo := w.threads[t].todo;
    match w.threads[t].call
    case CreateVault(password, _, path, nonce) =>
      todo == [] || (password in w.given && PutsAhead(pr, password, w.mem, todo, [Save(path, nonce)]))
      || (todo == [Save(path, nonce)] && Agreed(pr, w))
    case UnlockVault(path, password) =>
      todo == [] || (password in w.given && (todo == [ReadFile(path, password)] || PutsAhead(pr, password, w.mem, todo, [])))
    case LockVault =>
      todo == [] || (Clearing(todo) && (w.key.None? || (Agreed(pr, w) && todo != [ClearState])))
    case _ => Plain(todo)
  }

  /** The lifecycle calls under way have at most begun to read. */
  ghost predicate Settled(w: World) {
    forall t :: 0 <= t < |w.threads| && LifecycleRuns(w, t) ==> w.threads[t].todo[0].ReadFile?
  }

  ghost predicate KeysAgree(pr: Primitives, w: World) {
    && (forall t :: 0 <= t < |w.threads| ==> ThreadAgrees(pr, w, t))
    && Compatible(pr, w)
    && (Settled(w) ==> Agreed(pr, w))
  }

  // ---- Single facts ----

  /** Edits change the data only: neither salt, nor hash, nor key. */
  ghost predicate SameVault(mem: Option<VaultState>, mem': Option<VaultState>) {
    mem == mem' || (mem.Some? && mem'.Some? && HeaderOf(mem'.value) == HeaderOf(mem.value))
  }

  lemma {:induction false} OthersRun(w: World, w': World, t: nat, u: nat)
    requires t < |w.threads| == |w'.threads| && u < |w.threads| && u != t
    requires forall v :: 0 <= v < |w.threads| && v != t ==> w'.threads[v] == w.threads[v]
    ensures LifecycleRuns(w', u) <==> LifecycleRuns(w, u)
  {
  }

  /** Loads that are about one vault stay so when a thread goes on without changing what it is about. */
  lemma {:induction false} StillAbout(pr: Primitives, w: World, w': World, t: nat, path: string, header: Header)
    requires About(pr, w, path, header) && t < |w.threads| == |w'.threads|
    requires forall v :: 0 <= v < |w.threads| && v != t ==> w'.threads[v] == w.threads[v]
    requires FileHeader(pr, w'.disk, path).Some? ==> FileHeader(pr, w'.disk, path).value == header
    requires SameVault(w.mem, w'.mem) || (w'.mem.Some? && HeaderOf(w'.mem.value) == header)
    requires SavesTo(w', t, path) ==> SavesTo(w, t, path)
    requires LifecycleRuns(w', t) && w'.threads[t].call.UnlockVault? ==> HasRead(w', t, header)
    ensures About(pr, w', path, header)
  {
    forall u | 0 <= u < |w'.threads| && LifecycleRuns(w', u) && w'.threads[u].call.UnlockVault?
      ensures HasRead(w', u, header)
    {
      if u != t {
        OthersRun(w, w', t, u);
        assert HasRead(w, u, header);
      }
    }
    if !(w'.mem.None? || HeaderOf(w'.mem.value) == header) {
      forall u | 0 <= u < |w'.threads|
        ensures !SavesTo(w', u, path)
      {
        assert !SavesTo(w, u, path);
      }
    }
  }

  // ---- Steps ----

  lemma {:induction false} StartKeepsAgreement(pr: Primitives, w: World, t: nat, call: Call)
    requires pr.Lawful() && KeysAgree(pr, w) && Exclusive(pr, w, Start(t, call)) && Next(pr, w, Start(t, call)).Some?
    ensures KeysAgree(pr, Next(pr, w, Start(t, call)).value)
  {
    var w' := Next(pr, w, Start(t, call)).value;
    if call.LockVault? {
      LockStarts(pr, w, t);
    }
    forall u | 0 <= u < |w'.threads|
      ensures ThreadAgrees(pr, w', u)
    {
      assert ThreadAgrees(pr, w, u);
      if u != t {
      }
    }
    if Settled(w') {
      forall u | 0 <= u < |w.threads| && LifecycleRuns(w, u)
        ensures w.threads[u].todo[0].ReadFile?
      {
        OthersRun(w, w', t, u);
      }
    }
  }

  /** A lock starts in agreement, or after other locks. */
  lemma {:induction false} LockStarts(pr: Primitives, w: World, t: nat)
    requires KeysAgree(pr, w) && Exclusive(pr, w, Start(t, LockVault)) && Next(pr, w, Start(t, LockVault)).Some?
    ensures w.key.None? || Agreed(pr, w)
  {
    var w' := Next(pr, w, Start(t, LockVault)).value;
    if !Settled(w) {
      var u :| 0 <= u < |w.threads| && LifecycleRuns(w, u) && !w.threads[u].todo[0].ReadFile?;
      OthersRun(w, w', t, u);
      assert LifecycleRuns(w', t) && LifecycleRuns(w', u);
      assert MayOverlap(pr, w', w'.threads[t].call, w'.threads[u].call);
      assert ThreadAgrees(pr, w, u);
    }
  }

  /** An edit or a read changes the data only, and what it saves is of the vault in memory. */
  lemma {:induction false} PlainStep(pr: Primitives, w: World, w': World, t: nat, writable: bool)
    requires t < |w.threads| && !w.threads[t].call.IsLifecycle() && Plain(w.threads[t].todo)
    requires Stepped(pr, w, w', t, writable)
    ensures && SameVault(w.mem, w'.mem) && w'.key == w.key && w'.given == w.given
            && w'.threads[t].call == w.threads[t].call && Plain(w'.threads[t].todo)
            && (forall path :: SavesTo(w', t, path) ==> SavesTo(w, t, path))
  {
    PlainSaves(pr, w, w', t, writable);
    if !Silent(w, w', t) {
    }
  }

  lemma {:induction false} PlainSaves(pr: Primitives, w: World, w': World, t: nat, writable: bool)
    requires t < |w.threads| && !w.threads[t].call.IsLifecycle() && Plain(w.threads[t].todo)
    requires Stepped(pr, w, w', t, writable)
    ensures forall path :: SavesTo(w', t, path) ==> SavesTo(w, t, path)
    ensures Plain(w'.threads[t].todo)
  {
    if !Silent(w, w', t) {
    }
  }

  lemma {:induction false} PlainDisk(pr: Primitives, w: World, w': World, t: nat, writable: bool)
    requires t < |w.threads| && !w.threads[t].call.IsLifecycle() && Plain(w.threads[t].todo)
    requires Stepped(pr, w, w', t, writable)
    ensures w'.disk == w.disk
            || exists path, nonce ::
                 && SavesTo(w, t, path) && w.mem.Some? && w.key.Some?
                 && FileText(pr, w.mem.value, w.key.value, nonce).Ok?
                 && w'.disk == w.disk[path := FileText(pr, w.mem.value, w.key.value, nonce).value]
  {
    if w'.disk != w.disk {
      var save := w.threads[t].todo[0];
      assert SavesTo(w, t, save.path) && FileText(pr, w.mem.value, w.key.value, save.nonce).Ok?;
      assert w'.disk == w.disk[save.path := FileText(pr, w.mem.value, w.key.value, save.nonce).value];
    }
  }

  lemma {:induction false} AboutAfterPlain(
    pr: Primitives, w: World, w': World, t: nat, writable: bool, path: string, header: Header)
    requires pr.Lawful() && t < |w.threads|
    requires !w.threads[t].call.IsLifecycle() && Plain(w.threads[t].todo) && About(pr, w, path, header)
    requires Stepped(pr, w, w', t, writable)
    ensures About(pr, w', path, header)
  {
    PlainStep(pr, w, w', t, writable);
    PlainDisk(pr, w, w', t, writable);
    if w'.disk != w.disk {
      var to, nonce :| && SavesTo(w, t, to) && w.mem.Some? && w.key.Some?
                       && FileText(pr, w.mem.value, w.key.value, nonce).Ok?
                       && w'.disk == w.disk[to := FileText(pr, w.mem.value, w.key.value, nonce).value];
      HeaderOfText(pr, w.mem.value, w.key.value, nonce);
    }
    StillAbout(pr, w, w', t, path, header);
  }

  lemma {:induction false} PlainGoesOn(pr: Primitives, w: World, w': World, t: nat, writable: bool)
    requires pr.Lawful() && KeysAgree(pr, w) && Stepped(pr, w, w', t, writable)
    requires t < |w.threads| && !w.threads[t].call.IsLifecycle()
    ensures KeysAgree(pr, w')
  {
    assert ThreadAgrees(pr, w, t);
    PlainStep(pr, w, w', t, writable);
    forall u | 0 <= u < |w'.threads|
      ensures ThreadAgrees(pr, w', u)
    {
      assert ThreadAgrees(pr, w, u);
      if u != t {
      }
    }
    forall u, v | 0 <= u < |w'.threads| && 0 <= v < |w'.threads| && u != v && LifecycleRuns(w', u) && LifecycleRuns(w', v)
      ensures MayOverlap(pr, w', w'.threads[u].call, w'.threads[v].call)
    {
      assert MayOverlap(pr, w, w.threads[u].call, w.threads[v].call);
      if w.threads[u].call.UnlockVault? {
        var header :| About(pr, w, w.threads[u].call.path, header);
        AboutAfterPlain(pr, w, w', t, writable, w.threads[u].call.path, header);
      }
    }
    if Settled(w') {
      forall u | 0 <= u < |w.threads| && LifecycleRuns(w, u)
        ensures w.threads[u].todo[0].ReadFile?
      {
        assert LifecycleRuns(w', u);
      }
    }
  }

  /** A lifecycle call works off what it has to do; when it is done, or aborted after a put, all agrees. */
  lemma {:induction false} LifecycleStep(pr: Primitives, w: World, w': World, t: nat, writable: bool)
    requires pr.Lawful() && t < |w.threads| && ThreadAgrees(pr, w, t) && LifecycleRuns(w, t)
    requires Stepped(pr, w, w', t, writable)
    ensures && ThreadAgrees(pr, w', t) && w'.threads[t].call == w.threads[t].call && w'.given == w.given
            && (w.threads[t].todo[0].ReadFile? ==> w'.mem == w.mem && w'.key == w.key)
            && (!w.threads[t].todo[0].ReadFile? ==>
                  if w'.threads[t].todo == [] then Agreed(pr, w') else !w'.threads[t].todo[0].ReadFile?)
  {
    match w.threads[t].call
    case CreateVault(_, _, _, _) => CreateStep(pr, w, w', t, writable);
    case UnlockVault(_, _) => LoadStep(pr, w, w', t, writable);
    case LockVault => LockStep(pr, w, w', t, writable);
  }

  lemma {:induction false} CreateStep(pr: Primitives, w: World, w': World, t: nat, writable: bool)
    requires pr.Lawful() && t < |w.threads| && ThreadAgrees(pr, w, t)
    requires w.threads[t].call.CreateVault? && LifecycleRuns(w, t)
    requires Stepped(pr, w, w', t, writable)
    ensures && ThreadAgrees(pr, w', t) && w'.threads[t].call == w.threads[t].call && w'.given == w.given
            && !w.threads[t].todo[0].ReadFile?
            && if w'.threads[t].todo == [] then Agreed(pr, w') else !w'.threads[t].todo[0].ReadFile?
  {
    if !Silent(w, w', t) {
      if w.threads[t].todo[0].Save? {
        assert w.threads[t].todo[1..] == [];
      } else {
        CreatePuts(pr, w, w', t, writable);
      }
    }
  }

  lemma {:induction false} CreatePuts(pr: Primitives, w: World, w': World, t: nat, writable: bool)
    requires t < |w.threads| && ThreadAgrees(pr, w, t) && w.threads[t].call.CreateVault? && LifecycleRuns(w, t)
    requires Stepped(pr, w, w', t, writable) && Completes(pr, w, w', t, writable) && !w.threads[t].todo[0].Save?
    ensures ThreadAgrees(pr, w', t) && w'.threads[t].call == w.threads[t].call
    ensures w'.threads[t].todo != [] && !w'.threads[t].todo[0].ReadFile?
  {
    var todo := w.threads[t].todo;
    assert |todo| == 3 ==> todo[1..][1..] == todo[2..];
  }

  lemma {:induction false} LoadStep(pr: Primitives, w: World, w': World, t: nat, writable: bool)
    requires pr.Lawful() && t < |w.threads| && ThreadAgrees(pr, w, t)
    requires w.threads[t].call.UnlockVault? && LifecycleRuns(w, t)
    requires Stepped(pr, w, w', t, writable)
    ensures && ThreadAgrees(pr, w', t) && w'.threads[t].call == w.threads[t].call && w'.given == w.given
            && (w.threads[t].todo[0].ReadFile? ==> w'.mem == w.mem && w'.key == w.key)
            && (!w.threads[t].todo[0].ReadFile? ==>
                  if w'.threads[t].todo == [] then Agreed(pr, w') else !w'.threads[t].todo[0].ReadFile?)
  {
    if !Silent(w, w', t) {
      if w.threads[t].todo[0].ReadFile? {
      } else {
        PutStep(pr, w, w', t, writable);
      }
    }
  }

  lemma {:induction false} PutStep(pr: Primitives, w: World, w': World, t: nat, writable: bool)
    requires t < |w.threads| && ThreadAgrees(pr, w, t) && w.threads[t].call.UnlockVault? && LifecycleRuns(w, t)
    requires Stepped(pr, w, w', t, writable) && Completes(pr, w, w', t, writable) && !w.threads[t].todo[0].ReadFile?
    ensures ThreadAgrees(pr, w', t) && w'.threads[t].call == w.threads[t].call
    ensures if w'.threads[t].todo == [] then Agreed(pr, w') else !w'.threads[t].todo[0].ReadFile?
  {
    var todo := w.threads[t].todo;
    assert |todo| == 2 ==> todo[1..][1..] == todo[2..];
  }

  lemma {:induction false} LockStep(pr: Primitives, w: World, w': World, t: nat, writable: bool)
    requires t < |w.threads| && ThreadAgrees(pr, w, t)
    requires w.threads[t].call.LockVault? && LifecycleRuns(w, t)
    requires Stepped(pr, w, w', t, writable)
    ensures && ThreadAgrees(pr, w', t) && w'.threads[t].call == w.threads[t].call && w'.given == w.given
            && !w.threads[t].todo[0].ReadFile?
            && (if w'.threads[t].todo == [] then Agreed(pr, w') else !w'.threads[t].todo[0].ReadFile?)
            && (w'.key == w.key || w'.key == None)
            && (w'.mem == w.mem || (w'.mem == None && w.key == None))
            && w'.disk == w.disk
  {
    var todo := w.threads[t].todo;
    assert todo == [ClearKey, ClearState] ==> todo[1..] == [ClearState];
    assert todo == [ClearState] ==> todo[1..] == [];
  }

  /** What a load's step changes, when it is about this vault. */
  lemma {:induction false} LoadChanges(pr: Primitives, w: World, w': World, t: nat, writable: bool, header: Header)
    requires t < |w.threads| && ThreadAgrees(pr, w, t)
    requires w.threads[t].call.UnlockVault? && LifecycleRuns(w, t) && About(pr, w, w.threads[t].call.path, header)
    requires Stepped(pr, w, w', t, writable)
    ensures && w'.disk == w.disk
            && (w'.mem == w.mem || (w'.mem.Some? && HeaderOf(w'.mem.value) == header))
            && (LifecycleRuns(w', t) ==> HasRead(w', t, header))
  {
    assert HasRead(w, t, header);
    if !Silent(w, w', t) {
      if w.threads[t].todo[0].ReadFile? {
        ReadChanges(pr, w, w', t, writable, header);
      } else {
        assert w'.threads[t].todo == w.threads[t].todo[1..];
      }
    }
  }

  lemma {:induction false} ReadChanges(pr: Primitives, w: World, w': World, t: nat, writable: bool, header: Header)
    requires t < |w.threads| && ThreadAgrees(pr, w, t) && w.threads[t].call.UnlockVault? && LifecycleRuns(w, t)
    requires FileHeader(pr, w.disk, w.threads[t].call.path).Some? ==>
               FileHeader(pr, w.disk, w.threads[t].call.path).value == header
    requires Stepped(pr, w, w', t, writable) && Completes(pr, w, w', t, writable) && w.threads[t].todo[0].ReadFile?
    ensures w'.disk == w.disk && w'.mem == w.mem && (LifecycleRuns(w', t) ==> HasRead(w', t, header))
  {
    var action := w.threads[t].todo[0];
    if action.path in w.disk {
    }
  }

  lemma {:induction false} LifecycleGoesOn(pr: Primitives, w: World, w': World, t: nat, writable: bool)
    requires pr.Lawful() && KeysAgree(pr, w) && Stepped(pr, w, w', t, writable)
    requires t < |w.threads| && LifecycleRuns(w, t)
    ensures KeysAgree(pr, w')
  {
    assert ThreadAgrees(pr, w, t);
    LifecycleStep(pr, w, w', t, writable);
    forall u | 0 <= u < |w'.threads|
      ensures ThreadAgrees(pr, w', u)
    {
      if u != t {
        OtherGoesOn(pr, w, w', t, writable, u);
      }
    }
    forall u, v | 0 <= u < |w'.threads| && 0 <= v < |w'.threads| && u != v && LifecycleRuns(w', u) && LifecycleRuns(w', v)
      ensures MayOverlap(pr, w', w'.threads[u].call, w'.threads[v].call)
    {
      assert LifecycleRuns(w, u) && LifecycleRuns(w, v);
      assert MayOverlap(pr, w, w.threads[u].call, w.threads[v].call);
      if w.threads[u].call.UnlockVault? {
        StillOneVault(pr, w, w', t, writable, u, v);
      }
    }
    if Settled(w') {
    }
  }

  lemma {:induction false} OtherGoesOn(pr: Primitives, w: World, w': World, t: nat, writable: bool, u: nat)
    requires pr.Lawful() && KeysAgree(pr, w) && Stepped(pr, w, w', t, writable)
    requires t < |w.threads| && LifecycleRuns(w, t) && u < |w.threads| && u != t
    ensures u < |w'.threads| && ThreadAgrees(pr, w', u)
  {
    assert ThreadAgrees(pr, w, t) && ThreadAgrees(pr, w, u);
    LifecycleStep(pr, w, w', t, writable);
    if LifecycleRuns(w, u) {
      assert MayOverlap(pr, w, w.threads[t].call, w.threads[u].call);
      if w.threads[t].call.LockVault? {
        LockStep(pr, w, w', t, writable);
      } else {
        var header :| About(pr, w, w.threads[t].call.path, header);
        LoadChanges(pr, w, w', t, writable, header);
        assert HasRead(w, u, header);
      }
    }
  }

  lemma {:induction false} StillOneVault(pr: Primitives, w: World, w': World, t: nat, writable: bool, u: nat, v: nat)
    requires pr.Lawful() && KeysAgree(pr, w) && Stepped(pr, w, w', t, writable)
    requires t < |w.threads| && LifecycleRuns(w, t) && u < |w.threads| && v < |w.threads| && u != v
    requires LifecycleRuns(w, u) && LifecycleRuns(w, v) && w.threads[u].call.UnlockVault?
    ensures OneVault(pr, w', w.threads[u].call.path)
  {
    assert ThreadAgrees(pr, w, t);
    LifecycleStep(pr, w, w', t, writable);
    assert MayOverlap(pr, w, w.threads[u].call, w.threads[v].call);
    assert u != t ==> MayOverlap(pr, w, w.threads[u].call, w.threads[t].call);
    var path := w.threads[u].call.path;
    var header :| About(pr, w, path, header);
    LoadChanges(pr, w, w', t, writable, header);
    StillAbout(pr, w, w', t, path, header);
  }

  lemma {:induction false} GoKeepsAgreement(pr: Primitives, w: World, t: nat, writable: bool)
    requires pr.Lawful() && LocksHeld(w) && KeysAgree(pr, w) && Next(pr, w, Go(t, writable)).Some?
    ensures KeysAgree(pr, Next(pr, w, Go(t, writable)).value)
  {
    var w' := Next(pr, w, Go(t, writable)).value;
    StepIsSection(pr, w, t, writable);
    if w.threads[t].call.IsLifecycle() {
      LifecycleGoesOn(pr, w, w', t, writable);
    } else {
      PlainGoesOn(pr, w, w', t, writable);
    }
  }

  // ---- Runs ----

  ghost predicate ExclusiveRun(pr: Primitives, run: seq<World>, moves: seq<Move>)
    requires |run| == |moves| + 1
  {
    forall i :: 0 <= i < |moves| ==> Exclusive(pr, run[i], moves[i])
  }

  lemma {:induction false} RunAgrees(pr: Primitives, run: seq<World>, moves: seq<Move>, n: nat)
    requires pr.Lawful() && IsRun(pr, run, moves) && Initial(run[0]) && ExclusiveRun(pr, run, moves) && n < |run|
    ensures LocksHeld(run[n]) && KeysAgree(pr, run[n])
  {
    RunKeepsLocks(pr, run, moves, n);
    if n > 0 {
      RunAgrees(pr, run, moves, n - 1);
      assert StepAt(pr, run, moves, n - 1);
      match moves[n - 1] {
        case Start(t, call) => StartKeepsAgreement(pr, run[n - 1], t, call);
        case Go(t, writable) => GoKeepsAgreement(pr, run[n - 1], t, writable);
      }
    }
  }

  /**
    Key agreement: in every run whose creates, loads and locks do not overlap each other, except locks and
    loads of one vault, whatever edits, imports, saves and reads run meanwhile: whenever those under way
    have at most begun to read, the state is present iff the key is, and one of the passwords given in the
    run accounts for both.
  */
  lemma {:induction false} KeysAgreeInExclusiveRuns(pr: Primitives, run: seq<World>, moves: seq<Move>)
    requires pr.Lawful() && IsRun(pr, run, moves) && Initial(run[0]) && ExclusiveRun(pr, run, moves)
    ensures Settled(run[|moves|]) ==> Agreed(pr, run[|moves|])
    ensures NoLifecycle(run[|moves|]) ==> Agreed(pr, run[|moves|])
    ensures forall p :: p in run[|moves|].given ==>
                          exists i :: 0 <= i < |moves| && moves[i].Start? && p in Passwords(moves[i].call)
  {
    RunAgrees(pr, run, moves, |moves|);
    GivenInRun(pr, run, moves, |moves|);
  }

  /** No key without a state. */
  ghost predicate KeyHasState(w: World) {
    w.key.Some? ==> w.mem.Some?
  }

  /**
    At every moment of such a run, in the midst of its creates, loads and locks too, a vault that reports itself
    unlocked has its state: a key is put after its state, and cleared before it.
  */
  lemma {:induction false} UnlockedHasState(pr: Primitives, run: seq<World>, moves: seq<Move>, n: nat)
    requires pr.Lawful() && IsRun(pr, run, moves) && Initial(run[0]) && ExclusiveRun(pr, run, moves) && n < |run|
    ensures KeyHasState(run[n])
  {
    if n > 0 {
      UnlockedHasState(pr, run, moves, n - 1);
      RunAgrees(pr, run, moves, n - 1);
      assert StepAt(pr, run, moves, n - 1);
      if moves[n - 1].Go? {
        StepIsSection(pr, run[n - 1], moves[n - 1].t, moves[n - 1].writable);
        StepKeepsState(pr, run[n - 1], run[n], moves[n - 1].t, moves[n - 1].writable);
      }
    }
  }

  lemma {:induction false} StepKeepsState(pr: Primitives, w: World, w': World, t: nat, writable: bool)
    requires pr.Lawful() && KeysAgree(pr, w) && KeyHasState(w) && Stepped(pr, w, w', t, writable)
    ensures KeyHasState(w')
  {
    assert ThreadAgrees(pr, w, t);
    if !w.threads[t].call.IsLifecycle() {
      PlainStep(pr, w, w', t, writable);
    } else if w.threads[t].call.LockVault? {
      LockStep(pr, w, w', t, writable);
    } else if !Silent(w, w', t) {
      PutKeepsState(pr, w, w', t, writable);
    }
  }

  lemma {:induction false} PutKeepsState(pr: Primitives, w: World, w': World, t: nat, writable: bool)
    requires t < |w.threads| && ThreadAgrees(pr, w, t) && KeyHasState(w)
    requires w.threads[t].call.CreateVault? || w.threads[t].call.UnlockVault?
    requires Stepped(pr, w, w', t, writable) && Completes(pr, w, w', t, writable)
    ensures KeyHasState(w')
  {
    var todo := w.threads[t].todo;
    assert todo[0].PutState? || todo[0].PutKey? || todo[0].Save? || todo[0].ReadFile?;
  }

  /** The passwords on record are those of calls of the run. */
  lemma {:induction false} GivenInRun(pr: Primitives, run: seq<World>, moves: seq<Move>, n: nat)
    requires IsRun(pr, run, moves) && Initial(run[0]) && n < |run|
    ensures forall p :: p in run[n].given ==>
                          exists i :: 0 <= i < n && moves[i].Start? && p in Passwords(moves[i].call)
  {
    if n > 0 {
      GivenInRun(pr, run, moves, n - 1);
      assert StepAt(pr, run, moves, n - 1);
      if moves[n - 1].Go? {
      }
    }
  }

  /** Two unlocks of one file with one password may overlap: both may start, and so may any edit meanwhile. */
  lemma {:induction false} DoubleUnlockIsExclusive(pr: Primitives, w: World, path: string, password: string)
    requires Initial(w) && |w.threads| >= 2
    ensures var load := UnlockVault(path, password);
            var first := Next(pr, w, Start(0, load));
            && first.Some? && Exclusive(pr, w, Start(0, load))
            && Next(pr, first.value, Start(1, load)).Some? && Exclusive(pr, first.value, Start(1, load))
  {
    assert w.threads[0].Idle() && w.threads[1].Idle();
    var load := UnlockVault(path, password);
    var both := Next(pr, Next(pr, w, Start(0, load)).value, Start(1, load)).value;
    var file := FileHeader(pr, w.disk, path);
    assert About(pr, both, path, if file.Some? then file.value else Header("", ""));
  }

  // ---- Overlaps that tear state and key apart ----

  /** The call, started now, succeeds in finding a state and a key to install. */
  predicate Installs(pr: Primitives, w: World, call: Call, vs: VaultState, key: Key) {
    match call
    case CreateVault(password, salt, _, _) =>
      && pr.derive(password, salt) == Some(key) && pr.hash(password, salt).Some?
      && vs == VaultState(EMPTY_DATA, salt, pr.hash(password, salt).value)
    case UnlockVault(path, password) => path in w.disk && OpenFile(pr, w.disk[path], password) == Ok((vs, key))
    case _ => false
  }

  /** What is left of such a call after its two puts: a create saves. */
  function AfterPuts(call: Call): seq<Action> {
    if call.CreateVault? then [Save(call.path, call.nonce)] else []
  }

  lemma {:induction false} InstallsUnlocked(pr: Primitives, w: World, call: Call, vs: VaultState, key: Key)
    requires pr.Lawful() && Installs(pr, w, call, vs, key)
    ensures Unlocks(pr, call.password, vs, key)
  {
    if call.UnlockVault? {
      OpenedIsUnlocked(pr, w.disk[call.path], call.password);
    }
  }

  /** Such a call comes to its two puts. */
  lemma {:induction false} ReachesPuts(
    pr: Primitives, w: World, mid: World, t: nat, call: Call, vs: VaultState, key: Key) returns (open: World)
    requires Reaches(pr, w, mid) && Free(mid, t) && mid.threads[t].Idle() && Installs(pr, mid, call, vs, key)
    ensures Reaches(pr, w, open)
    ensures open == With(mid, t, Thread(Outside, [PutState(vs), PutKey(key)] + AfterPuts(call), call, false))
                      .(given := mid.given + {call.password})
  {
    var begun := ReachesBegun(pr, w, mid, t, call);
    if call.CreateVault? {
      open := begun;
      assert Script(pr, call) == [PutState(vs), PutKey(key)] + AfterPuts(call);
    } else {
      open := ReachesRead(pr, w, begun, t, call.path, call.password, vs, key);
    }
  }

  lemma {:induction false} ReachesRead(
    pr: Primitives, w: World, mid: World, t: nat, path: string, password: string, vs: VaultState, key: Key)
    returns (read: World)
    requires Reaches(pr, w, mid) && Free(mid, t) && mid.threads[t].todo == [ReadFile(path, password)]
    requires path in mid.disk && OpenFile(pr, mid.disk[path], password) == Ok((vs, key))
    ensures Reaches(pr, w, read)
    ensures read == With(mid, t, mid.threads[t].(todo := [PutState(vs), PutKey(key)] + []))
  {
    ReachesSection(pr, w, mid, t, true);
    read := AfterSection(pr, mid, t, true);
    assert mid.threads[t].todo[1..] == [];
  }

  /** The first put, and the second. */
  lemma {:induction false} ReachesPut(
    pr: Primitives, w: World, mid: World, t: nat, todo: seq<Action>) returns (put: World)
    requires Reaches(pr, w, mid) && Free(mid, t) && (|todo| > 0 ==> !todo[0].ReadFile?)
    requires mid.threads[t].todo != [] && mid.threads[t].todo[1..] == todo
    requires mid.threads[t].todo[0].PutState? || mid.threads[t].todo[0].PutKey?
    ensures Reaches(pr, w, put)
    ensures var action := mid.threads[t].todo[0];
            var after := With(mid, t, mid.threads[t].(todo := todo));
            put == if action.PutState? then after.(mem := Some(action.vs)) else after.(key := Some(action.key))
  {
    ReachesSection(pr, w, mid, t, true);
    put := AfterSection(pr, mid, t, true);
  }

  /** However the save at the end of a create ends, the call is over and memory is as it was. */
  lemma {:induction false} ReachesEnd(pr: Primitives, w: World, mid: World, t: nat, call: Call) returns (end: World)
    requires Reaches(pr, w, mid) && Free(mid, t) && mid.threads[t].todo == AfterPuts(call)
    ensures Reaches(pr, w, end)
    ensures end.mem == mid.mem && end.key == mid.key && end.given == mid.given
    ensures end.stateLock == None && end.keyLock == None && |end.threads| == |mid.threads| && end.threads[t].Idle()
    ensures forall u :: 0 <= u < |mid.threads| && u != t ==> end.threads[u] == mid.threads[u]
  {
    end := mid;
    if call.CreateVault? {
      ReachesSection(pr, w, mid, t, true);
      end := AfterSection(pr, mid, t, true);
    }
  }

  lemma {:induction false} MixtureAgrees(
    pr: Primitives, passwordA: string, passwordB: string, vsB: VaultState, keyA: Key, keyB: Key)
    requires Unlocks(pr, passwordB, vsB, keyB)
    ensures Agree(pr, {passwordA, passwordB}, Some(vsB), Some(keyA))
       <==> keyA == keyB || Unlocks(pr, passwordA, vsB, keyA)
  {
  }

  /**
    Any two overlapping creates or loads can end with the state of the one and the key of the other. They
    agree then iff the two keys are the same or the password of the one happens to unlock the mixture.
  */
  lemma {:induction false} OverlappingInstallsMix(
    pr: Primitives, w: World, a: Call, vsA: VaultState, keyA: Key, b: Call, vsB: VaultState, keyB: Key)
    returns (end: World)
    requires pr.Lawful() && Initial(w) && |w.threads| >= 2
    requires Installs(pr, w, a, vsA, keyA) && Installs(pr, w, b, vsB, keyB)
    ensures Reaches(pr, w, end) && Quiescent(end) && end.mem == Some(vsB) && end.key == Some(keyA)
    ensures Agreed(pr, end) <==> keyA == keyB || Unlocks(pr, a.password, vsB, keyA)
  {
    var open := BothOpen(pr, w, a, vsA, keyA, b, vsB, keyB);
    var mixed := BothPut(pr, w, open, keyA, AfterPuts(a), vsB, keyB, AfterPuts(b));
    end := BothEnd(pr, w, mixed, a, b);
    InstallsUnlocked(pr, w, b, vsB, keyB);
    MixtureAgrees(pr, a.password, b.password, vsB, keyA, keyB);
  }

  /** Both calls have come to their puts. */
  lemma {:induction false} BothOpen(
    pr: Primitives, w: World, a: Call, vsA: VaultState, keyA: Key, b: Call, vsB: VaultState, keyB: Key)
    returns (open: World)
    requires Initial(w) && |w.threads| >= 2
    requires Installs(pr, w, a, vsA, keyA) && Installs(pr, w, b, vsB, keyB)
    ensures Reaches(pr, w, open) && Free(open, 0) && Free(open, 1) && |open.threads| == |w.threads|
    ensures open.given == {a.password, b.password}
    ensures open.threads[0].todo == [PutState(vsA), PutKey(keyA)] + AfterPuts(a)
    ensures open.threads[1].todo == [PutState(vsB), PutKey(keyB)] + AfterPuts(b)
    ensures forall u :: 2 <= u < |open.threads| ==> open.threads[u].Idle()
  {
    assert w.threads[0].Idle() && w.threads[1].Idle();
    ReachesItself(pr, w);
    var first := ReachesPuts(pr, w, w, 0, a, vsA, keyA);
    open := ReachesPuts(pr, w, first, 1, b, vsB, keyB);
  }

  lemma {:induction false} BothEnd(pr: Primitives, w: World, mixed: World, a: Call, b: Call) returns (end: World)
    requires Reaches(pr, w, mixed) && Free(mixed, 0) && Free(mixed, 1)
    requires mixed.threads[0].todo == AfterPuts(a) && mixed.threads[1].todo == AfterPuts(b)
    requires forall u :: 2 <= u < |mixed.threads| ==> mixed.threads[u].Idle()
    ensures Reaches(pr, w, end) && Quiescent(end)
    ensures end.mem == mixed.mem && end.key == mixed.key && end.given == mixed.given
  {
    var closed := ReachesEnd(pr, w, mixed, 0, a);
    end := ReachesEnd(pr, w, closed, 1, b);
  }

  /** State of the one, both of the other, key of the one. */
  lemma {:induction false} BothPut(
    pr: Primitives, w: World, open: World, keyA: Key, restA: seq<Action>, vsB: VaultState, keyB: Key, restB: seq<Action>)
    returns (mixed: World)
    requires Reaches(pr, w, open) && Free(open, 0) && Free(open, 1)
    requires |restA| > 0 ==> restA[0].Save?
    requires |restB| > 0 ==> restB[0].Save?
    requires open.threads[0].todo != [] && open.threads[0].todo[0].PutState?
    requires open.threads[0].todo == [open.threads[0].todo[0], PutKey(keyA)] + restA
    requires open.threads[1].todo == [PutState(vsB), PutKey(keyB)] + restB
    ensures Reaches(pr, w, mixed) && Free(mixed, 0) && Free(mixed, 1) && |mixed.threads| == |open.threads|
    ensures mixed.mem == Some(vsB) && mixed.key == Some(keyA) && mixed.given == open.given
    ensures mixed.threads[0].todo == restA && mixed.threads[1].todo == restB
    ensures forall u :: 2 <= u < |open.threads| ==> mixed.threads[u] == open.threads[u]
  {
    assert open.threads[0].todo[1..] == [PutKey(keyA)] + restA && ([PutKey(keyA)] + restA)[1..] == restA;
    var half := ReachesPut(pr, w, open, 0, [PutKey(keyA)] + restA);
    var other := ReachesTwoPuts(pr, w, half, 1, vsB, keyB, restB);
    mixed := ReachesPut(pr, w, other, 0, restA);
  }

  lemma {:induction false} ReachesTwoPuts(
    pr: Primitives, w: World, mid: World, t: nat, vs: VaultState, key: Key, rest: seq<Action>) returns (put: World)
    requires Reaches(pr, w, mid) && Free(mid, t) && (|rest| > 0 ==> !rest[0].ReadFile?)
    requires mid.threads[t].todo == [PutState(vs), PutKey(key)] + rest
    ensures Reaches(pr, w, put)
    ensures put == With(mid, t, mid.threads[t].(todo := rest)).(mem := Some(vs), key := Some(key))
  {
    assert mid.threads[t].todo[1..] == [PutKey(key)] + rest && ([PutKey(key)] + rest)[1..] == rest;
    var half := ReachesPut(pr, w, mid, t, [PutKey(key)] + rest);
    put := ReachesPut(pr, w, half, t, rest);
  }

  /**
    A lock overlapping a create or a load can end with a key and no state: the vault reports itself
    unlocked, although every operation on it fails.
  */
  lemma {:induction false} LockDuringInstallLeavesKey(pr: Primitives, w: World, call: Call, vs: VaultState, key: Key)
    returns (end: World)
    requires Initial(w) && |w.threads| >= 2 && Installs(pr, w, call, vs, key)
    ensures Reaches(pr, w, end) && Quiescent(end)
    ensures end.mem == None && end.key.Some? && !Agreed(pr, end)
  {
    assert w.threads[0].Idle() && w.threads[1].Idle();
    ReachesItself(pr, w);
    var open := ReachesPuts(pr, w, w, 0, call, vs, key);
    var between := LockBetweenPuts(pr, w, open, key, AfterPuts(call));
    var closed := ReachesEnd(pr, w, between, 0, call);
    end := ReachesClearState(pr, w, closed, 1);
  }

  lemma {:induction false} LockBetweenPuts(pr: Primitives, w: World, open: World, key: Key, rest: seq<Action>)
    returns (between: World)
    requires Reaches(pr, w, open) && Free(open, 0) && Free(open, 1) && open.threads[1].Idle()
    requires |rest| > 0 ==> rest[0].Save?
    requires open.threads[0].todo != [] && open.threads[0].todo[0].PutState?
    requires open.threads[0].todo[1..] == [PutKey(key)] + rest
    ensures Reaches(pr, w, between)
    ensures between.mem.Some? && between.key == Some(key) && between.stateLock == None && between.keyLock == None
    ensures |between.threads| == |open.threads| && between.threads[0] == open.threads[0].(todo := rest)
    ensures between.threads[1] == Thread(Outside, [ClearState], LockVault, false)
    ensures forall u :: 2 <= u < |open.threads| ==> between.threads[u] == open.threads[u]
  {
    assert ([PutKey(key)] + rest)[1..] == rest;
    between := ReachesPut(pr, w, open, 0, [PutKey(key)] + rest);
    between := ReachesClearKey(pr, w, between, 1);
    between := ReachesPut(pr, w, between, 0, rest);
  }

  lemma {:induction false} ReachesClearState(pr: Primitives, w: World, mid: World, t: nat) returns (cleared: World)
    requires Reaches(pr, w, mid) && Free(mid, t) && mid.threads[t].todo == [ClearState]
    ensures Reaches(pr, w, cleared)
    ensures cleared == With(mid, t, mid.threads[t].(todo := [])).(mem := None)
  {
    ReachesSection(pr, w, mid, t, true);
    cleared := AfterSection(pr, mid, t, true);
    assert mid.threads[t].todo[1..] == [];
  }

  lemma {:induction false} ReachesClearKey(pr: Primitives, w: World, mid: World, t: nat) returns (cleared: World)
    requires Reaches(pr, w, mid) && Free(mid, t) && mid.threads[t].Idle()
    ensures Reaches(pr, w, cleared)
    ensures cleared == With(mid, t, Thread(Outside, [ClearState], LockVault, false)).(key := None)
  {
    var begun := ReachesBegun(pr, w, mid, t, LockVault);
    ReachesSection(pr, w, begun, t, true);
    cleared := AfterSection(pr, begun, t, true);
    assert begun.threads[t].todo[1..] == [ClearState];
    assert mid.given + {} == mid.given;
  }
}
