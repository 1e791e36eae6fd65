/**
  The encrypted vault file: what saving writes and what loading accepts (rust/src/api/vault.rs:283-406).
  The cryptographic functions, base64 and the JSON text are library code, known by their laws only.
*/
module VaultFile {
  import opened Collections
  import opened Models
  import opened Json
  import opened VaultOps
  import Utf8

  type byte = Utf8.byte
  type Key = seq<byte>

  const KEY_SIZE := 32
  const NONCE_SIZE := 12

  datatype VaultState = VaultState(data: VaultData, salt: string, passwordHash: string)

  datatype Primitives = Primitives(
    hash: (string, string) -> Option<string>,
    validHash: string -> bool,
    verify: (string, string) -> bool,
    derive: (string, string) -> Option<Key>,
    seal: (Key, seq<byte>, seq<byte>) -> seq<byte>,
    unseal: (Key, seq<byte>, seq<byte>) -> Option<seq<byte>>,
    toBase64: seq<byte> -> string,
    fromBase64: string -> Option<seq<byte>>,
    format: Json -> string,
    parse: string -> Option<Json>)
  {
    ghost predicate Lawful() {
      && (forall p, s :: hash(p, s).Some? ==> validHash(hash(p, s).value) && verify(p, hash(p, s).value))
      && (forall p, s :: derive(p, s).Some? ==> |derive(p, s).value| == KEY_SIZE)
      && (forall k, n, d :: |k| == KEY_SIZE && |n| == NONCE_SIZE ==> unseal(k, n, seal(k, n, d)) == Some(d))
      && (forall b :: fromBase64(toBase64(b)) == Some(b))
      && (forall j :: parse(format(j)) == Some(j))
    }

    /** A sealed text opens, under whatever key, to itself or not at all. */
    ghost predicate Authentic() {
      forall k, k', n, d ::
        |n| == NONCE_SIZE && unseal(k', n, seal(k, n, d)).Some? ==> unseal(k', n, seal(k, n, d)).value == d
    }
  }

  /** The nonce, then the ciphertext. */
  function EncryptData(pr: Primitives, data: seq<byte>, key: Key, nonce: seq<byte>): Result<seq<byte>, Error> {
    if |key| != KEY_SIZE then Err(EncryptionFailed) else Ok(nonce + pr.seal(key, nonce, data))
  }

  function DecryptData(pr: Primitives, data: seq<byte>, key: Key): Result<seq<byte>, Error> {
    if |data| < NONCE_SIZE then Err(InvalidData)
    else if |key| != KEY_SIZE then Err(DecryptionFailed)
    else
      match pr.unseal(key, data[..NONCE_SIZE], data[NONCE_SIZE..])
      case Some(plain) => Ok(plain)
      case None => Err(DecryptionFailed)
  }

  /** The text that saving writes. */
  function FileText(pr: Primitives, vs: VaultState, key: Key, nonce: seq<byte>): Result<string, Error> {
    var encrypted :- EncryptData(pr, Utf8.Encode(pr.format(DataJson(vs.data))), key, nonce);
    Ok(pr.format(Object(map[
      Salt := Text(vs.salt),
      PasswordHash := Text(vs.passwordHash),
      EncryptedData := Text(pr.toBase64(encrypted))])))
  }

  function OrError<T>(o: Option<T>, e: Error): Result<T, Error> {
    if o.Some? then Ok(o.value) else Err(e)
  }

  /** What loading makes of a file's text, its checks in the order of the source. */
  function OpenFile(pr: Primitives, text: string, password: string): Result<(VaultState, Key), Error> {
    var file :- OrError(pr.parse(text), BadVaultFile);
    if !file.Object? then Err(BadVaultFile)
    else
      var salt :- OrError(GetText(file.fields, Salt), BadVaultFile);
      var passwordHash :- OrError(GetText(file.fields, PasswordHash), BadVaultFile);
      var encoded :- OrError(GetText(file.fields, EncryptedData), BadVaultFile);
      if !pr.validHash(passwordHash) then Err(BadVaultFile)
      else if !pr.verify(password, passwordHash) then Err(WrongPassword)
      else
        var key :- OrError(pr.derive(password, salt), DeriveFailed);
        var encrypted :- OrError(pr.fromBase64(encoded), BadBase64);
        var plain :- DecryptData(pr, encrypted, key);
        var json :- OrError(Utf8.Decode(plain), BadContents);
        var tree :- OrError(pr.parse(json), BadContents);
        var data :- OrError(DataOf(tree), BadContents);
        Ok((VaultState(data, salt, passwordHash), key))
  }

  /** One password both passes the stored hash and derives the key from the stored salt. */
  ghost predicate Unlocks(pr: Primitives, password: string, vs: VaultState, key: Key) {
    && pr.validHash(vs.passwordHash)
    && pr.verify(password, vs.passwordHash)
    && pr.derive(password, vs.salt) == Some(key)
  }

  function Erased(vs: VaultState): VaultState {
    vs.(data := Erase(vs.data))
  }

  /** What tells one vault from another: its salt and its password hash. */
  datatype Header = Header(salt: string, passwordHash: string)

  function HeaderOf(vs: VaultState): Header {
    Header(vs.salt, vs.passwordHash)
  }

  /** The header in a file's text, if it has one. */
  function HeaderIn(pr: Primitives, text: string): Option<Header> {
    var file :- pr.parse(text);
    if !file.Object? then None
    else
      var salt :- GetText(file.fields, Salt);
      var passwordHash :- GetText(file.fields, PasswordHash);
      Some(Header(salt, passwordHash))
  }

  /** Saving keeps the header, under whatever key. */
  lemma {:induction false} HeaderOfText(pr: Primitives, vs: VaultState, key: Key, nonce: seq<byte>)
    requires pr.Lawful() && FileText(pr, vs, key, nonce).Ok?
    ensures HeaderIn(pr, FileText(pr, vs, key, nonce).value) == Some(HeaderOf(vs))
  {
  }

  /** The nonce and the ciphertext come apart again where they were joined. */
  lemma {:induction false} DecryptUndoesEncrypt(pr: Primitives, data: seq<byte>, key: Key, nonce: seq<byte>)
    requires pr.Lawful() && |key| == KEY_SIZE && |nonce| == NONCE_SIZE
    ensures EncryptData(pr, data, key, nonce).Ok?
    ensures DecryptData(pr, EncryptData(pr, data, key, nonce).value, key) == Ok(data)
  {
    var sealed := pr.seal(key, nonce, data);
    assert (nonce + sealed)[..NONCE_SIZE] == nonce && (nonce + sealed)[NONCE_SIZE..] == sealed;
  }

  /**
    A saved vault opens with the password it belongs to, under any nonce: the same salt, hash and key, and
    the same data with the key passphrases erased.
  */
  lemma {:induction false} SavedFileOpens(pr: Primitives, vs: VaultState, key: Key, nonce: seq<byte>, password: string)
    requires pr.Lawful() && |nonce| == NONCE_SIZE && Unlocks(pr, password, vs, key)
    ensures FileText(pr, vs, key, nonce).Ok?
    ensures OpenFile(pr, FileText(pr, vs, key, nonce).value, password) == Ok((Erased(vs), key))
  {
    var json := pr.format(DataJson(vs.data));
    DecryptUndoesEncrypt(pr, Utf8.Encode(json), key, nonce);
    Utf8.RoundTrip(json);
    DataBack(vs.data);
  }

  /**
    A saved file, piece by piece: salt and hash in the clear, and under the third name a text that unpacks to
    the nonce and what the key seals under it, which holds the data as text.
  */
  lemma {:induction false} FileIsLaidOut(pr: Primitives, vs: VaultState, key: Key, nonce: seq<byte>)
    requires pr.Lawful() && |nonce| == NONCE_SIZE
    ensures FileText(pr, vs, key, nonce).Ok? <==> |key| == 32
    ensures FileText(pr, vs, key, nonce).Err? ==> FileText(pr, vs, key, nonce).error == EncryptionFailed
    ensures |key| == 32 ==>
              var file := pr.parse(FileText(pr, vs, key, nonce).value);
              && file.Some? && file.value.Object?
              && GetText(file.value.fields, Salt) == Some(vs.salt)
              && GetText(file.value.fields, PasswordHash) == Some(vs.passwordHash)
              && GetText(file.value.fields, EncryptedData).Some?
              && file.value.fields.Keys == {Salt, PasswordHash, EncryptedData}
              && var packed := pr.fromBase64(GetText(file.value.fields, EncryptedData).value);
                 && packed.Some? && |packed.value| >= 12 && packed.value[..12] == nonce
                 && var plain := pr.unseal(key, nonce, packed.value[12..]);
                    && plain.Some? && Utf8.Decode(plain.value) == Some(pr.format(DataJson(vs.data)))
  {
    if |key| == 32 {
      var json := pr.format(DataJson(vs.data));
      var sealed := pr.seal(key, nonce, Utf8.Encode(json));
      assert (nonce + sealed)[..NONCE_SIZE] == nonce && (nonce + sealed)[NONCE_SIZE..] == sealed;
      Utf8.RoundTrip(json);
    }
  }

  /** No key passphrase reaches the file, not even sealed: the text is that of the vault without them. */
  lemma {:induction false} NoPassphraseInFile(pr: Primitives, vs: VaultState, key: Key, nonce: seq<byte>)
    ensures FileText(pr, vs, key, nonce) == FileText(pr, Erased(vs), key, nonce)
  {
    PassphraseIsNotWritten(vs.data.connections);
  }

  /** The file has salt, hash and sealed data, each a text, and the hash is one that can be checked. */
  ghost predicate IsVaultFile(pr: Primitives, text: string) {
    && HeaderIn(pr, text).Some?
    && GetText(pr.parse(text).value.fields, EncryptedData).Some?
    && pr.validHash(HeaderIn(pr, text).value.passwordHash)
  }

  /** What a key makes of the sealed data. */
  ghost function Unsealed(pr: Primitives, text: string, key: Key): Option<seq<byte>>
    requires IsVaultFile(pr, text)
  {
    var packed :- pr.fromBase64(GetText(pr.parse(text).value.fields, EncryptedData).value);
    if |packed| < 12 || |key| != 32 then None else pr.unseal(key, packed[..12], packed[12..])
  }

  /**
    When a load is refused, and why. The password is looked at only in a file of the right form, and nothing is
    unsealed before the password has passed the hash; one that has not is called wrong, and no other is.
  */
  lemma {:induction false} RefusedExactly(pr: Primitives, text: string, password: string)
    ensures var r := OpenFile(pr, text, password);
            && (r == Err(BadVaultFile) <==> !IsVaultFile(pr, text))
            && (r == Err(WrongPassword) <==>
                  IsVaultFile(pr, text) && !pr.verify(password, HeaderIn(pr, text).value.passwordHash))
            && (r == Err(DeriveFailed) <==>
                  && IsVaultFile(pr, text) && pr.verify(password, HeaderIn(pr, text).value.passwordHash)
                  && pr.derive(password, HeaderIn(pr, text).value.salt).None?)
            && (r.Ok? ==> HeaderOf(r.value.0) == HeaderIn(pr, text).value && Unsealed(pr, text, r.value.1).Some?)
            && (r == Err(BadContents) ==>
                  && IsVaultFile(pr, text) && pr.derive(password, HeaderIn(pr, text).value.salt).Some?
                  && Unsealed(pr, text, pr.derive(password, HeaderIn(pr, text).value.salt).value).Some?)
            && (r.Err? && r.error in {BadBase64, InvalidData, DecryptionFailed} ==>
                  && IsVaultFile(pr, text) && pr.derive(password, HeaderIn(pr, text).value.salt).Some?
                  && Unsealed(pr, text, pr.derive(password, HeaderIn(pr, text).value.salt).value).None?)
            && (r.Err? ==> r.error in {BadVaultFile, WrongPassword, DeriveFailed, BadBase64, InvalidData,
                                       DecryptionFailed, BadContents})
  {
  }

  /** Whatever password opens a saved file, it finds the same data. */
  lemma {:induction false} SavedFileOpensToItself(
    pr: Primitives, vs: VaultState, key: Key, nonce: seq<byte>, password: string)
    requires pr.Lawful() && pr.Authentic() && |nonce| == NONCE_SIZE && FileText(pr, vs, key, nonce).Ok?
    ensures var r := OpenFile(pr, FileText(pr, vs, key, nonce).value, password);
            r.Ok? ==> r.value.0 == Erased(vs)
  {
    var json := pr.format(DataJson(vs.data));
    var plain := Utf8.Encode(json);
    var sealed := pr.seal(key, nonce, plain);
    assert (nonce + sealed)[..NONCE_SIZE] == nonce && (nonce + sealed)[NONCE_SIZE..] == sealed;
    Utf8.RoundTrip(json);
    DataBack(vs.data);
  }

  /** A password that does not pass the stored hash never opens the file. */
  lemma {:induction false} OtherPasswordIsRefused(
    pr: Primitives, vs: VaultState, key: Key, nonce: seq<byte>, password: string)
    requires pr.Lawful() && |key| == KEY_SIZE && pr.validHash(vs.passwordHash) && !pr.verify(password, vs.passwordHash)
    ensures FileText(pr, vs, key, nonce).Ok?
    ensures OpenFile(pr, FileText(pr, vs, key, nonce).value, password) == Err(WrongPassword)
  {
  }

  /** What opens is unlocked by the password that opened it, and holds no key passphrase. */
  lemma {:induction false} OpenedIsUnlocked(pr: Primitives, text: string, password: string)
    ensures OpenFile(pr, text, password).Ok? ==>
              var (vs, key) := OpenFile(pr, text, password).value;
              Unlocks(pr, password, vs, key) && Erased(vs) == vs
  {
    var r := OpenFile(pr, text, password);
    if r.Ok? {
      var file := pr.parse(text).value;
      var encrypted := pr.fromBase64(GetText(file.fields, EncryptedData).value).value;
      var plain := DecryptData(pr, encrypted, r.value.1).value;
      var tree := pr.parse(Utf8.Decode(plain).value).value;
      ReadIsErased(GetItems(tree.fields, Connections).value);
    }
  }
}
