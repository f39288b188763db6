// The envelope of secrets at rest (src/backend/utils/crypto.ts). AES-256-GCM, base64 and UTF-8 are parameters
// known only by their laws.
module Crypto {
  import opened Json

  newtype Byte = x: int | 0 <= x < 256

  type Bytes = seq<Byte>

  const KEY_BYTES := 32
  const IV_BYTES := 12
  const TAG_BYTES := 16

  datatype Sealed = Sealed(tag: Bytes, data: Bytes)

  datatype Primitives = Primitives(
    seal: (Bytes, Bytes, Bytes) -> Sealed,                // key, iv, plaintext
    open: (Bytes, Bytes, Bytes, Bytes) -> Option<Bytes>,  // key, iv, tag, data
    utf8: string -> Bytes, text: Bytes -> string,
    toBase64: Bytes -> string, fromBase64: string -> Bytes)

  ghost predicate Lawful(p: Primitives) {
    && (forall key, iv, m :: |p.seal(key, iv, m).tag| == TAG_BYTES && |p.seal(key, iv, m).data| == |m|)
    && (forall key, iv, m :: p.open(key, iv, p.seal(key, iv, m).tag, p.seal(key, iv, m).data) == Some(m))
    && (forall b :: p.fromBase64(p.toBase64(b)) == b)
    && (forall s :: p.utf8(s) == [] <==> s == "")
  }

  // Text that survives UTF-8 (no unpaired surrogate).
  predicate WellFormed(p: Primitives, s: string) { p.text(p.utf8(s)) == s }

  datatype Service = Service(prim: Primitives, key: Bytes, keyId: string)

  datatype CryptoError = KeyInvalid | UnknownKeyId | Malformed | IntegrityFailed

  datatype Outcome<+T> = Ok(value: T) | Err(error: CryptoError)

  function CreateService(prim: Primitives, key: Bytes, keyId: string): (r: Outcome<Service>)
    ensures r.Ok? <==> |key| == KEY_BYTES
  {
    if |key| != KEY_BYTES then Err(KeyInvalid) else Ok(Service(prim, key, keyId))
  }

  datatype Encrypted = Encrypted(ciphertext: string, keyId: string)

  // `iv` is the fresh random IV of this encryption.
  function Encrypt(c: Service, plaintext: string, iv: Bytes): Encrypted {
    var s := c.prim.seal(c.key, iv, c.prim.utf8(plaintext));
    Encrypted(c.prim.toBase64(iv + s.tag + s.data), c.keyId)
  }

  function Decrypt(c: Service, ciphertext: string, usedKeyId: string): Outcome<string> {
    var expected, got := c.prim.utf8(c.keyId), c.prim.utf8(usedKeyId);
    if |expected| != |got| || expected != got then Err(UnknownKeyId)
    else
      var buf := c.prim.fromBase64(ciphertext);
      if |buf| <= IV_BYTES + TAG_BYTES then Err(Malformed)
      else
        var iv, tag, data := buf[..IV_BYTES], buf[IV_BYTES..IV_BYTES + TAG_BYTES], buf[IV_BYTES + TAG_BYTES..];
        match c.prim.open(c.key, iv, tag, data)
        case None => Err(IntegrityFailed)
        case Some(m) => Ok(c.prim.text(m))
  }

  // A text as it was encrypted: by which service, and with which random IV.
  datatype Secret = Secret(plaintext: string, iv: Bytes, writer: Service)

  function Sealing(w: Secret): Sealed {
    w.writer.prim.seal(w.writer.key, w.iv, w.writer.prim.utf8(w.plaintext))
  }

  // What a service makes of a secret, told from the secret and not from its ciphertext.
  function Opened(c: Service, w: Secret): Outcome<string> {
    if c.prim.utf8(c.keyId) != c.prim.utf8(w.writer.keyId) then Err(UnknownKeyId)
    else if w.plaintext == "" then Err(Malformed)
    else if c.key == w.writer.key then Ok(c.prim.text(c.prim.utf8(w.plaintext)))
    else match c.prim.open(c.key, w.iv, Sealing(w).tag, Sealing(w).data)
      case None => Err(IntegrityFailed)
      case Some(m) => Ok(c.prim.text(m))
  }

  // Unpacking finds what packing put together, whichever service packed it and whichever unpacks it.
  lemma OpensAs(c: Service, w: Secret)
    requires Lawful(c.prim) && w.writer.prim == c.prim && |w.iv| == IV_BYTES
    ensures var e := Encrypt(w.writer, w.plaintext, w.iv); Decrypt(c, e.ciphertext, e.keyId) == Opened(c, w)
  {
    var m, s := c.prim.utf8(w.plaintext), Sealing(w);
    var buf := w.iv + s.tag + s.data;
    assert c.prim.fromBase64(c.prim.toBase64(buf)) == buf;
    assert |s.tag| == TAG_BYTES && |s.data| == |m|;
    assert buf[..IV_BYTES] == w.iv;
    assert buf[IV_BYTES..IV_BYTES + TAG_BYTES] == s.tag;
    assert buf[IV_BYTES + TAG_BYTES..] == s.data;
    assert c.prim.open(w.writer.key, w.iv, s.tag, s.data) == Some(m);
  }

  // Decryption undoes encryption exactly for the nonempty well-formed plaintexts; the empty one is rejected.
  lemma RoundTrip(c: Service, plaintext: string, iv: Bytes)
    requires Lawful(c.prim) && |iv| == IV_BYTES
    ensures var e := Encrypt(c, plaintext, iv);
      && (plaintext == "" ==> Decrypt(c, e.ciphertext, e.keyId) == Err(Malformed))
      && (Decrypt(c, e.ciphertext, e.keyId) == Ok(plaintext) <==> plaintext != "" && WellFormed(c.prim, plaintext))
  {
    OpensAs(c, Secret(plaintext, iv, c));
  }

  // GCM authenticates: nothing that one key sealed opens under the other. For two given keys this is how the cipher
  // behaves up to a negligible chance; it cannot hold of all keys at once, there being more of them than tags.
  ghost predicate Apart(p: Primitives, one: Bytes, two: Bytes) {
    forall iv, m :: m != [] ==> p.open(two, iv, p.seal(one, iv, m).tag, p.seal(one, iv, m).data) == None
  }

  // A secret can be read exactly under the key that wrote it and under the id it was written with, given a text that
  // survives its encoding. Every service built for a request bears the same id, so it is the integrity check that tells
  // foreign keys, whatever the text.
  lemma ReadsExactly(c: Service, w: Secret)
    requires Lawful(c.prim) && w.writer.prim == c.prim && |w.iv| == IV_BYTES
    requires c.key != w.writer.key ==> Apart(c.prim, w.writer.key, c.key)
    ensures var e := Encrypt(w.writer, w.plaintext, w.iv);
      && (Decrypt(c, e.ciphertext, e.keyId) == Ok(w.plaintext) <==>
            && c.key == w.writer.key && c.prim.utf8(c.keyId) == c.prim.utf8(w.writer.keyId)
            && w.plaintext != "" && WellFormed(c.prim, w.plaintext))
      && (c.keyId == w.writer.keyId && w.plaintext != "" ==>
            if c.key == w.writer.key then Decrypt(c, e.ciphertext, e.keyId).Ok?
            else Decrypt(c, e.ciphertext, e.keyId) == Err(IntegrityFailed))
  {
    OpensAs(c, w);
    assert w.plaintext != "" ==> c.prim.utf8(w.plaintext) != [];
  }

  // The laws do not contradict one another: a cipher that keeps two keys apart.
  lemma LawsPossible(one: Bytes, two: Bytes) returns (p: Primitives)
    requires one != two
    ensures Lawful(p) && Apart(p, one, two)
  {
    var tag := (key: Bytes) => seq(TAG_BYTES, _ => if key == one then 1 as Byte else 0 as Byte);
    p := Primitives(
      (key, iv, m) => Sealed(tag(key), m),
      (key, iv, t, data) => if t == tag(key) then Some(data) else None,
      s => seq(|s|, _ => 0 as Byte), b => "",
      b => seq(|b|, i requires 0 <= i < |b| => b[i] as int as char),
      s => seq(|s|, i requires 0 <= i < |s| => (s[i] as int % 256) as Byte));
    assert forall b :: p.fromBase64(p.toBase64(b)) == b;
    assert tag(one)[0] != tag(two)[0];
  }

  // What decrypts is a packed iv, tag and nonempty ciphertext that authenticates under the key, and nothing else does.
  lemma AcceptsExactly(c: Service, ciphertext: string, usedKeyId: string, plaintext: string)
    ensures Decrypt(c, ciphertext, usedKeyId) == Ok(plaintext) <==>
            && c.prim.utf8(usedKeyId) == c.prim.utf8(c.keyId)
            && exists iv, tag, data, m ::
                 && |iv| == 12 && |tag| == 16 && data != []
                 && c.prim.fromBase64(ciphertext) == iv + tag + data
                 && c.prim.open(c.key, iv, tag, data) == Some(m) && c.prim.text(m) == plaintext
  {
    var buf := c.prim.fromBase64(ciphertext);
    if |buf| > IV_BYTES + TAG_BYTES {
      assert buf == buf[..IV_BYTES] + buf[IV_BYTES..IV_BYTES + TAG_BYTES] + buf[IV_BYTES + TAG_BYTES..];
    }
    forall iv, tag, data | |iv| == IV_BYTES && |tag| == TAG_BYTES && buf == iv + tag + data
      ensures |buf| >= IV_BYTES + TAG_BYTES && iv == buf[..IV_BYTES]
      ensures tag == buf[IV_BYTES..IV_BYTES + TAG_BYTES] && data == buf[IV_BYTES + TAG_BYTES..]
    {
    }
  }
}
