/**
 * The browser's cryptographic and serialisation services, which the planner only
 * calls: PBKDF2 key derivation, AES-GCM, JSON with UTF-8.  They are modelled as
 * function values the planner is given, and everything proved about the planner
 * assumes only the laws stated here.
 */
module Primitives {
  import opened Wrappers
  import opened Base64
  import opened Data

  /** An AES key produced by `deriveKey`; its bits are never stored. */
  datatype Key = Key(bits: seq<byte>)

  /** Length of the AES-GCM authentication tag appended to every ciphertext
      (WebCrypto's default `tagLength` of 128 bits). */
  const TagLength: nat := 16

  /** A 12-byte initialisation vector, as drawn by `crypto.getRandomValues(new Uint8Array(12))`. */
  type Iv = b: seq<byte> | |b| == 12 witness [0, 0, 0, 0, 0, 0, 0, 0, 0, 0, 0, 0]

  /** `crypto.subtle.encrypt` / `decrypt` with AES-GCM: `seal(key, iv, plaintext)` and
      `open(key, iv, ciphertext)`, the latter failing with `None`. */
  datatype Cipher = Cipher(
    seal: (Key, seq<byte>, seq<byte>) -> seq<byte>,
    open: (Key, seq<byte>, seq<byte>) -> Option<seq<byte>>)

  /** The only facts about the cipher the model relies on: opening with the key and IV
      that sealed recovers the plaintext, and a ciphertext carries the tag.  Nothing is
      assumed about keys or IVs that do not match. */
  ghost predicate CipherLaw(c: Cipher)
  {
    forall k, iv, p :: c.open(k, iv, c.seal(k, iv, p)) == Some(p) && |c.seal(k, iv, p)| == |p| + TagLength
  }

  /** `TextEncoder.encode(JSON.stringify(data))` and `JSON.parse(TextDecoder.decode(bytes))`,
      the latter failing with `None` where `JSON.parse` throws. */
  datatype Codec = Codec(serialize: AppData -> seq<byte>, parse: seq<byte> -> Option<AppData>)

  ghost predicate CodecLaw(c: Codec)
  {
    forall d :: c.parse(c.serialize(d)) == Some(d)
  }

  /** A cipher that meets `CipherLaw` and, like AES-GCM, refuses a ciphertext under a
      different IV: the tag is the IV padded to 16 bytes.  It shows that `CipherLaw` can
      be met and serves as the witness cipher of `SealedStore.FailedSaveCanLoseStoredData`. */
  function TagOf(iv: seq<byte>): (t: seq<byte>)
    ensures |t| == TagLength
  {
    (iv + [0, 0, 0, 0, 0, 0, 0, 0, 0, 0, 0, 0, 0, 0, 0, 0])[..TagLength]
  }

  function WitnessSeal(k: Key, iv: seq<byte>, p: seq<byte>): seq<byte>
  {
    p + TagOf(iv)
  }

  function WitnessOpen(k: Key, iv: seq<byte>, c: seq<byte>): Option<seq<byte>>
  {
    if |c| >= TagLength && c[|c| - TagLength..] == TagOf(iv) then Some(c[..|c| - TagLength]) else None
  }

  function WitnessCipher(): Cipher
  {
    Cipher(WitnessSeal, WitnessOpen)
  }

  lemma WitnessCipherLawful()
    ensures CipherLaw(WitnessCipher())
  {
    var c := WitnessCipher();
    forall k, iv, p
      ensures c.open(k, iv, c.seal(k, iv, p)) == Some(p) && |c.seal(k, iv, p)| == |p| + TagLength
    {
      var s := p + TagOf(iv);
      assert s[|s| - TagLength..] == TagOf(iv);
      assert s[..|s| - TagLength] == p;
    }
  }
}
