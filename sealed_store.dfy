/**
 * The encryption-at-rest protocol of app.js (`Crypto.encrypt`/`decrypt`,
 * `APP.saveData`/`loadData`) as functions of the two storage slots.  The class
 * `Planner.Planner` performs these steps on its own state and is specified by them.
 */
module SealedStore {
  import opened Wrappers
  import Base64
  import opened Data
  import opened Primitives

  /** `localStorage`: a map from slot names to texts. */
  type Slots = map<string, string>

  /** The slot holding the sealed application state (app.js `STORAGE_KEY`). */
  const BlobSlot: string := "PrivacyPlannerData"
  /** The slot holding the IV of the most recent encryption (app.js `IV_KEY`). */
  const IvSlot: string := "PrivacyPlannerIV"

  /** JavaScript truthiness of `localStorage.getItem(slot)`: a missing slot and an
      empty text both count as nothing stored. */
  predicate Stored(slots: Slots, slot: string)
  {
    slot in slots && slots[slot] != ""
  }

  /** Why `Crypto.decrypt` throws. */
  datatype CryptoError =
    | IvMissing        // "IV fehlt."
    | MalformedBase64  // `atob` rejects the stored IV or the ciphertext
    | KeyMissing       // no key is held, so the cipher call is refused
    | CipherRejected   // AES-GCM refuses the ciphertext

  /** What the environment supplies to one `saveData` call: the notes and mood read
      from the page, the fresh random IV, and whether each of the two storage writes
      succeeds (a write fails when the storage quota is exceeded). */
  datatype SaveEnv = SaveEnv(notes: string, mood: int, iv: Iv, ivWriteOk: bool, blobWriteOk: bool)

  /** How `saveData` ends: nothing done without a key, the confirmation on the save
      button, or the "Speichern fehlgeschlagen!" alert. */
  datatype SaveOutcome = NoKey | Saved | SaveFailed

  /** The storage and the application state after `saveData`. */
  datatype Saving = Saving(slots: Slots, data: AppData, outcome: SaveOutcome)

  /** How `loadData` ends: defaults for an empty store, the opened state, or the
      "Decryption Failed" error. */
  datatype LoadOutcome = Fresh | Opened(data: AppData) | Rejected

  /** The two slots hold the outputs of one `encrypt(plaintext)` call with `key` and `iv`. */
  ghost predicate SealedPair(slots: Slots, key: Key, iv: seq<Base64.byte>, plaintext: seq<Base64.byte>, cipher: Cipher)
  {
    && IvSlot in slots && slots[IvSlot] == Base64.Encode(iv)
    && BlobSlot in slots && slots[BlobSlot] == Base64.Encode(cipher.seal(key, iv, plaintext))
  }

  /** `Crypto.decrypt(ciphertext, key)`: read the stored IV, decode both texts, open.
      The IV check comes first, so a missing IV is reported whatever the cipher, the key
      and the ciphertext are. */
  function Decrypt(slots: Slots, ciphertext: string, key: Option<Key>, cipher: Cipher): (r: Result<seq<Base64.byte>, CryptoError>)
    ensures r == Failure(IvMissing) <==> !Stored(slots, IvSlot)
    ensures r.Success? ==>
      && key.Some?
      && Base64.Decode(slots[IvSlot]).Some? && Base64.Decode(ciphertext).Some?
      && cipher.open(key.value, Base64.Decode(slots[IvSlot]).value, Base64.Decode(ciphertext).value) == Some(r.value)
    ensures Stored(slots, IvSlot) && key.Some? &&
            Base64.Decode(slots[IvSlot]).Some? && Base64.Decode(ciphertext).Some? &&
            cipher.open(key.value, Base64.Decode(slots[IvSlot]).value, Base64.Decode(ciphertext).value).Some? ==>
      r == Success(cipher.open(key.value, Base64.Decode(slots[IvSlot]).value, Base64.Decode(ciphertext).value).value)
  {
    if !Stored(slots, IvSlot) then Failure(IvMissing)
    else match (Base64.Decode(slots[IvSlot]), Base64.Decode(ciphertext))
      case (Some(iv), Some(bytes)) =>
        if key.None? then Failure(KeyMissing)
        else (match cipher.open(key.value, iv, bytes)
          case None => Failure(CipherRejected)
          case Some(p) => Success(p))
      case _ => Failure(MalformedBase64)
  }

  /** `loadData`, as the value it adopts: an empty blob slot gives the defaults, and
      every failure of decryption or parsing is one rejection. */
  function Load(slots: Slots, key: Option<Key>, cipher: Cipher, codec: Codec): (r: LoadOutcome)
    ensures r == Fresh <==> !Stored(slots, BlobSlot)
    ensures r.Opened? ==>
      && Decrypt(slots, slots[BlobSlot], key, cipher).Success?
      && codec.parse(Decrypt(slots, slots[BlobSlot], key, cipher).value) == Some(r.data)
    ensures Stored(slots, BlobSlot) && Decrypt(slots, slots[BlobSlot], key, cipher).Success? &&
            codec.parse(Decrypt(slots, slots[BlobSlot], key, cipher).value).Some? ==>
      r == Opened(codec.parse(Decrypt(slots, slots[BlobSlot], key, cipher).value).value)
    ensures Stored(slots, BlobSlot) && !Stored(slots, IvSlot) ==> r == Rejected
  {
    if !Stored(slots, BlobSlot) then Fresh
    else match Decrypt(slots, slots[BlobSlot], key, cipher)
      case Failure(_) => Rejected
      case Success(p) =>
        match codec.parse(p)
        case None => Rejected
        case Some(d) => Opened(d)
  }

  /** `saveData`, as the storage and application state it leaves.  Without a key
      nothing changes.  Otherwise the page's notes and mood are adopted first; the IV
      slot is written (inside `encrypt`) before the blob slot, so a failed blob write
      leaves the new IV next to the old blob. */
  function Save(slots: Slots, key: Option<Key>, data: AppData, env: SaveEnv, cipher: Cipher, codec: Codec): (r: Saving)
    ensures key.None? ==> r == Saving(slots, data, NoKey)
    ensures key.Some? ==> r.data == data.(notes := env.notes, mood := env.mood) && r.outcome != NoKey
    ensures r.outcome == Saved <==> key.Some? && env.ivWriteOk && env.blobWriteOk
    ensures r.outcome == Saved ==>
      && SealedPair(r.slots, key.value, env.iv, codec.serialize(r.data), cipher)
      && r.slots.Keys == slots.Keys + {IvSlot, BlobSlot}
      && forall s :: s in slots && s != IvSlot && s != BlobSlot ==> r.slots[s] == slots[s]
    ensures key.Some? && env.ivWriteOk && !env.blobWriteOk ==> r.slots == slots[IvSlot := Base64.Encode(env.iv)]
    ensures key.Some? && !env.ivWriteOk ==> r.slots == slots
  {
    match key
    case None => Saving(slots, data, NoKey)
    case Some(k) =>
      var d := data.(notes := env.notes, mood := env.mood);
      if !env.ivWriteOk then Saving(slots, d, SaveFailed)
      else
        var withIv := slots[IvSlot := Base64.Encode(env.iv)];
        if !env.blobWriteOk then Saving(withIv, d, SaveFailed)
        else Saving(withIv[BlobSlot := Base64.Encode(cipher.seal(k, env.iv, codec.serialize(d)))], d, Saved)
  }

  /** Round trip of `encrypt` and `decrypt`: after the IV slot is written with `iv`,
      decrypting the returned ciphertext with the same key yields the plaintext. */
  lemma DecryptRoundTrip(slots: Slots, key: Key, iv: Iv, plaintext: seq<Base64.byte>, cipher: Cipher)
    requires CipherLaw(cipher)
    ensures Decrypt(slots[IvSlot := Base64.Encode(iv)], Base64.Encode(cipher.seal(key, iv, plaintext)), Some(key), cipher)
            == Success(plaintext)
  {
    Base64.DecodeEncode(iv);
    Base64.DecodeEncode(cipher.seal(key, iv, plaintext));
  }

  /** A successful save followed by a load with the same key restores exactly the
      state that was saved. */
  lemma LoadAfterSave(slots: Slots, key: Key, data: AppData, env: SaveEnv, cipher: Cipher, codec: Codec)
    requires CipherLaw(cipher) && CodecLaw(codec)
    requires env.ivWriteOk && env.blobWriteOk
    ensures var r := Save(slots, Some(key), data, env, cipher, codec);
      Load(r.slots, Some(key), cipher, codec) == Opened(r.data)
  {
    var r := Save(slots, Some(key), data, env, cipher, codec);
    var sealed := cipher.seal(key, env.iv, codec.serialize(r.data));
    assert r.slots == slots[IvSlot := Base64.Encode(env.iv)][BlobSlot := Base64.Encode(sealed)];
    DecryptRoundTrip(slots[BlobSlot := Base64.Encode(sealed)], key, env.iv, codec.serialize(r.data), cipher);
    assert r.slots == slots[BlobSlot := Base64.Encode(sealed)][IvSlot := Base64.Encode(env.iv)];
    assert |Base64.Encode(sealed)| > 0;
  }

  /** The ordering hazard: when the blob write fails after the IV write, the blob
      sealed under `oldIv` now sits next to the new IV, the two slots no longer form
      the pair one `encrypt` call wrote, and the next load opens the old ciphertext
      under the wrong IV, where the cipher's law promises nothing. */
  lemma FailedBlobWriteSplitsPair(slots: Slots, key: Key, oldIv: Iv, oldPlaintext: seq<Base64.byte>,
                                  data: AppData, env: SaveEnv, cipher: Cipher, codec: Codec)
    requires SealedPair(slots, key, oldIv, oldPlaintext, cipher)
    requires env.ivWriteOk && !env.blobWriteOk && env.iv != oldIv
    ensures var r := Save(slots, Some(key), data, env, cipher, codec);
      && r.outcome == SaveFailed
      && r.slots[BlobSlot] == slots[BlobSlot]
      && !SealedPair(r.slots, key, oldIv, oldPlaintext, cipher)
      && Decrypt(r.slots, r.slots[BlobSlot], Some(key), cipher)
         == match cipher.open(key, env.iv, cipher.seal(key, oldIv, oldPlaintext))
            case Some(p) => Success(p)
            case None => Failure(CipherRejected)
  {
    var r := Save(slots, Some(key), data, env, cipher, codec);
    if Base64.Encode(env.iv) == Base64.Encode(oldIv) {
      Base64.EncodeInjective(env.iv, oldIv);
    }
    Base64.DecodeEncode(env.iv);
    Base64.DecodeEncode(cipher.seal(key, oldIv, oldPlaintext));
  }

  /** The hazard loses data: for every lawful cipher that, like AES-GCM, refuses the old
      ciphertext under the new IV, the load after a save whose blob write failed is a
      rejection, although the stored pair was intact before. */
  lemma FailedSaveRejectsNextLoad(slots: Slots, key: Key, oldIv: Iv, oldPlaintext: seq<Base64.byte>,
                                  data: AppData, env: SaveEnv, cipher: Cipher, codec: Codec)
    requires CipherLaw(cipher)
    requires SealedPair(slots, key, oldIv, oldPlaintext, cipher)
    requires env.ivWriteOk && !env.blobWriteOk && env.iv != oldIv
    requires cipher.open(key, env.iv, cipher.seal(key, oldIv, oldPlaintext)).None?
    ensures Load(Save(slots, Some(key), data, env, cipher, codec).slots, Some(key), cipher, codec) == Rejected
  {
    FailedBlobWriteSplitsPair(slots, key, oldIv, oldPlaintext, data, env, cipher, codec);
    assert |Base64.Encode(cipher.seal(key, oldIv, oldPlaintext))| > 0;
  }

  /** The hazard is a real loss: with a lawful cipher that, like AES-GCM, refuses a
      mismatched IV, a store that loads `previous` loads nothing after one save whose
      blob write failed. */
  lemma FailedSaveCanLoseStoredData(key: Key, previous: AppData, data: AppData, codec: Codec, notes: string, mood: int)
    requires CodecLaw(codec)
    ensures var cipher := WitnessCipher();
      var before := map[IvSlot := Base64.Encode(FirstIv),
                        BlobSlot := Base64.Encode(cipher.seal(key, FirstIv, codec.serialize(previous)))];
      var env := SaveEnv(notes, mood, SecondIv, true, false);
      && CipherLaw(cipher)
      && Load(before, Some(key), cipher, codec) == Opened(previous)
      && Load(Save(before, Some(key), data, env, cipher, codec).slots, Some(key), cipher, codec) == Rejected
  {
    WitnessCipherLawful();
    WitnessStoreLoads(key, previous, codec);
    WitnessStoreRejects(key, previous, data, codec, SaveEnv(notes, mood, SecondIv, true, false));
  }

  const FirstIv: Iv := [0, 0, 0, 0, 0, 0, 0, 0, 0, 0, 0, 0]
  const SecondIv: Iv := [1, 0, 0, 0, 0, 0, 0, 0, 0, 0, 0, 0]

  function WitnessStore(key: Key, previous: AppData, codec: Codec): Slots
  {
    map[IvSlot := Base64.Encode(FirstIv),
        BlobSlot := Base64.Encode(WitnessCipher().seal(key, FirstIv, codec.serialize(previous)))]
  }

  lemma WitnessStoreLoads(key: Key, previous: AppData, codec: Codec)
    requires CodecLaw(codec)
    ensures Load(WitnessStore(key, previous, codec), Some(key), WitnessCipher(), codec) == Opened(previous)
  {
    var cipher := WitnessCipher();
    WitnessCipherLawful();
    var sealed := cipher.seal(key, FirstIv, codec.serialize(previous));
    var before := WitnessStore(key, previous, codec);
    assert before == before[IvSlot := Base64.Encode(FirstIv)];
    DecryptRoundTrip(before, key, FirstIv, codec.serialize(previous), cipher);
    assert |Base64.Encode(sealed)| > 0;
  }

  lemma WitnessStoreRejects(key: Key, previous: AppData, data: AppData, codec: Codec, env: SaveEnv)
    requires env.iv == SecondIv && env.ivWriteOk && !env.blobWriteOk
    ensures Load(Save(WitnessStore(key, previous, codec), Some(key), data, env, WitnessCipher(), codec).slots,
                 Some(key), WitnessCipher(), codec) == Rejected
  {
    var cipher := WitnessCipher();
    var sealed := cipher.seal(key, FirstIv, codec.serialize(previous));
    FailedBlobWriteSplitsPair(WitnessStore(key, previous, codec), key, FirstIv, codec.serialize(previous), data, env, cipher, codec);
    assert TagOf(SecondIv) != TagOf(FirstIv) by { assert TagOf(SecondIv)[0] != TagOf(FirstIv)[0]; }
    assert sealed[|sealed| - TagLength..] == TagOf(FirstIv);
    assert |Base64.Encode(sealed)| > 0;
  }
}
