/**
 * The planner's session: the storage slots, the key held in memory, the application
 * state and the stopwatch, with the operations of app.js as methods that change them.
 * Each method does the source's steps in order; its postcondition ties the new state
 * to the functions of `SealedStore`, `Todo` and `Duration`, about which the round-trip
 * and invariant lemmas are proved.
 */
module Planner {
  import opened Wrappers
  import Base64
  import opened Text
  import opened Data
  import opened Primitives
  import opened SealedStore
  import opened Todo
  import opened Duration

  /** How `initApp` ends. */
  datatype InitOutcome =
    | EmptyPassword                      // "Bitte ein Passwort eingeben."
    | KeyUnavailable                     // `deriveKey` rejected; the error is only logged
    | WrongPassword                      // loading failed; the password screen stays
    | Unlocked(firstSave: Option<SaveOutcome>)  // the main screen; a first start also saves

  /** The save input after `APP.renderAll`: rendering writes `data.notes` into the notes
      field and `data.mood` into the mood slider, so the `saveData` that follows reads
      those values back instead of whatever the page showed before. */
  function Rendered(env: SaveEnv, data: AppData): SaveEnv
  {
    env.(notes := data.notes, mood := data.mood)
  }

  class Planner {
    /** AES-GCM, JSON and PBKDF2 with the fixed salt and iteration count; `None` when
        the browser refuses the derivation (for example without `crypto.subtle`). */
    const cipher: Cipher
    const codec: Codec
    const deriveKey: string -> Option<Key>

    /** `localStorage`. */
    var storage: Slots
    /** `MASTER_KEY`; `None` for undefined or null. */
    var masterKey: Option<Key>
    /** `APP_DATA`. */
    var appData: AppData
    /** Whether the main content is shown instead of the password screen. */
    var unlocked: bool

    /** The stopwatch (`TIMER`). */
    var startTime: int
    var elapsedTime: int
    var isRunning: bool

    /** The main content is shown exactly while a key is held: the password screen is
        hidden only after a key was derived and loading succeeded, and a failed load
        drops the key and shows the screen again. */
    predicate SessionConsistent()
      reads this
    {
      unlocked <==> masterKey.Some?
    }

    /** A page load over whatever the storage already holds. */
    constructor (cipher: Cipher, codec: Codec, deriveKey: string -> Option<Key>, storage: Slots)
      ensures this.cipher == cipher && this.codec == codec && this.deriveKey == deriveKey
      ensures this.storage == storage && masterKey == None && appData == DefaultData && !unlocked
      ensures startTime == 0 && elapsedTime == 0 && !isRunning
      ensures SessionConsistent()
    {
      this.cipher := cipher;
      this.codec := codec;
      this.deriveKey := deriveKey;
      this.storage := storage;
      masterKey := None;
      appData := DefaultData;
      unlocked := false;
      startTime, elapsedTime, isRunning := 0, 0, false;
    }

    /** `Crypto.encrypt`: seal, write the IV slot, return the base64 ciphertext.  If the
        IV write fails nothing is stored and the call fails.  What it returns decrypts,
        with no save in between, to the plaintext. */
    method Encrypt(plaintext: seq<Base64.byte>, key: Key, iv: Iv, ivWriteOk: bool) returns (r: Option<string>)
      modifies this`storage
      ensures storage == if ivWriteOk then old(storage)[IvSlot := Base64.Encode(iv)] else old(storage)
      ensures r == if ivWriteOk then Some(Base64.Encode(cipher.seal(key, iv, plaintext))) else None
      ensures r.Some? && CipherLaw(cipher) ==> Decrypt(storage, r.value, Some(key), cipher) == Success(plaintext)
    {
      var ciphertext := cipher.seal(key, iv, plaintext);
      if !ivWriteOk {
        return None;
      }
      storage := storage[IvSlot := Base64.Encode(iv)];
      if CipherLaw(cipher) {
        DecryptRoundTrip(old(storage), key, iv, plaintext, cipher);
      }
      r := Some(Base64.Encode(ciphertext));
    }

    /** `APP.saveData`. */
    method SaveData(env: SaveEnv) returns (outcome: SaveOutcome)
      modifies this`storage, this`appData
      ensures Saving(storage, appData, outcome) == Save(old(storage), masterKey, old(appData), env, cipher, codec)
    {
      if masterKey.None? {
        return NoKey;
      }
      appData := appData.(notes := env.notes, mood := env.mood);
      var encrypted := Encrypt(codec.serialize(appData), masterKey.value, env.iv, env.ivWriteOk);
      if encrypted.None? {
        return SaveFailed;
      }
      if !env.blobWriteOk {
        return SaveFailed;
      }
      storage := storage[BlobSlot := encrypted.value];
      outcome := Saved;
    }

    /** `APP.loadData`: defaults for an empty store, the opened state on success, and on
        any failure the key is dropped, the password screen shown and an error raised. */
    method LoadData() returns (outcome: LoadOutcome)
      modifies this`appData, this`masterKey, this`unlocked
      ensures outcome == Load(storage, old(masterKey), cipher, codec)
      ensures outcome.Fresh? ==> appData == DefaultData && masterKey == old(masterKey) && unlocked == old(unlocked)
      ensures outcome.Opened? ==> appData == outcome.data && masterKey == old(masterKey) && unlocked == old(unlocked)
      ensures outcome.Rejected? ==> appData == old(appData) && masterKey == None && !unlocked
      ensures old(SessionConsistent()) ==> SessionConsistent()
    {
      if !Stored(storage, BlobSlot) {
        appData := DefaultData;
        return Fresh;
      }
      var decrypted := Decrypt(storage, storage[BlobSlot], masterKey, cipher);
      var parsed := if decrypted.Success? then codec.parse(decrypted.value) else None;
      if parsed.None? {
        unlocked := false;
        masterKey := None;
        return Rejected;
      }
      appData := parsed.value;
      outcome := Opened(parsed.value);
    }

    /** `APP.initApp`: derive the key from a non-empty password and load; a missing blob
        slot (a first start) is then filled by a save under the new key.  A derivation
        that fails is caught before `MASTER_KEY` is assigned, so it changes nothing. */
    method InitApp(password: string, env: SaveEnv) returns (outcome: InitOutcome)
      modifies this`storage, this`appData, this`masterKey, this`unlocked
      ensures password == "" ==>
        outcome == EmptyPassword && storage == old(storage) && appData == old(appData) &&
        masterKey == old(masterKey) && unlocked == old(unlocked)
      ensures password != "" && deriveKey(password).None? ==>
        outcome == KeyUnavailable && storage == old(storage) && appData == old(appData) &&
        masterKey == old(masterKey) && unlocked == old(unlocked)
      ensures password != "" && deriveKey(password).Some? ==>
        var key := deriveKey(password).value;
        var loaded := Load(old(storage), Some(key), cipher, codec);
        if loaded.Rejected? then
          outcome == WrongPassword && storage == old(storage) && appData == old(appData) &&
          masterKey == None && !unlocked
        else
          var data := if loaded.Opened? then loaded.data else DefaultData;
          masterKey == Some(key) && unlocked &&
          if BlobSlot in old(storage) then
            outcome == Unlocked(None) && storage == old(storage) && appData == data
          else
            var saving := Save(old(storage), Some(key), data, env, cipher, codec);
            outcome == Unlocked(Some(saving.outcome)) && storage == saving.slots && appData == saving.data
      ensures old(SessionConsistent()) ==> SessionConsistent()
    {
      if password == "" {
        return EmptyPassword;
      }
      var derived := deriveKey(password);
      if derived.None? {
        return KeyUnavailable;
      }
      masterKey := derived;
      var loaded := LoadData();
      if loaded.Rejected? {
        return WrongPassword;
      }
      var firstSave := None;
      if BlobSlot !in storage {
        var saved := SaveData(env);
        firstSave := Some(saved);
      }
      unlocked := true;
      outcome := Unlocked(firstSave);
    }

    /** The mood slider's `input` listener: every move of the slider stores its value in
        `APP_DATA.mood` at once (the label shown beside it is page text only). */
    method MoodInput(value: int)
      modifies this`appData
      ensures appData == old(appData).(mood := value)
    {
      appData := appData.(mood := value);
    }

    /** `TODO.add`: a text that is empty after trimming is ignored; otherwise one undone
        task with the trimmed text is appended, the page re-rendered and the state saved,
        so the saved notes and mood are the held ones (`Rendered`). */
    method Add(rawText: string, isRecurring: bool, id: int, env: SaveEnv)
      modifies this`storage, this`appData
      ensures appData.notes == old(appData.notes) && appData.mood == old(appData.mood)
      ensures Trim(rawText) == "" ==> storage == old(storage) && appData == old(appData)
      ensures Trim(rawText) != "" ==>
        && appData.todos == old(appData.todos) + [Task(id, Trim(rawText), false, isRecurring)]
        && var saving := Save(old(storage), masterKey, old(appData).(todos := appData.todos), Rendered(env, old(appData)), cipher, codec);
           storage == saving.slots && appData == saving.data
    {
      var text := Trim(rawText);
      if text == "" {
        return;
      }
      appData := appData.(todos := appData.todos + [Task(id, text, false, isRecurring)]);
      var _ := SaveData(Rendered(env, appData));
    }

    /** `TODO.toggleDone`: flip the first task with `id` in place, respawn a recurring
        task that became done, re-render and save; an unknown id changes nothing and saves
        nothing. */
    method ToggleDone(id: int, newId: int, env: SaveEnv)
      modifies this`storage, this`appData
      ensures appData.notes == old(appData.notes) && appData.mood == old(appData.mood)
      ensures FirstWith(old(appData.todos), id).None? ==> storage == old(storage) && appData == old(appData)
      ensures FirstWith(old(appData.todos), id).Some? ==>
        && appData.todos == Toggled(old(appData.todos), id, newId)
        && var saving := Save(old(storage), masterKey, old(appData).(todos := appData.todos), Rendered(env, old(appData)), cipher, codec);
           storage == saving.slots && appData == saving.data
    {
      var found := FindTask(appData.todos, id);
      if found.None? {
        return;
      }
      var i := found.value;
      var todos := appData.todos;
      var task := todos[i].(done := !todos[i].done);
      todos := todos[i := task];
      if task.done && task.isRecurring {
        todos := todos + [Task(newId, task.text, false, true)];
      }
      appData := appData.(todos := todos);
      var _ := SaveData(Rendered(env, appData));
    }

    /** `TODO.deleteTask`: drop every task with `id`, keep the rest in order, re-render
        and save. */
    method DeleteTask(id: int, env: SaveEnv)
      modifies this`storage, this`appData
      ensures appData.notes == old(appData.notes) && appData.mood == old(appData.mood)
      ensures appData.todos == Without(old(appData.todos), id)
      ensures var saving := Save(old(storage), masterKey, old(appData).(todos := appData.todos), Rendered(env, old(appData)), cipher, codec);
        storage == saving.slots && appData == saving.data
    {
      appData := appData.(todos := Without(appData.todos, id));
      var _ := SaveData(Rendered(env, appData));
    }

    /** The time the stopwatch stands for at `now`: counted from `startTime` while it
        runs, the last recorded `elapsedTime` while it is stopped. */
    function Reading(now: int): int
      reads this
    {
      if isRunning then now - startTime else elapsedTime
    }

    /** `TIMER.startStop`.  Resuming back-dates `startTime` so that the reading goes on
        from the recorded elapsed time; stopping keeps `elapsedTime` as the last tick
        recorded it, which can be up to one tick behind `now`. */
    method StartStop(now: int)
      modifies this`startTime, this`isRunning
      ensures isRunning == !old(isRunning) && elapsedTime == old(elapsedTime)
      ensures !old(isRunning) ==> startTime == now - old(elapsedTime) && Reading(now) == old(elapsedTime)
      ensures old(isRunning) ==> startTime == old(startTime) && Reading(now) == old(elapsedTime)
    {
      if !isRunning {
        startTime := now - elapsedTime;
        isRunning := true;
      } else {
        isRunning := false;
      }
    }

    /** `TIMER.updateDisplay`, one tick: record the elapsed time and return the text shown. */
    method UpdateDisplay(now: int) returns (display: string)
      modifies this`elapsedTime
      ensures elapsedTime == now - startTime
      ensures isRunning ==> Reading(now) == old(Reading(now))
      ensures elapsedTime >= 0 ==> ParseClock(display) == Some(elapsedTime / 1000)
      ensures display == FormatClock(elapsedTime)
    {
      elapsedTime := now - startTime;
      display := FormatClock(elapsedTime);
      if elapsedTime >= 0 {
        ClockRoundTrip(elapsedTime);
      }
    }

    /** `TIMER.saveSession`: with no elapsed time or an empty title nothing happens;
        otherwise the session is logged with the elapsed time, the stopwatch is reset
        and stopped, the page re-rendered and the state saved. */
    method SaveSession(rawName: string, env: SaveEnv)
      modifies this`storage, this`appData, this`elapsedTime, this`isRunning
      ensures appData.notes == old(appData.notes) && appData.mood == old(appData.mood)
      ensures startTime == old(startTime)
      ensures old(elapsedTime) == 0 || Trim(rawName) == "" ==>
        storage == old(storage) && appData == old(appData) &&
        elapsedTime == old(elapsedTime) && isRunning == old(isRunning)
      ensures old(elapsedTime) != 0 && Trim(rawName) != "" ==>
        && appData.sessions == old(appData.sessions) + [Session(Trim(rawName), old(elapsedTime))]
        && elapsedTime == 0 && !isRunning
        && var saving := Save(old(storage), masterKey, old(appData).(sessions := appData.sessions), Rendered(env, old(appData)), cipher, codec);
           storage == saving.slots && appData == saving.data
    {
      if elapsedTime == 0 {
        return;
      }
      var name := Trim(rawName);
      if name == "" {
        return;
      }
      appData := appData.(sessions := appData.sessions + [Session(name, elapsedTime)]);
      elapsedTime := 0;
      isRunning := false;
      var _ := SaveData(Rendered(env, appData));
    }
  }

  /** A first start on empty storage, one added task, and a reload of the page with the
      same password: the second session opens exactly the state the first one saved. */
  method ReloadScenario(cipher: Cipher, codec: Codec, deriveKey: string -> Option<Key>, password: string,
                        text: string, id: int, firstEnv: SaveEnv, addEnv: SaveEnv, reloadEnv: SaveEnv)
      returns (saved: AppData, reloaded: AppData)
    requires CipherLaw(cipher) && CodecLaw(codec)
    requires password != "" && deriveKey(password).Some? && Trim(text) != ""
    requires firstEnv.ivWriteOk && firstEnv.blobWriteOk && addEnv.ivWriteOk && addEnv.blobWriteOk
    ensures reloaded == saved
    ensures saved.todos == [Task(id, Trim(text), false, false)]
  {
    var first := new Planner(cipher, codec, deriveKey, map[]);
    var firstStart := first.InitApp(password, firstEnv);
    ghost var beforeAdd, dataBeforeAdd := first.storage, first.appData;
    first.Add(text, false, id, addEnv);
    LoadAfterSave(beforeAdd, deriveKey(password).value, dataBeforeAdd.(todos := first.appData.todos),
                  Rendered(addEnv, dataBeforeAdd), cipher, codec);
    saved := first.appData;
    var second := new Planner(cipher, codec, deriveKey, first.storage);
    var reopened := second.InitApp(password, reloadEnv);
    reloaded := second.appData;
  }
}
