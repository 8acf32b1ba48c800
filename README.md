# Privacy planner: sealed local store, to-do list and stopwatch

The planner is a single-page browser application (`app.js`). It keeps a to-do list, a log of
timed work sessions, free-text notes and a mood value, and stores all of it in the browser's
`localStorage`, encrypted under a key derived from a master password. Storage has two slots.
`PrivacyPlannerData` holds the base64 AES-GCM ciphertext of the JSON state.
`PrivacyPlannerIV` holds the base64 IV of the most recent encryption.

This project models that behaviour in Dafny:

- `Base64`: standard base64 (section 4 of RFC 4648), which `btoa`/`atob` compute over
  one-byte-per-character strings. `Encode` is exactly `btoa`'s output. The decoder is strict: it agrees with `atob` on every text `Encode` produces, and both round trips are proved.
- `Text`: `trim`, `String(n)`, `padStart(2, '0')`, and the parsing and splitting used to say
  what a formatted text means.
- `Duration`: the `hh:mm:ss` stopwatch display, the `mm:ss` session-log entries, and the
  "last five, newest first" log view.
- `Todo`: finding, toggling and filtering tasks.
- `Primitives`: AES-GCM, PBKDF2 and JSON as function values, with the laws they obey
  (`CipherLaw`, `CodecLaw`). A small lawful cipher shows that `CipherLaw` can be met.
- `SealedStore`: `encrypt`/`decrypt`, `saveData` and `loadData` as functions of the two slots.
  It also proves the round trip and the ordering hazard. The hazard: the IV slot is written
  before the blob slot, so a failed blob write leaves a new IV beside an old blob, and the
  stored data can be lost.
- `Planner`: the class `Planner` holds the storage, the master key, the application state and
  the stopwatch. Its methods do the source's steps in order, and each one is specified by the
  functions above.

The browser's inputs are parameters:

- the password, the page's notes, mood and titles, and the `confirm` answer;
- the random IV and `Date.now()`;
- whether each storage write succeeds (`SaveEnv`).

Where JavaScript semantics matter:

- A slot holding the empty string counts as missing for the `!x` checks. For the initial save
  in `initApp`, only a slot that is absent (`=== null`) counts.
- The to-do and session operations re-render the page before saving. Rendering writes the held notes and mood back into the page, which `saveData` then reads (`Planner.Rendered`). So these saves keep the held notes and mood, and notes typed since the last render are overwritten. The held mood is always the slider's value, because every slider move stores it at once (`Planner.Planner.MoodInput`).
- `Math.floor(x / y)` with positive `y` is Dafny's `/`. JavaScript's truncating `%` is written
  out as `Duration.JsRem`, so negative elapsed times, from a clock that goes backwards, are
  modelled as the source computes them.

## Model

| member | source | states |
|---|---|---|
| Base64.Encode | app.js:36-39 | encoding `n` bytes gives `4 * ceil(n / 3)` characters, so a 12-byte IV is stored as 16 characters |
| Base64.DecodeEncode | app.js:36-49 | decoding the encoding of any byte sequence gives back exactly those bytes (the IV and ciphertext conversions lose nothing) |
| Base64.EncodeDecode | app.js:46-49 | any text the strict decoder accepts is the canonical encoding of what it decodes to, so decoding is one-to-one |
| Base64.EncodeInjective | app.js:36-39 | different byte sequences have different encodings |
| Text.Trim | app.js:169 | the result is the input with its leading and trailing whitespace removed: only whitespace is dropped on either side, the result neither starts nor ends with whitespace, and it is empty exactly when the input is all whitespace |
| Text.ParsePaddedDecimal | app.js:250-252 | reading a zero-padded decimal back gives the number |
| Duration.ClockFields | app.js:249-252 | for a non-negative duration, minutes and seconds are below 60 and hours, minutes and seconds add back up to the whole seconds |
| Duration.ClockRoundTrip | app.js:249-253 | for a non-negative elapsed time, the stopwatch text `hh:mm:ss` reads back as exactly the elapsed whole seconds |
| Duration.LogFields | app.js:145-147 | for a non-negative duration the seconds are below 60 and minutes and seconds add back up to the whole seconds; minutes are not capped |
| Duration.LogRoundTrip | app.js:145-148 | for a non-negative duration, the session-log text `mm:ss` reads back as exactly the session's whole seconds |
| Duration.RecentSessions | app.js:144 | `slice(-5).reverse()` has `min(5, n)` entries, and entry `i` is the `i`-th newest session |
| Duration.SessionLog | app.js:144-149 | the log shows one line per recent session, newest first, each naming the session and its duration |
| Todo.FirstWith | app.js:187 | the index found holds the id and no earlier task does; no index means no task has the id |
| Todo.FindTask | app.js:187 | the linear search returns the same first index as `FirstWith` |
| Todo.Toggled | app.js:186-201 | an unknown id changes nothing; otherwise only the first task with the id has `done` flipped, and exactly when it becomes done and is recurring one task is appended with the same text, not done, recurring, carrying the new id |
| Todo.Without | app.js:209 | a task is kept exactly when it is in the list and has another id; without that id the list is unchanged |
| Todo.WithoutConcat | app.js:209 | the filter distributes over concatenation, so surviving tasks keep their order |
| Todo.WithoutCount | app.js:209 | a task without the id occurs as often after the filter as before; a task with the id does not occur at all |
| SealedStore.Decrypt | app.js:42-55 | fails with the missing-IV error exactly when no IV is stored, before any cipher call; the call succeeds exactly when the IV and ciphertext decode, a key is held and the cipher opens them, and then it returns the opened plaintext |
| SealedStore.Load | app.js:75-95 | "nothing stored" exactly when the blob slot is empty; the state is opened exactly when decryption succeeds and the plaintext parses, and the opened state is that parse; a blob with no IV is rejected |
| SealedStore.Save | app.js:59-72 | no key means no change; otherwise notes and mood are adopted; success exactly when both writes succeed, and then the two slots hold one encryption's IV and ciphertext and no other slot changes; a failed blob write leaves only the new IV written; a failed IV write leaves storage unchanged |
| SealedStore.DecryptRoundTrip | app.js:29-54 | after `encrypt` has stored its IV, decrypting its ciphertext with the same key gives the plaintext |
| SealedStore.LoadAfterSave | app.js:59-95 | a successful save followed by a load with the same key opens exactly the saved state |
| SealedStore.FailedBlobWriteSplitsPair | app.js:59-72 | the IV is written (line 37) before the blob (line 67), so after a failed blob write the old blob sits beside a new IV; the slots are no longer the pair the old encryption wrote, and decryption opens the old ciphertext under the new IV |
| SealedStore.FailedSaveRejectsNextLoad | app.js:59-95 | for every lawful cipher that refuses the old ciphertext under the new IV, a store holding an intact pair is rejected at the next load after one save whose blob write failed |
| SealedStore.FailedSaveCanLoseStoredData | app.js:59-95 | with the witness cipher, which is lawful and rejects a mismatched IV, a store that loads its data loads nothing after one save whose blob write failed |
| Planner.Planner.constructor | app.js:5-11 | a page load: no key, default data, locked, the stopwatch at zero and stopped, storage as found; the screen is unlocked exactly while a key is held (`SessionConsistent`) |
| Planner.Planner.Encrypt | app.js:29-40 | writes exactly the IV slot and returns the base64 ciphertext; under the cipher law that ciphertext decrypts to the plaintext; a failed IV write stores nothing |
| Planner.Planner.SaveData | app.js:59-73 | the new storage, state and outcome are those of `Save` |
| Planner.Planner.LoadData | app.js:75-96 | the outcome is `Load`; defaults or the opened data are adopted and the key kept; on rejection the key is dropped, the state kept and the password screen shown; it keeps `SessionConsistent` |
| Planner.Planner.InitApp | app.js:98-123 | an empty password or a failed key derivation changes nothing; a rejected load leaves the key dropped and the screen locked; otherwise the key is held, the screen unlocked, and for an absent blob slot a save of the loaded state is attempted, whose outcome is reported; it keeps `SessionConsistent` |
| Planner.Planner.MoodInput | app.js:215-221 | a slider move sets the held mood to the slider's value and changes nothing else |
| Planner.Planner.Add | app.js:167-184 | a text that is empty after trimming changes nothing; otherwise exactly one undone task with the trimmed text is appended after the existing ones, and the result is saved; the saved notes and mood are the held ones, which rendering has just written back into the page |
| Planner.Planner.ToggleDone | app.js:186-206 | an unknown id changes nothing and saves nothing; otherwise the list becomes `Toggled` and is saved with the held notes and mood |
| Planner.Planner.DeleteTask | app.js:208-212 | the list becomes `Without` the id and is saved with the held notes and mood |
| Planner.Planner.StartStop | app.js:234-245 | flips the running flag; resuming sets `startTime = now - elapsedTime`, so the reading goes on from the recorded elapsed time |
| Planner.Planner.UpdateDisplay | app.js:247-254 | records `now - startTime` as elapsed time, without changing the running reading, and shows `FormatClock` of it, which reads back as the elapsed whole seconds when the elapsed time is non-negative |
| Planner.Planner.SaveSession | app.js:256-277 | with no elapsed time or an empty trimmed title nothing changes; otherwise one session with the title and elapsed time is appended, the stopwatch is reset and stopped, and the state is saved with the held notes and mood |
| Planner.ReloadScenario | app.js:98-184 | first start, one added task, then a reload with the same password opens exactly the saved state, which holds that one task |

## Left out

- Key derivation (PBKDF2 with fixed salt and iteration count, app.js:18-27) is the parameter `deriveKey`, a function of the password only. Its rejection is `None`; `initApp` then catches it (app.js:118-119) with nothing changed.
- AES-GCM is the parameter `cipher`. The only assumptions are `CipherLaw`: opening a sealed text with the same key and IV gives the plaintext, and a sealed text is 16 bytes longer than the plaintext. Wrong-key rejection and tamper detection are not assumed.
- `crypto.subtle.encrypt` never fails in the model (`seal` is total).
- JSON with UTF-8 (`JSON.stringify`, `JSON.parse`, `TextEncoder`, `TextDecoder`, app.js:30,53,66,86) is the parameter `codec`, with a parse-after-serialize law.
- `atob` also accepts whitespace, missing padding and non-zero trailing bits (it decodes `QR==` to one byte). The model's decoder accepts only canonical padded base64, which is all the planner itself ever stores; a hand-edited slot that only `atob` accepts is rejected by the model.
- A stack overflow in `String.fromCharCode.apply` on a very large ciphertext (app.js:39) is not modelled separately. It ends the save exactly as a failed blob write does, because the IV has already been written.
- The mood slider value is a string in the source (app.js:63, 220). The model stores it as an integer.
- The mood label the slider listener shows (app.js:217-219), `toggleMode` (app.js:125-130), and the HTML that `renderAll` builds (app.js:132-159) are left out. Only the session-log texts and the log view are modelled. `alert`, `confirm` and DOM reads are parameters or outcomes.
- `setInterval`, `clearInterval`, `setTimeout` and the interval handle are left out. Each stopwatch tick is one `UpdateDisplay` call.
- The `beforeunload` autosave (app.js:284-288) is left out. It is one more `SaveData` call when a key is held.
- The shared mutable `ALGORITHM.iv` (app.js:3, 32, 47) and overlapping asynchronous saves are left out. All operations are sequential, and `saveData` calls that are not awaited are taken as completing in order.
- The unused `nextDueDate` computation (app.js:192-193) is left out. It has no effect on state.
- The tracked-time counter text (app.js:150) is left out. It is the number of sessions.
- Numbers are exact integers in the model, while JavaScript numbers are doubles. Ids, `Date.now()` values and durations stay far below 2^53, where the two agree.
- Randomness and the clock are parameters: the IV in `SaveEnv`, task ids from `Date.now()`, and `now` for the stopwatch.
