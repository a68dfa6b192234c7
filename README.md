# kanji-reader, modelled in Dafny

kanji-reader is a browser app for children: it photographs a sign or a page, sends the photo
to Google Cloud Vision for text detection, and lists the kanji found in the text, each with a
reading taken from a small built-in table. Tapping a kanji asks Claude for a child-friendly
explanation. The two API keys are entered once on a Settings screen and kept in the browser's
`localStorage`.

This project models the logic around the network calls:

- `wrappers.dfy` (`Wrappers`): `Option` and `Result`.
- `text.dfy` (`Text`): decimal rendering of status codes and JavaScript's `trim` (ECMAScript
  WhiteSpace and LineTerminator characters).
- `types.dfy` (`Types`): the app's records (`ApiKeys`, `RecognizedKanji`), the four screens,
  what a rejected promise carries (an `Error` with a message, or any other value) and the
  `response.ok` range 200–299.
- `json.dfy` (`Json`): JSON values as `JSON.parse` produces them; JavaScript property reads
  for the field names the app reads (a `TypeError` on `null`, an object's own field or `undefined`,
  `undefined` on other values; inherited properties are not modelled) and truthiness; `String(v)`.
- `storage.dfy` (`Storage`): `saveApiKeys`, `loadApiKeys` and `hasApiKeys` over a
  `localStorage` class. It also has the exact text `JSON.stringify` writes for a key record, and
  a reader for that text that shows the round-trip hypothesis on `JSON.parse` can be met.
- `vision.dfy` (`VisionApi`): `isKanji`, the `data:image/…;base64,` prefix strip, the OCR text
  selection, the Set-based de-duplication loop, the reading table (all of its entries) and the
  outcomes of `recognizeText`.
- `claude.dfy` (`ClaudeApi`): `callClaude`'s outcomes, the two prompts, the greedy
  `/\[[\s\S]*\]/` match and the parse-or-`[]` post-processing of `extractKanjiWords`, and
  `getKanjiMeaning`.
- `app.dfy` (`AppController`): the screen controller as transitions on a state value.
  `StepAsWritten` is the transitions as the app performs them, where a list write from the
  Result screen always lands. `Step` is the corrected transitions of the "## Findings" row,
  where a write from a Result screen no longer shown is dropped. The `App` class performs the
  transitions as written in place.
- `result.dfy` (`ResultComponent`): the Result screen's recognition effect.
- `settings.dfy` (`SettingsComponent`): the Settings screen's prefill, save guard and save.

Network services and `JSON.parse` are parameters:

- A service is a function from the request's varying parts (payload and key) to either a
  decoded reply or a network failure message. A network failure becomes a `TypeError`, which
  is an `Error`.
- `JSON.parse` is a partial function `string -> Option<Json>`. The storage round trip assumes
  of it only that it reads back what `saveApiKeys` writes (`Storage.ParsesSavedRecords`).

## Model

| member | source | states |
|---|---|---|
| Text.NatToDecimal | src/services/visionApi.ts:86 | the text of a status code is a non-empty string of decimal digits, with a leading `0` only for zero |
| Text.DecimalRoundTrip | src/services/visionApi.ts:86 | the digits in an error message read back as the status code |
| Text.LeadingEnd | src/components/Settings.tsx:17 | the scan for leading whitespace stops at the first non-whitespace character, or at the end, passing only whitespace |
| Text.TrailingStart | src/components/Settings.tsx:17 | the scan for trailing whitespace stops after the last non-whitespace character, or at the lower bound, passing only whitespace |
| Text.Trim | src/components/Settings.tsx:17 | `trim`; stated by `TrimShape`, `TrimEmptyIffAllWhitespace` and `TrimIdempotent` |
| Text.TrimShape | src/components/Settings.tsx:19-20 | `trim` keeps the infix between the leading and the trailing whitespace, whose ends are not whitespace |
| Text.TrimEmptyIffAllWhitespace | src/components/Settings.tsx:26 | a trimmed text is empty exactly when the text is all whitespace |
| Text.TrimIdempotent | src/components/Settings.tsx:19-20 | trimming a trimmed key changes nothing |
| Json.GetProperty | src/services/storage.ts:14 | for the field names the app reads: a property read throws on `null`, finds a value exactly when the object has that own field, and gives `undefined` otherwise |
| Storage.StringifyApiKeys | src/services/storage.ts:6 | the `JSON.stringify` text of a key record; stated by `StoredKeysRoundTrip` and `SaveLoadRoundTrip` |
| Storage.LocalStorage.LoadApiKeys | src/services/storage.ts:9-19 | `loadApiKeys` on the stored entry; stated by `LoadFrom` and `HasApiKeys` |
| Storage.LocalStorage.SaveApiKeys | src/services/storage.ts:5-7 | the entry under `kanji-reader-api-keys` becomes the serialised record; every other entry is unchanged |
| Storage.LoadFrom | src/services/storage.ts:9-19 | a record is returned exactly when the entry exists, is non-empty, parses, and has both fields truthy; it is the parsed value, unchanged; `null` and missing or falsy fields give none |
| Storage.LocalStorage.HasApiKeys | src/services/storage.ts:21-23 | `hasApiKeys` holds exactly when the stored entry loads as a complete record |
| Storage.SaveLoadRoundTrip | src/services/storage.ts:5-19 | loading what was saved gives the record back exactly when both keys are non-empty, and each field reads as its key; otherwise nothing loads |
| Storage.FieldText | src/services/visionApi.ts:70 | `String(keys.<name>)` of a loaded record, as the request URL embeds the key passed from src/components/Result.tsx:35; stated by `SaveLoadRoundTrip` (each field of a saved record reads as its key) |
| Storage.ReadEscaped | src/services/storage.ts:6 | a JSON string literal written with `JSON.stringify`'s escapes reads back as the original string, followed by the rest of the text |
| Storage.StoredKeysRoundTrip | src/services/storage.ts:6 | the serialised record of any two keys is read back as the object with those two string fields |
| Storage.SavedRecordsParserExists | src/services/storage.ts:6-13 | a parser that reads back every saved record exists, so the round-trip hypothesis can be met |
| VisionApi.IsKanji | src/services/visionApi.ts:13-20 | `isKanji`; stated by `IsKanjiTestsCodePoint` |
| VisionApi.StripDataUriPrefix | src/services/visionApi.ts:67 | the prefix strip; stated by `StripRemovesDataUriPrefix` and `StripRemovesOnlyDataUriPrefix` |
| VisionApi.FullText | src/services/visionApi.ts:95 | the first annotation's text, or `''`; stated by `RecognitionOutcomes` (the first description's distinct kanji; no annotations or an empty annotation array gives `[]`) |
| VisionApi.ReadingOf | src/services/visionApi.ts:107 | the table reading or `？`; stated by `RecognizedEntries` |
| VisionApi.Annotate | src/services/visionApi.ts:105-108 | one entry per collected kanji, in order; stated by `RecognizedEntries` |
| VisionApi.Recognition | src/services/visionApi.ts:62-109 | what `recognizeText` resolves to or rejects with; stated by `RecognitionOutcomes` and `RecognizedEntries` |
| VisionApi.FirstCodeUnit | src/services/visionApi.ts:14 | `charCodeAt(0)` of a character is its code point in the Basic Multilingual Plane and a high surrogate above it |
| VisionApi.IsKanjiTestsCodePoint | src/services/visionApi.ts:13-20 | `isKanji` holds exactly when the code point is in 0x4E00–0x9FAF, 0x3400–0x4DBF or 0xF900–0xFAFF |
| VisionApi.StripRemovesDataUriPrefix | src/services/visionApi.ts:67 | `data:image/` + lowercase letters + `;base64,` at the start is removed, leaving the payload |
| VisionApi.StripRemovesOnlyDataUriPrefix | src/services/visionApi.ts:67 | the strip changes nothing, or removes exactly such a prefix |
| VisionApi.DistinctKanji | src/services/visionApi.ts:98-103 | the collected characters are kanji, pairwise distinct, and are exactly the kanji of the text |
| VisionApi.DistinctKanjiFirstOccurrenceOrder | src/services/visionApi.ts:98-105 | the collected kanji are in order of first occurrence in the text |
| VisionApi.CollectKanji | src/services/visionApi.ts:97-103 | the `for…of` loop that adds to the Set yields the distinct kanji in first-occurrence order |
| VisionApi.RecognizeText | src/services/visionApi.ts:62-109 | `recognizeText` resolves or rejects as the recognition outcome describes |
| VisionApi.RecognitionOutcomes | src/services/visionApi.ts:85-95 | a network failure, a non-ok status (whose digits are in the message) or an error in the first response rejects with an `Error`; a reply without annotations or with an empty annotation array resolves to `[]`; otherwise the result is the distinct kanji of the first annotation's description, annotated with readings; nothing but an `Error` is thrown |
| VisionApi.RecognizedEntries | src/services/visionApi.ts:95-108 | each entry is one kanji of the OCR text with its table reading or `？`; entries are distinct, cover every kanji of the text, and follow first occurrence |
| ClaudeApi.CallClaude | src/services/claudeApi.ts:7-30 | `callClaude`; stated by `CallClaudeOutcomes` |
| ClaudeApi.BracketMatch | src/services/claudeApi.ts:49 | the greedy match; stated by `BracketMatchIsLeftmostLongest` |
| ClaudeApi.CallClaudeOutcomes | src/services/claudeApi.ts:23-29 | a non-ok reply rejects with `Claude API エラー: ` + status digits + ` - ` + body text; an ok reply gives the first block's text, or `''` when there is no block or the first block has no text |
| ClaudeApi.ExtractPrompt | src/services/claudeApi.ts:36-44 | the prompt is the fixed instruction followed by the OCR text verbatim |
| ClaudeApi.MeaningPrompt | src/services/claudeApi.ts:64 | the meaning prompt is the fixed text with the kanji after `「`, then `」（よみ：`, then the reading, then the fixed closing request |
| ClaudeApi.GetKanjiMeaning | src/services/claudeApi.ts:59-66 | the outcome is `callClaude`'s on the meaning prompt, so errors pass through; an ok reply's text is returned unchanged |
| ClaudeApi.IndexOf | src/services/claudeApi.ts:49 | the first position of a character, or none when it does not occur |
| ClaudeApi.LastIndexOf | src/services/claudeApi.ts:49 | the last position of a character, or none when it does not occur |
| ClaudeApi.BracketMatchIsLeftmostLongest | src/services/claudeApi.ts:49 | the greedy match exists exactly when some `]` follows a `[`; it runs from the first `[` to the last `]`, and no match starts earlier or ends later |
| ClaudeApi.WordsFromReply | src/services/claudeApi.ts:49-56 | no match or a failed parse gives `[]`; otherwise the parsed value as is |
| ClaudeApi.NoBracketPairGivesEmptyList | src/services/claudeApi.ts:49-50 | a reply with no `]` after a `[` gives `[]` |
| ClaudeApi.ExtractKanjiWords | src/services/claudeApi.ts:32-57 | a failed call rejects with its error; otherwise the post-processed reply to the extraction prompt |
| AppController.StartConsistent | src/App.tsx:11-19 | the app starts consistent, on Home when keys are stored and on Settings otherwise |
| AppController.StepKeepsConsistent | src/App.tsx:21-57 | under the corrected transitions, every available handler keeps: off the result screen no image and an empty list; on it an image |
| AppController.RunKeepsConsistent | src/App.tsx:11-57 | under the corrected transitions, every state reachable through available handlers is consistent |
| AppController.CaptureShowsResult | src/App.tsx:21-24 | a capture holds the image and shows the result screen with the (empty) list unchanged; Result renders exactly when the image is non-empty |
| AppController.EmptyCaptureHasNoWayBack | src/App.tsx:46 | after an empty image no screen handler is available |
| AppController.ResultShown | src/App.tsx:46 | Result is rendered only on the result screen with a non-empty captured image; stated by `CaptureShowsResult` and `EmptyCaptureHasNoWayBack` |
| AppController.Enabled | src/App.tsx:34-58 | the handlers of the rendered screen, plus the list writer of every Result instance mounted so far (src/components/Result.tsx:26-47); used as the precondition of `StepKeepsConsistent`, `CaptureShowsResult` and `EmptyCaptureHasNoWayBack` and in `Admissible` |
| AppController.BackClearsEverything | src/App.tsx:26-30 | back, from any state, goes home with no image and an empty list |
| AppController.NavigationKeepsData | src/App.tsx:34-57 | Home's and Settings' buttons change the screen only, to camera, settings or home |
| AppController.StaleListAsWritten | src/components/Result.tsx:34-36 | with unguarded list writes, a recognition finishing after back leaves a list on Home, and the next photo's result screen starts with it |
| AppController.StaleListGuarded | src/components/Result.tsx:34-36 | with list writes tied to the shown Result screen, the same events start the next result with an empty list |
| AppController.App.constructor | src/App.tsx:11-13 | the first render is Home, no image, empty list |
| AppController.App.MountEffect | src/App.tsx:15-19 | the mount effect goes to Settings exactly when no valid keys are stored |
| AppController.App.HandleCapture | src/App.tsx:21-24 | `handleCapture` sets the image and the result screen, keeping the list |
| AppController.App.HandleBack | src/App.tsx:26-30 | `handleBack` sets home, no image, empty list |
| AppController.App.OpenCamera | src/App.tsx:36 | Home's camera button shows the camera and keeps the data |
| AppController.App.OpenSettings | src/App.tsx:37 | Home's settings button shows Settings and keeps the data |
| AppController.App.SettingsSave | src/App.tsx:56 | Settings' save always returns home |
| AppController.App.SettingsBack | src/App.tsx:57 | Settings' back is offered exactly when valid keys are stored, and returns home |
| AppController.App.SetRecognizedKanji | src/App.tsx:50 | the setter handed to Result replaces the list whatever screen is shown; it keeps the state consistent when it lands on the result screen |
| AppController.AsWrittenBreaksConsistencyOnlyByLateWrites | src/components/Result.tsx:34-36 | as written, an available handler breaks consistency exactly when it is a non-empty list write arriving off the result screen |
| AppController.Start | src/App.tsx:15-19 | the state after the mount effect; stated by `StartConsistent` |
| AppController.Step | src/App.tsx:21-57 | the corrected transitions (the Findings row's fix); stated by `StepKeepsConsistent`, `RunKeepsConsistent`, `CaptureShowsResult`, `BackClearsEverything`, `NavigationKeepsData` and `StaleListGuarded` |
| AppController.StepAsWritten | src/App.tsx:21-57 | the transitions as written; stated by `AsWrittenBreaksConsistencyOnlyByLateWrites` and `StaleListAsWritten` |
| ResultComponent.ResultView.constructor | src/components/Result.tsx:15-17 | a mounted screen is loading, with no error, showing the list it was given |
| ResultComponent.Effect | src/components/Result.tsx:20-48 | the effect run to completion; stated by `EffectOutcomes` and `EffectUsesSavedVisionKey` |
| ResultComponent.ErrorText | src/components/Result.tsx:41 | the message of a rejected `Error`, or the generic message for any other thrown value; stated by `EffectOutcomes` |
| ResultComponent.EffectOutcomes | src/components/Result.tsx:20-48 | a given list is kept with no request; missing keys give the key message; a resolved list replaces the list, with the not-found message when empty; a rejection shows the `Error`'s message; loading always ends with a non-empty list or an error set |
| ResultComponent.EffectUsesSavedVisionKey | src/components/Result.tsx:27-35 | after saving two keys, the request carries exactly the saved Vision key |
| ResultComponent.ResultView.RecognizeEffect | src/components/Result.tsx:20-48 | the effect leaves the screen in the state the effect's outcome describes; loading ends with a non-empty list or an error set |
| SettingsComponent.InitialKey | src/components/Settings.tsx:11-13 | a field is prefilled with the stored key, or `''` when none is stored |
| SettingsComponent.CanSave | src/components/Settings.tsx:26 | saving is enabled exactly when neither field is all whitespace |
| SettingsComponent.TrimmedKeys | src/components/Settings.tsx:18-21 | the record a save stores; stated by `TrimmedKeysStable`, `SavedKeysLoadBack` and `SettingsView.HandleSave` |
| SettingsComponent.TrimmedKeysStable | src/components/Settings.tsx:17-20 | the trimmed keys of a savable form are non-empty, savable, and trim to themselves |
| SettingsComponent.SavedKeysLoadBack | src/components/Settings.tsx:18-22 | after a save the stored record loads as the trimmed pair, and the reopened screen shows the trimmed keys |
| SettingsComponent.SettingsView.constructor | src/components/Settings.tsx:11-14 | the fields start as the stored keys (or empty), nothing saved |
| SettingsComponent.SettingsView.EditVisionKey | src/components/Settings.tsx:46 | typing replaces the Vision field only |
| SettingsComponent.SettingsView.EditClaudeKey | src/components/Settings.tsx:58 | typing replaces the Claude field only |
| SettingsComponent.SettingsView.HandleSave | src/components/Settings.tsx:16-24 | with a blank field nothing changes; otherwise the store's entry becomes the trimmed pair, `saved` is set and `onSave` is scheduled; the fields keep the typed text |

## Left out

- `src/components/Camera.tsx`, `src/components/Home.tsx` and `src/components/MeaningModal.tsx` are not part of this model. They are device access, drawing and rendering; the camera is taken to hand over a non-empty data URL.
- HTTP: request bodies, headers and `response.json()` are left out. A service returns the decoded reply or a network failure message. A body that fails to decode, or has no `responses`/`content` array, is not modelled.
- `JSON.parse` internals are left out; it is a parameter. Only the storage round trip assumes anything of it, namely that it reads back what `saveApiKeys` writes.
- Numbers in parsed JSON are integers, so `String(v)` of a fraction or of an exponent form is not modelled.
- Strings are sequences of Unicode scalar values. Lone surrogates, and `JSON.stringify`'s escaping of them, are not modelled.
- The reading table's linguistic correctness is not modelled; the table is carried as data.
- The 800 ms `setTimeout` before Settings' `onSave` is left out: the save's return home is one transition. A timer still pending after the user has navigated away is not modelled.
- React scheduling is left out (batching, StrictMode's double effects). The effect re-run caused by a list-length change is the effect's branch for a list that is already present.
- The selected-kanji modal state in Result is left out, as MeaningModal is.
- ResultComponent.EffectOutcomes: an `Error` with an empty message (a Vision response error whose message is empty or missing, which `new Error` turns into `''`, src/services/visionApi.ts:91-92) sets the error to `''`, which Result renders as nothing (src/components/Result.tsx:68), so the screen is blank. The contract promises an error set, not a visible one.
- `extractKanjiWords` is not called by any screen. It is modelled on its own and not combined with recognition.
- SettingsComponent.SettingsView.constructor: requires that a stored key field, when present, is a string or `null`. A record whose key is a truthy non-string (a number, say) makes Settings fail at its first `trim` (src/components/Settings.tsx:26); that failure is not modelled.
- ClaudeApi.ExtractKanjiWords: returns the parsed JSON value as is. The TypeScript cast to `RecognizedKanji[]` checks nothing, so no element shape is promised.
- Storage.ReadString: refuses `\u` escapes of surrogates. Such escapes never occur in a saved record of scalar-value strings.

## Findings

| source | as written | input that shows it | evidently intended | confidence | as-written member | corrected member |
|---|---|---|---|---|---|---|
| src/components/Result.tsx:34-36 | the recognition writes its list back with `setKanjiList` even after the Result screen has unmounted | open the camera, capture, press back before recognition finishes, let it resolve with a kanji, open the camera, capture again: Home holds a non-empty list, and the second photo's Result shows the first photo's kanji and skips recognition | a late result of an unmounted Result screen is dropped, so off the result screen the list stays empty | not executed | AppController.StaleListAsWritten | AppController.RunKeepsConsistent |
