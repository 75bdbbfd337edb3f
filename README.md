# AudiSam core in Dafny

AudiSam is a set of web pages for auditory training, plus a Google Tag Manager consent template. This project models the deterministic logic inside the pages' DOM and Web Audio glue, and proves properties of it:

- **`Termly` (termly.dfy)** is the consent-mode tag template:
  - `splitInput` on comma lists;
  - the regional default commands built by `parseCommandData` and `getRegionalDefaultConsents`;
  - the Termly-to-Google consent mapping (`convertValue`, `convertConsent`, `GTM_TO_TERMLY`);
  - the left-to-right `merge` and `getDefaultConsents`;
  - the event dispatch in `main`, with `saveConsentState` choosing its sink.

  Calls into the tag-manager sandbox are not made. They are returned, in order, as a list of `Effect` values.
- **`ExerciciosTons` (exercicios_tons.dfy)** is the tone-sequence page:
  - `generateFrequencyList`, with its 50-try rejection loop and fallback;
  - the four answer lists, with the correct list planted at a random button;
  - the `isPlaying`-guarded `playSequence` coroutine;
  - the answer buttons;
  - Averiguar's `JSON.stringify` comparison.
- **`ExerciciosResolucaoTemporal` (exercicios_resolucao_temporal.dfy)** is the tone-counting page:
  - the run of 10 low and 2–6 high tones, and its shuffle;
  - the playback coroutine with its `isPlaying` / `isPaused` / `isStopped` flags;
  - `togglePlayback`, `stopPlayback` and the `btnPause` toggle;
  - the `changePause` speed table;
  - the 1..6 answer filter and `checkAnswer`.
- **`ExerciciosTonsUnicos` (exercicios_tons_unicos.dfy)** is the single-tone page:
  - the loop form of `isFrequencyValid`;
  - the distractor loop of `setupExercise`, where each distractor differs from the correct frequency and keeps the distance, with the `correct ± distance` fallback;
  - Averiguar, which clears the pending timers and then compares frequencies.
- **`Tones` (tones.dfy)** holds what the three pages share: the `Math.random` draw, `getRandomFrequency`, the `every` form of `isFrequencyValid`, and the button ids.
- **`Js` (js.dfy)** holds the JavaScript built-ins the core relies on:
  - `undefined` and the `x || d` numeric default;
  - `split` / `join` / `trim`;
  - integer `toString`;
  - `JSON.stringify` on integer arrays.

**Randomness** is an input. A `Draws` value is the stream of `Math.random()` results. Each result is a `Fraction` `u`, standing for `u / 2^53`. A cursor (`start`, `next`) says which draws an operation used. So the 50-attempt bounds and the fallbacks are stated draw by draw. Each playback coroutine is a class: one `Step` call is one resumption after an `await`, and the click handlers are methods on the same object.

Behaviour of the code worth knowing:

- **Range.** `getRandomFrequency` yields `[min, max)` when `max > min`. The fallbacks may fall outside that range altogether (`GetRandomFrequency`, `DrawSlotOutcome`, `FallbackDistractor`).
- **Tone-sequence check.** Averiguar compares `JSON.stringify` texts, so a distractor list equal to the correct list is also reported correct (`SequenceExercise.Averiguar` states both facts).
- **Single-tone check.** On the single-tone page the answer is correct exactly at the correct index, because every distractor differs from the correct frequency (`ButtonListCorrect`, `SingleToneExercise.Averiguar`).
- **Key named `region`.** In `parseCommandData`, a consent type literally named `region` in the granted or denied list overwrites the region list. The region property is proved under that exclusion (`CommandEntriesRegion`).

## Model

| member | source | states |
|---|---|---|
| Js.OrDefault | public/assets/js/exercicios_tons.js:52-53 | `setting \|\| fallback` on a number is the fallback exactly for undefined, 0, or the fallback itself; otherwise it is the setting |
| Js.Join | public/assets/js/termly.js:263 | `join` with a one-character separator; `Split` inverts it (`Split`, `SplitJoin`, `JoinInjective`) |
| Js.Split | public/assets/js/termly.js:263 | `split(',')` yields at least one piece, no piece holds the separator, and joining the pieces gives the input back |
| Js.SplitJoin | public/assets/js/termly.js:263 | splitting the join of separator-free pieces gives those pieces back (split is the inverse of join) |
| Js.Trim | public/assets/js/termly.js:264 | `trim()` leaves no whitespace at either end |
| Js.TrimStartDropsWhitespace | public/assets/js/termly.js:264 | what is cut from the front is whitespace |
| Js.TrimEndDropsWhitespace | public/assets/js/termly.js:264 | what is cut from the back is whitespace |
| Js.TrimEmpty | public/assets/js/termly.js:264-265 | the trimmed item is empty (and so dropped by the filter) exactly when the piece is all whitespace |
| Js.TrimKeepsOut | public/assets/js/termly.js:264 | trimming adds no character: one absent from the input is absent from the result |
| Js.JoinInjective | public/assets/js/exercicios_tons.js:218 | joining non-empty, separator-free pieces loses nothing: equal joins come from equal lists |
| Js.DecimalRoundTrip | public/assets/js/exercicios_tons.js:218 | reading back the decimal text of a number gives the number |
| Js.IntToDecimal | public/assets/js/exercicios_tons.js:218 | integer `toString` is non-empty, comma-free and starts with `-` exactly for negatives |
| Js.IntToDecimalInjective | public/assets/js/exercicios_tons.js:218 | distinct integers have distinct `toString` text |
| Js.Stringify | public/assets/js/exercicios_tons.js:218 | the JSON text of an array is bracketed |
| Js.StringifyInjective | public/assets/js/exercicios_tons.js:218 | two integer arrays have the same `JSON.stringify` text exactly when they are equal element by element, in order |
| Tones.ScaleDraw | public/assets/js/exercicios_tons.js:54 | `Math.floor(Math.random() * n)` lies in `[0, n)` for `n > 0`, is 0 for `n = 0` and lies in `[n, 0]` for `n < 0` |
| Tones.GetRandomFrequency | public/assets/js/exercicios_tons.js:51-57 | the frequency lies in `[min, max)` when `max > min`, equals `min` when they are equal, and lies in `[max, min]` otherwise, with the `\|\| 3000` / `\|\| 8000` defaults |
| Tones.MinFrequency | public/assets/js/exercicios_tons.js:52 | `window.MIN_FREQUENCY \|\| 3000`; its range facts are stated by `GetRandomFrequency` |
| Tones.MaxFrequency | public/assets/js/exercicios_tons.js:53 | `window.MAX_FREQUENCY \|\| 8000`; its range facts are stated by `GetRandomFrequency` |
| Tones.IsFrequencyValid | public/assets/js/exercicios_tons.js:60-62 | the test always passes when `minDistance <= 0` |
| Tones.IsFrequencyValidMeans | public/assets/js/exercicios_tons.js:60-62 | the `every` test holds exactly when every listed frequency is at least `minDistance` from the candidate, so it holds vacuously for an empty list |
| Tones.ButtonIdInjective | public/assets/js/exercicios_tons.js:189-190 | distinct buttons have distinct ids, and equal ids mean the same button |
| Tones.ButtonId | public/assets/js/exercicios_tons.js:189-190 | the id of answer button `i` is `btnSound` followed by the digit of `i` |
| Termly.TrimAndDropSound | public/assets/js/termly.js:264-265 | every kept item is a non-empty trimmed piece, and there are no more items than pieces |
| Termly.TrimAndDropComplete | public/assets/js/termly.js:264-265 | every piece whose trimmed form is non-empty is kept |
| Termly.TrimAndDrop | public/assets/js/termly.js:264-265 | the `map(trim)` / `filter(length)` chain; what it keeps is stated by `TrimAndDropSound`, `TrimAndDropComplete` and `TrimAndDropClean` |
| Termly.TrimAndDropKeeps | public/assets/js/termly.js:264-265 | the items kept are exactly the non-empty trimmed pieces; there are no more items than pieces |
| Termly.TrimAndDropClean | public/assets/js/termly.js:263-265 | trimming comma-free pieces and dropping the empty ones leaves non-empty, comma-free items with no whitespace at either end |
| Termly.SplitInput | public/assets/js/termly.js:262-266 | every item of `splitInput` is non-empty, comma-free and trimmed |
| Termly.SplitInputPieces | public/assets/js/termly.js:262-266 | `splitInput` of comma-joined pieces is those pieces in order, each trimmed, with the empty ones removed |
| Termly.CommandEntries | public/assets/js/termly.js:240-260 | the command object key by key (denied over granted over region); its keys and values are stated by `CommandEntriesRegion`, `CommandEntriesConsents` and `CommandEntriesKeys` |
| Termly.AssignAll | public/assets/js/termly.js:249-257 | one `forEach` sets every listed key to its value and leaves the other keys as they were |
| Termly.AssignEntries | public/assets/js/termly.js:243-259 | the in-place assignments (region, then granted, then denied) build exactly the command object `CommandEntries` describes key by key |
| Termly.ParseCommandData | public/assets/js/termly.js:240-260 | `parseCommandData` returns the command object of the three split fields |
| Termly.CommandEntriesRegion | public/assets/js/termly.js:241-247 | `region` is a key exactly when the region list is non-empty, and then holds that list (no consent type being named `region`) |
| Termly.CommandEntriesConsents | public/assets/js/termly.js:249-257 | every listed consent type gets an entry; one listed as denied is `'denied'` even if also granted, otherwise `'granted'` |
| Termly.CommandEntriesKeys | public/assets/js/termly.js:240-260 | the keys are exactly `region` (when there are regions) and the granted and denied names |
| Termly.GetRegionalDefaultConsents | public/assets/js/termly.js:136-147 | one object per regional entry; each has the entry's command keys plus `wait_for_update`, which is 500, and the other keys keep their command values |
| Termly.Truthy | public/assets/js/termly.js:199-201 | JavaScript truthiness of a value: false exactly for undefined, null, false, 0 and the empty string |
| Termly.ConvertValue | public/assets/js/termly.js:199-201 | `'granted'` exactly for a truthy input, `'denied'` exactly for a falsy one |
| Termly.ConvertedConsent | public/assets/js/termly.js:189-197 | exactly the nine `GTM_TO_TERMLY` keys, each `'granted'` or `'denied'`; `ad_storage`, `ad_personalization` and `ad_user_data` are always equal |
| Termly.ConvertedConsentFollowsCategory | public/assets/js/termly.js:189-197 | a converted value depends only on the Termly category its key is mapped to |
| Termly.ConvertEntries | public/assets/js/termly.js:189-197 | the loop over given table keys gives each exactly its converted Termly category, and no other key |
| Termly.ConvertConsent | public/assets/js/termly.js:189-197 | the `forEachEntry` loop over the table builds exactly `ConvertedConsent` |
| Termly.Overlay | public/assets/js/termly.js:219-229 | the arguments laid over one another left to right; its keys and values are stated by `OverlayKeys` and `OverlayLastWins` |
| Termly.OverlayKeys | public/assets/js/termly.js:219-229 | the merged object's keys are the union of the arguments' keys |
| Termly.OverlayLastWins | public/assets/js/termly.js:219-229 | a key takes its value from the last argument that has it |
| Termly.Merge | public/assets/js/termly.js:219-229 | the nested copy loops return the arguments overlaid left to right |
| Termly.DefaultConsentConfig | public/assets/js/termly.js:43-53 | the default config object; its keys and entries are stated by `DefaultConsentKeys` and `DefaultConsentEntries` |
| Termly.DefaultConsentKeys | public/assets/js/termly.js:43-53 | the default config has every table key except social and unclassified storage, plus `wait_for_update` |
| Termly.DefaultConsentEntries | public/assets/js/termly.js:43-53 | the three ad keys all take the `ad_storage` field; `wait_for_update` takes the configured delay |
| Termly.StoredConsents | public/assets/js/termly.js:176-178 | the parsed localStorage item, `{}` when it is missing |
| Termly.DefaultConsents | public/assets/js/termly.js:175-179 | the stored consents merged over the default config |
| Termly.GetDefaultConsents | public/assets/js/termly.js:175-179 | the result is `DefaultConsents`: it has the default and the stored keys; a stored value wins, otherwise the default value stays |
| Termly.SaveConsentState | public/assets/js/termly.js:203-209 | the state is stored under the localStorage key, then handed to the default sink exactly when `action === IS_DEFAULT_STATE`, and to the update sink otherwise |
| Termly.SelectHandler | public/assets/js/termly.js:64 | `gtm.init_consent` and `userPrefUpdate` select their handlers; any other event selects `handleForeignEvent` |
| Termly.HandleInitConsent | public/assets/js/termly.js:119-134 | a default command per regional entry, in order, then the merged default consents stored under the localStorage key and set as the default state; the result is true |
| Termly.HandleUserPrefUpdate | public/assets/js/termly.js:149-167 | fails with no effect when Termly returns nothing; otherwise stores the converted state and updates consent with it |
| Termly.RunTemplate | public/assets/js/termly.js:56-77 | the failure callback alone when the handler fails; otherwise the handler's effects, then the completion event and the success callback. That is: for `gtm.init_consent` the regional commands, the stored and default-set merged defaults, then completion; for a successful `userPrefUpdate` the stored and updated converted state, then completion; for a foreign event completion alone |
| ExerciciosTons.DrawSlot | public/assets/js/exercicios_tons.js:104-112 | the `do…while` retry of one slot as a function of the draws; its outcome is stated by `DrawSlotOutcome`, `DrawSlotDraws` and `DrawSlotKept` |
| ExerciciosTons.DrawSlotOutcome | public/assets/js/exercicios_tons.js:104-112 | a slot uses 1 to 51 draws; every draw before the last was rejected; the last is kept (and valid) within 50 draws and is replaced by the fallback on the 51st |
| ExerciciosTons.DrawSlotDraws | public/assets/js/exercicios_tons.js:104-112 | a slot uses between one and 51 draws |
| ExerciciosTons.DrawSlotKept | public/assets/js/exercicios_tons.js:104-113 | a slot's value is far enough from the earlier and the existing values, or it is the fallback |
| ExerciciosTons.FrequencyList | public/assets/js/exercicios_tons.js:100-116 | `generateFrequencyList(count, …)` returns exactly `count` values |
| ExerciciosTons.FrequencyListDraws | public/assets/js/exercicios_tons.js:100-116 | the list uses between `count` and `51·count` draws |
| ExerciciosTons.FrequencyListSpacing | public/assets/js/exercicios_tons.js:104-113 | every value is at least `minDistance` from the values before it and from `existingFrequencies`, or is the fallback (previous value, or the configured minimum, plus `minDistance`) |
| ExerciciosTons.FrequencyListWithoutDistance | public/assets/js/exercicios_tons.js:100-116 | with `minDistance <= 0` every draw is kept: the list is the next `count` draws |
| ExerciciosTons.GenerateFrequencyList | public/assets/js/exercicios_tons.js:100-116 | the `for` / `do…while` loops with the attempt counter return exactly `FrequencyList` and the next unused draw |
| ExerciciosTons.ListLength | public/assets/js/exercicios_tons.js:162 | lists have five tones for `sequencia` and one for `tons` |
| ExerciciosTons.IsCorrectSelection | public/assets/js/exercicios_tons.js:218 | the `JSON.stringify` comparison holds exactly when the two lists are equal element by element, in order |
| ExerciciosTons.FrequencyListDrawn | public/assets/js/exercicios_tons.js:162-165 | the default-argument calls keep every draw |
| ExerciciosTons.GenerateCandidates | public/assets/js/exercicios_tons.js:165 | four candidate lists, each the next `length` draws |
| ExerciciosTons.SetupLists | public/assets/js/exercicios_tons.js:162-166 | the correct list is the first `length` draws, candidate `j` the `j+1`-th block of `length` draws, and the button index the draw after the five lists |
| ExerciciosTons.SequenceExercise.constructor | public/assets/js/exercicios_tons.js:160-168 | four lists of the exercise's length; the one at `correctButtonIndex` (the draw after the lists) is the correct list, the others their own draws |
| ExerciciosTons.SequenceExercise.PlaySequence | public/assets/js/exercicios_tons.js:119-128 | while playing it changes nothing; otherwise it raises `isPlaying` and starts the list from its first tone |
| ExerciciosTons.SequenceExercise.Step | public/assets/js/exercicios_tons.js:130-137 | each resumption plays the next tone in order, and lowers `isPlaying` after the last one |
| ExerciciosTons.SequenceExercise.RunToEnd | public/assets/js/exercicios_tons.js:130-137 | a started sequence ends with every tone played, in order, and `isPlaying` false |
| ExerciciosTons.SequenceExercise.ClickApito | public/assets/js/exercicios_tons.js:175-187 | when not playing, plays the correct list (Sequencia, `whistled` kept) or sounds its single tone (Tons, playback state kept); while playing, changes nothing; the lists, the selection, the timers and the correct button are always kept |
| ExerciciosTons.SequenceExercise.SelectButton | public/assets/js/exercicios_tons.js:189-209 | selects button `i`'s list, then plays it when nothing is playing; in Tons mode the playback state is kept, in Sequencia mode `whistled` is; while playing, the running sequence is kept; the lists, the timers and the correct button are always kept |
| ExerciciosTons.SequenceExercise.Averiguar | public/assets/js/exercicios_tons.js:212-229 | nothing when no button is selected; otherwise correct exactly when the selected list equals the correct list (always for the correct button), and the mark timer is kept under the button's id |
| ExerciciosResolucaoTemporal.Filled | public/assets/js/exercicios_resolucao_temporal.js:87 | `Array(n).fill(f)` has `n` entries, all `f` |
| ExerciciosResolucaoTemporal.FilledCounts | public/assets/js/exercicios_resolucao_temporal.js:87 | a filled array holds `n` copies of its value and nothing else |
| ExerciciosResolucaoTemporal.ToneList | public/assets/js/exercicios_resolucao_temporal.js:87 | the low tones then the high tones; its counts are stated by `ToneListCounts` |
| ExerciciosResolucaoTemporal.ToneListCounts | public/assets/js/exercicios_resolucao_temporal.js:87 | the unshuffled run has `lowCount + highCount` tones: exactly `lowCount` low ones, `highCount` high ones and no other |
| ExerciciosResolucaoTemporal.Shuffle | public/assets/js/exercicios_resolucao_temporal.js:88 | the random-comparator sort only reorders the array (same multiset) |
| ExerciciosResolucaoTemporal.BuildRun | public/assets/js/exercicios_resolucao_temporal.js:87-88 | the shuffled run is a permutation of the filled low and high tones |
| ExerciciosResolucaoTemporal.ShuffledCounts | public/assets/js/exercicios_resolucao_temporal.js:87-88 | a shuffled run of 400 Hz and 800 Hz tones keeps its length and both counts |
| ExerciciosResolucaoTemporal.HighTonesCount | public/assets/js/exercicios_resolucao_temporal.js:151 | `highTonesCount` lies in `[2, 6]` |
| ExerciciosResolucaoTemporal.HighTonesCountCovers | public/assets/js/exercicios_resolucao_temporal.js:151 | every count from 2 to 6 comes out of some draw |
| ExerciciosResolucaoTemporal.PauseFor | public/assets/js/exercicios_resolucao_temporal.js:192-201 | the table has a pause exactly for the levels 1 to 6, and none (undefined) otherwise |
| ExerciciosResolucaoTemporal.PauseStrictlyDecreasing | public/assets/js/exercicios_resolucao_temporal.js:193-200 | a higher level gives a strictly shorter pause, from 1000 ms at level 1 down to 100 ms at level 6 |
| ExerciciosResolucaoTemporal.ToneCountingExercise.constructor | public/assets/js/exercicios_resolucao_temporal.js:149-152 | nothing is playing, the answer is unset, the pause is 500 ms, and `highTonesCount` comes from its draw |
| ExerciciosResolucaoTemporal.ToneCountingExercise.RunFromHead | public/assets/js/exercicios_resolucao_temporal.js:92-97 | at the loop head: leave when the run is over or stopped, wait when paused, otherwise play the next tone |
| ExerciciosResolucaoTemporal.ToneCountingExercise.PlayNext | public/assets/js/exercicios_resolucao_temporal.js:97-98 | plays the next tone of the run, in order, and waits |
| ExerciciosResolucaoTemporal.ToneCountingExercise.Step | public/assets/js/exercicios_resolucao_temporal.js:92-101 | one resumption: from the head (leave when done or stopped, start polling when paused, otherwise play the next tone), or from the pause poll (keep waiting while paused, then leave if stopped); the tones played are always a prefix of the run; on leaving, `isPlaying` is false |
| ExerciciosResolucaoTemporal.ToneCountingExercise.StartRun | public/assets/js/exercicios_resolucao_temporal.js:83-90 | raises `isPlaying`, clears pause and stop, and installs the run and the expected count with nothing played yet |
| ExerciciosResolucaoTemporal.ToneCountingExercise.PlayToneSequence | public/assets/js/exercicios_resolucao_temporal.js:76-104 | a no-op while playing; otherwise clears pause and stop, builds and shuffles the run, records `correctHighTonesCount = highCount`, and plays the first tone (or ends at once on an empty run) |
| ExerciciosResolucaoTemporal.ToneCountingExercise.RunToEnd | public/assets/js/exercicios_resolucao_temporal.js:92-103 | without a pause, playback ends with `isPlaying` false, and the whole run played unless it was stopped |
| ExerciciosResolucaoTemporal.ToneCountingExercise.TogglePlayback | public/assets/js/exercicios_resolucao_temporal.js:106-121 | negates `isPaused` when the sound button exists, and otherwise changes nothing |
| ExerciciosResolucaoTemporal.ToneCountingExercise.StopPlayback | public/assets/js/exercicios_resolucao_temporal.js:123-134 | sets `isStopped` and clears `isPaused` when the sound button exists |
| ExerciciosResolucaoTemporal.ToneCountingExercise.ClickPause | public/assets/js/exercicios_resolucao_temporal.js:256-262 | negates `isPaused` only while playing |
| ExerciciosResolucaoTemporal.ToneCountingExercise.ClickSound | public/assets/js/exercicios_resolucao_temporal.js:154-162 | while playing, toggles the pause; otherwise starts a run of exactly 10 low tones and `highTonesCount` high ones, records that count as the answer, and is playing with the run's first tone sounded; while playing, only `isPaused` changes (the run, its position, the stop flag and the answer are kept) |
| ExerciciosResolucaoTemporal.ToneCountingExercise.ChangePause | public/assets/js/exercicios_resolucao_temporal.js:192-204 | the pause becomes the table's entry for the level, and nothing else changes |
| ExerciciosResolucaoTemporal.ToneCountingExercise.AnswerClick | public/assets/js/exercicios_resolucao_temporal.js:170-223 | only a count in 1..6 with a result button is checked; it is correct exactly when it equals `correctHighTonesCount`, and never before a run has started |
| ExerciciosTonsUnicos.MinDistance | public/assets/js/exercicios_tons_unicos.js:96 | `window.FREQUENCY_DISTANCE \|\| 500` is never zero, and is 500 when unset |
| ExerciciosTonsUnicos.IsFrequencyValidLoop | public/assets/js/exercicios_tons_unicos.js:25-32 | the early-return loop is false exactly when some listed frequency is closer than `minDistance`, and equals the `every` version |
| ExerciciosTonsUnicos.FallbackDistractor | public/assets/js/exercicios_tons_unicos.js:110 | the fallback is `correctFrequency - minDistance` or `correctFrequency + minDistance` |
| ExerciciosTonsUnicos.DistractorSlot | public/assets/js/exercicios_tons_unicos.js:103-113 | the `do…while` retry of one distractor as a function of the draws; its outcome is stated by `DistractorSlotOutcome`, `DistractorSlotDraws` and `DistractorSlotKept` |
| ExerciciosTonsUnicos.DistractorSlotOutcome | public/assets/js/exercicios_tons_unicos.js:103-113 | within 50 draws the last draw is kept (valid and not the correct frequency) and all earlier ones were rejected; otherwise 50 draws were rejected, a 51st discarded, and one more chooses the fallback's sign |
| ExerciciosTonsUnicos.DistractorSlotDraws | public/assets/js/exercicios_tons_unicos.js:105-111 | a distractor uses between one and 52 draws |
| ExerciciosTonsUnicos.DistractorSlotKept | public/assets/js/exercicios_tons_unicos.js:105-113 | a distractor is an accepted draw or `correctFrequency ± minDistance` |
| ExerciciosTonsUnicos.ButtonSlot | public/assets/js/exercicios_tons_unicos.js:100-114 | one iteration of the button loop: the correct frequency at the correct index, a distractor elsewhere; stated by `ButtonSlotDraws` and `ButtonSlotValue` |
| ExerciciosTonsUnicos.ButtonSlotDraws | public/assets/js/exercicios_tons_unicos.js:99-116 | the correct button uses no draw, and a distractor at most 52 |
| ExerciciosTonsUnicos.ButtonSlotValue | public/assets/js/exercicios_tons_unicos.js:99-116 | a button holds the correct frequency exactly when it is the correct button; any other holds an accepted distractor or the fallback |
| ExerciciosTonsUnicos.ButtonList | public/assets/js/exercicios_tons_unicos.js:99-116 | the loop pushes one frequency per button |
| ExerciciosTonsUnicos.ButtonListDraws | public/assets/js/exercicios_tons_unicos.js:99-116 | the four buttons use at most 52 draws each |
| ExerciciosTonsUnicos.ButtonListCorrect | public/assets/js/exercicios_tons_unicos.js:99-116 | the correct frequency is at `correctButtonIndex` and at no other button |
| ExerciciosTonsUnicos.ButtonListSpacing | public/assets/js/exercicios_tons_unicos.js:105-113 | every distractor is at least `minDistance` from all buttons pushed before it and differs from the correct frequency, or is the fallback |
| ExerciciosTonsUnicos.DrawDistractor | public/assets/js/exercicios_tons_unicos.js:103-113 | the `do…while` of one distractor yields exactly `DistractorSlot`'s value and next draw |
| ExerciciosTonsUnicos.GenerateButtonFrequencies | public/assets/js/exercicios_tons_unicos.js:99-116 | the `for` / `do…while` loops return exactly `ButtonList` for four buttons |
| ExerciciosTonsUnicos.SingleToneExercise.constructor | public/assets/js/exercicios_tons_unicos.js:88-116 | four frequencies: the correct one (first draw) at the button given by the second draw and nowhere else; no selection and no pending timers |
| ExerciciosTonsUnicos.SingleToneExercise.ClickApito | public/assets/js/exercicios_tons_unicos.js:120-124 | sounds the correct frequency |
| ExerciciosTonsUnicos.SingleToneExercise.SelectButton | public/assets/js/exercicios_tons_unicos.js:126-143 | selects button `i`'s frequency and sounds it |
| ExerciciosTonsUnicos.Pending | public/assets/js/exercicios_tons_unicos.js:147-152 | the truthy timers among the listed entries, in the order of the list; `ClearPending` is proved to cancel exactly these |
| ExerciciosTonsUnicos.ClearPending | public/assets/js/exercicios_tons_unicos.js:147-152 | over keys listed once each, the timers cancelled are the pending ones in key order, and every entry ends null |
| ExerciciosTonsUnicos.AllClearedIsNoTimers | public/assets/js/exercicios_tons_unicos.js:147-152 | with every entry null, `timeoutIds` is back to its declared initial value |
| ExerciciosTonsUnicos.SingleToneExercise.ClearTimers | public/assets/js/exercicios_tons_unicos.js:147-152 | every pending timer is cancelled, in key order, and every entry is reset to null |
| ExerciciosTonsUnicos.SingleToneExercise.Averiguar | public/assets/js/exercicios_tons_unicos.js:145-177 | after clearing the timers: nothing when no button is selected; otherwise correct exactly when the selected frequency equals the correct one, which is exactly when the correct button is selected; the new timer is kept under its id |

## Left out

- Web Audio: `AudioContext`, `initOscillator`, `playTone`, `playWhistleSound`, `keepAudioContextAlive` and its `setInterval` are platform audio calls. A sounded tone is recorded as an entry in `played`, `whistled` or `sounded`.
- Timers and durations: the 100 ms start delay, `window.DELAY`, tone lengths, `exerciseSpeed + pauseDuration`, the 100 ms pause poll and the removal of CSS marks are real time. Each `await` is one `Step`, and `setTimeout` handles are inputs (`TimerId`). `pauseDuration` is recorded but not used for timing.
- DOM and jQuery: `disableButtons`, `updateAveriguarButtonState`, class toggling and `touchstart` bindings are UI plumbing. Whether an element exists is a boolean input, and a button label after `parseInt` is an `Option<int>` (`None` for NaN).
- The shuffle's randomness: `sort(() => Math.random() - 0.5)` is modelled as an arbitrary sequence of swaps. That captures "some permutation" and claims nothing about uniformity.
- Floating point in `Math.random() * n`: the draw is exact on the 2^-53 grid and the product is floored exactly. Double rounding of the product is not modelled.
- Non-integer numbers: frequencies, `MIN_FREQUENCY`, `MAX_FREQUENCY`, `FREQUENCY_DISTANCE` and the Termly values are integers or given JavaScript values. NaN and fractional settings are not modelled.
- ExerciciosTons.GenerateFrequencyList: the fallback's `window.MIN_FREQUENCY` is the `fallbackBase` parameter. NaN from an unset global is not modelled, and the page only calls the function with distance 0, where the fallback cannot occur.
- ExerciciosTons.SequenceExercise.constructor: `exerciseType` is a parameter, though the script fixes it to `'sequencia'`.
- `getUrlParams`, `misturarBotoes` and `loadExerciseContent` (called from `changePause`) rely on URLSearchParams and a loader that is not part of this model.
- Termly sandbox calls: `initializeCMP` and `installTermlyBlocker` (`gtagSet`, `setInWindow`, `copyFromWindow`, `injectScript`) are foreign calls, as is the developer id. `createQueue('dataLayer')`, `setDefaultConsentState`, `updateConsentState`, `localStorage.setItem`, `gtmOnSuccess` and `gtmOnFailure` are returned as `Effect` values instead.
- The `localStorage` / `JSON.parse` input: the stored default consents are given as an `Option<JsObject>` (`None` for a missing item, i.e. `'{}'`). `StoreItem` carries the object rather than its JSON text. `makeNumber(data.wait_for_update)` is an integer.
- Termly.SelectHandler: an event named like an `Object.prototype` member (such as `constructor`) would find that member in `EVENT_HANDLERS`. The model sends it to `handleForeignEvent`.
- Object key order: objects are maps. The order of `Object.entries` is not modelled, except where it decides the outcome: `GTM_KEYS`, `BUTTON_IDS` and the granted-then-denied assignment.
- Termly.GetRegionalDefaultConsents: modelled on values. The in-place `defaultData.wait_for_update = 500` is a map update on the freshly built object, which nothing else shares.
- Js.IntToDecimal: numbers from 10^21 up, which `toString` writes with an exponent, are not modelled.
- All `console.*` and `consoleLog` logging.
- Strings: a Dafny `string` is a sequence of Unicode scalar values, while a JavaScript string is a sequence of UTF-16 code units, so lone surrogates cannot be expressed. `split(',')` and `trim()` act on the comma and on whitespace characters only, which are single code units, so their modelled behaviour is unaffected.
