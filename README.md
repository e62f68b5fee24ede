# Japanese study app core, modelled in Dafny

This project models the logic core of a Vue/Pinia application for studying Japanese:

- **SM-2 flashcard scheduler.** The `useSM2` composable and the `cards` store keep a card collection, the cards due at the current instant, a cursor into that due list, and an answer-shown flag. They apply the SuperMemo-2 update rule after each rating. The store also stamps `lastStudied` and counts reviews in a study session.
- **Transcription record store.** It keeps audio transcription records with their status (pending, transcribed, completed, error), the current record, two progress flags, and a history of finished transcriptions capped at 50 entries, newest first.
- **Audio file validators.** They check an audio file's MIME type against an allow-list, its size against a 50 MiB ceiling, and its duration within 1–600 s, in that order. They also format a duration as `m:ss`.
- **Hiragana tables.** There are two tables: the basic grid, which has empty cells, and the combinations grid. From them the core derives the flat list of all kana, its counts, and a lookup by character.

## Modules

| file | module | what it holds |
|---|---|---|
| `optional.dfy` | `Optional` | `Option`, standing for `null`/`undefined` |
| `importing.dfy` | `Importing` | the result both stores' import operations report |
| `seqs.dfy` | `Seqs` | `filter`, `findIndex`, `find` and `includes` as functions on sequences; order-preserving subsequences; de-duplication of an import by key |
| `jsmath.dfy` | `JsMath` | `Math.round`, `Math.floor`, and the truncating `%` on exact numbers |
| `decimal.dfy` | `Decimal` | number-to-text conversion and `padStart` |
| `sm2.dfy` | `Sm2` | the pure SM-2 rule `Reviewed`, the due list, and the composable as class `Deck` |
| `cards_store.dfy` | `CardsStore` | the store as class `Store`: card management, study sessions, import, statistics |
| `transcriptions.dfy` | `Transcriptions` | the transcription store as class `Store`, its filters and statistics |
| `audio_validation.dfy` | `AudioValidation` | the validators, the check order, the `m:ss` formatter, and class `AudioValidator` |
| `hiragana.dfy` | `Hiragana` | the two grids, `allHiragana`, `statistics`, `currentGrid`, `findHiragana` |

## Representation choices

- **Time** is an integer number of milliseconds, passed in as `now`. Every clock read inside one operation sees that single instant. Ids that the source derives from the clock are parameters.
- **Easiness** is kept in fixed-point hundredths: 2.5 is 250 and the floor 1.3 is 130. With an integer rating `q`, the source's update `0.1 - (5-q)(0.08 + (5-q)0.02)` becomes the exact integer `10 - (5-q)(8 + 2(5-q))`.
- **`Math.round(interval * easiness)`** becomes `round(interval * E / 100)`. `Math.round` rounds halves up, which is floor division of `2a + b` by `2b`.
- **A card inside the collection** is addressed by its position. The due list is a filtered view, so `currentCard` aliases the collection element at `Sm2.DuePosition`. An update of the current card updates that position.
- **Both copies of the SM-2 update** are written step by step, as the source does, and each is proved equal to the single pure rule `Sm2.Reviewed`. The store's copy additionally sets `lastStudied`; `CardsStore.StoreRuleAgrees` states what the two rules share.
- **`JSON.parse`** results are given as `Option`. `None` means parsing threw, which sends the operation to its `catch` branch.
- **A duration probe** stands in for the browser audio element. It reports either metadata with a duration (a number or `NaN`) or a load error. A probe that threw is `None`.

Two behaviours of the source are proved as stated rather than corrected:

- **The rating skips the next due card.** Rating the current card removes it from the due list, and the cursor then still advances. `Sm2.RateSkipsOverNextCard` shows that with three due cards, rating the first one leaves the cursor on the third.
- **`finishTranscription` passes the recognised text with status `transcribed`.** `updateTranscriptionStatus` copies `rawText` only on `completed`, so that text is not stored. `Transcriptions.TranscribedKeepsText` states this.

The easiness update is not restricted to ratings 0–5. In the model's exact arithmetic, a rating of 10 changes easiness by 0. The delta added before the floor is at most 0.18 for any integer rating, and only a rating of 7 reaches that (`Sm2.EasinessGrowthBounded`). A card already at the 1.3 floor or above therefore gains at most 0.18 per review, whatever the rating. A card below 1.12, which `updateCardData` or `importCards` can produce because they write easiness unchecked, gains more: the floor lifts it to 1.3 (`Sm2.ReviewGrowthBounded`).

## Model

| member | source | states |
|---|---|---|
| `Sm2.DueCardsSpec` | src/composables/useSM2.js:10-12 | The due list is the order-preserving subsequence of the cards due at `now`. Every due card is in it and nothing else is. Each card occurs in it exactly as often as in the collection if it is due, and not at all otherwise. |
| `Sm2.CurrentCard` | src/composables/useSM2.js:14-16 | The current card exists iff the cursor lies inside the due list. It is then a due card of the collection, found at the position `DuePosition` gives. |
| `Sm2.DuePosition` | src/composables/useSM2.js:35 | The `k`-th due card is the collection element at a position with exactly `k` due cards before it. This is the element `updateCard(currentCard)` changes. |
| `Sm2.RoundHundredths` | src/composables/useSM2.js:26 | `Math.round(n / 100)`: the result is within half a unit of `n / 100`, and halves round up. |
| `Sm2.EasinessDeltaTable` | src/composables/useSM2.js:29 | Ratings 5, 4, 3, 2, 1, 0 change easiness by exactly +0.10, 0, −0.14, −0.32, −0.54, −0.80. |
| `Sm2.EasinessGrowthBounded` | src/composables/useSM2.js:29 | For any integer rating, the delta added to easiness before the floor is at most 0.18. The maximum is reached only at rating 7. |
| `Sm2.ReviewGrowthBounded` | src/composables/useSM2.js:29-30 | A review leaves easiness at most 0.18 above its old value or at the 1.3 floor. A card at the floor or above gains at most 0.18; a card more than 0.18 below the floor gains more, because the floor lifts it. |
| `Sm2.FailedReviewResets` | src/composables/useSM2.js:19-21 | A rating below 3 sets repetitions to 0 and the interval to 1, whatever the prior state. |
| `Sm2.SuccessfulReviewProgresses` | src/composables/useSM2.js:22-27 | A rating of 3 or more adds one repetition. The interval becomes 1, then 6, then `round(interval * old easiness)`. |
| `Sm2.EasinessFloorKept` | src/composables/useSM2.js:29-30 | Easiness never ends below 1.3. A 4 keeps it, a 5 adds 0.1, and a rating below 4 lowers it while it is above the floor. |
| `Sm2.DueDateFollowsInterval` | src/composables/useSM2.js:31 | The due date becomes `now + interval` days. Repetitions, interval, easiness and due date are the only fields a review writes: id, texts, category, tags, creation and last-studied instants are kept. |
| `Sm2.ReviewKeepsSound` | src/composables/useSM2.js:18-32 | A review keeps a consistent card consistent, and schedules it at least one day ahead, so it is no longer due. |
| `Sm2.IntervalSequence` | src/composables/useSM2.js:22-27 | Three successful reviews of an unstudied card give intervals 1, 6, `round(6 * easiness after the second)`. |
| `Sm2.ReviewScenario` | src/composables/useSM2.js:18-32 | A new card rated 5, 5, 2 gives repetitions 1, 2, 0, intervals 1, 6, 1, and easiness 2.6, 2.7, 2.38. |
| `Sm2.RateSkipsOverNextCard` | src/composables/useSM2.js:34-43 | After the first of three due cards is rated, the due list is the other two, and the advanced cursor points at the third card. |
| `Sm2.Deck.constructor` | src/composables/useSM2.js:3-6 | The deck starts with the given cards, the cursor at 0 and the answer hidden. |
| `Sm2.Deck.UpdateCard` | src/composables/useSM2.js:18-32 | Updating a card field by field yields exactly `Reviewed` of that card. No other card or field changes. |
| `Sm2.Deck.Rate` | src/composables/useSM2.js:34-43 | Rate reviews the current card and hides the answer. The cursor moves to `old + 1` if that lies inside the recomputed due list, and to 0 otherwise. |
| `Sm2.Deck.ToggleShowBack` | src/composables/useSM2.js:45-47 | Flips the answer flag and nothing else. |
| `Sm2.ToggleTwiceRestores` | src/composables/useSM2.js:45-47 | Toggling twice restores the flag and the whole deck. |
| `CardsStore.StoreRuleAgrees` | src/stores/cards.js:48-68 | The store's update agrees with the composable's rule on repetitions, interval, easiness and due date, and additionally sets `lastStudied = now`. |
| `CardsStore.SessionAccounting` | src/stores/cards.js:71-76 | In an active session, N reviews with k passing ratings add N and k to the counters. Outside a session nothing is counted, and `correctAnswers <= cardsStudied` is kept. |
| `CardsStore.StudyRun` | src/stores/cards.js:152-161 | Starting a session and then reviewing N cards, k with passing ratings, leaves the counters at N and k. |
| `CardsStore.NewCardIsDue` | src/stores/cards.js:103-121 | A new card has easiness 2.5, interval 0, repetitions 0 and no `lastStudied`. It carries the given texts, is due at once, and is consistent. |
| `CardsStore.MergeIdempotent` | src/stores/cards.js:126 | Spreading the same patch twice equals spreading it once. An empty patch changes nothing. |
| `CardsStore.ResetIsLikeNew` | src/stores/cards.js:139-149 | A reset card equals a freshly added card with the same content, id and creation date. |
| `CardsStore.AverageEasinessBounds` | src/stores/cards.js:41-43 | The average easiness lies between the smallest and the largest easiness. |
| `CardsStore.Statistics` | src/stores/cards.js:37-45 | The total is the collection size, the due count is the due-list length, and due ≤ total. |
| `CardsStore.Store.constructor` | src/stores/cards.js:220-289 | The store starts from the saved collection if it parses, and from the three default cards otherwise. No session is active. |
| `CardsStore.Store.UpdateCard` | src/stores/cards.js:48-79 | Changes exactly the addressed card, to `Studied`, and advances the session counters by one review. The session invariant is kept. |
| `CardsStore.Store.Rate` | src/stores/cards.js:81-96 | Without a current card nothing changes. Otherwise rate reviews the current card, hides the answer, and advances or wraps the cursor. The session ends, with one snapshot logged, when the due list becomes empty. |
| `CardsStore.Store.ToggleShowBack` | src/stores/cards.js:98-100 | Flips the answer flag and nothing else. |
| `CardsStore.Store.AddCard` | src/stores/cards.js:103-121 | Appends exactly one new card and leaves the earlier cards unchanged. |
| `CardsStore.Store.UpdateCardData` | src/stores/cards.js:123-129 | Merges the patch into the first card with the id. An unknown id changes nothing. |
| `CardsStore.Store.DeleteCard` | src/stores/cards.js:131-137 | Removes exactly the first card with the id, so the length drops by one. An unknown id changes nothing. |
| `CardsStore.Store.ResetCard` | src/stores/cards.js:139-149 | Restores the scheduling fields of the first card with the id and keeps its content. An unknown id changes nothing. |
| `CardsStore.Store.StartStudySession` | src/stores/cards.js:152-161 | A fresh active session with both counters at 0. The cursor goes to 0 and the answer is hidden. |
| `CardsStore.Store.EndStudySession` | src/stores/cards.js:163-178 | Only when a session is active, appends one inactive snapshot with its end time and deactivates the session. Otherwise it changes nothing. |
| `CardsStore.Store.ImportCards` | src/stores/cards.js:193-211 | A parse failure changes nothing and reports failure. Replace overwrites the collection. Merge appends the imported cards whose ids are new, keeping existing cards in order. |
| `Seqs.WithNewKeys` | src/stores/cards.js:200-203 | The appended records are a subsequence of the import. None of their ids is taken already. Every imported record with a new id is included, as many times as it occurs in the import. |
| `Transcriptions.WithStatusSpec` | src/stores/transcription.js:83-94 | Completed sets `completedAt` and `processingTime = now - createdAt`, and copies only non-empty text and a given analysis. Error records the given message, or 'Erreur inconnue' when it is missing or empty. Any other status changes only the status. Each branch writes only the fields it names; metadata always, and the analysis and text on an error, are kept. |
| `Transcriptions.UpdatedRecordsSpec` | src/stores/transcription.js:79-84 | An unknown id changes nothing. Otherwise exactly the first record with the id is updated; the ids and the length stay the same. |
| `Transcriptions.RemovedSpec` | src/stores/transcription.js:104-116 | An unknown id changes nothing. Otherwise the first record with the id is spliced out, and the rest keep their order. |
| `Transcriptions.TranscribedKeepsText` | src/stores/transcription.js:139-142 | Marking a record transcribed does not store the given text, and the later completion leaves the text as it was. |
| `Transcriptions.PushCapped` | src/stores/transcription.js:178-183 | The new item comes first, followed by the newest earlier items. The length is the old length + 1, capped at the maximum. |
| `Transcriptions.FilterByStatus` | src/stores/transcription.js:207-209 | An order-preserving subsequence holding exactly the records with that status, each as often as in the list. |
| `Transcriptions.FilterByDate` | src/stores/transcription.js:211-218 | An order-preserving subsequence holding exactly the records created within the range, each as often as in the list; both bounds are included. |
| `Transcriptions.SuccessRate` | src/stores/transcription.js:232-237 | 100 for an empty list. Otherwise the percentage of completed records, rounded half up, which lies in 0..100. |
| `Transcriptions.AverageProcessingTime` | src/stores/transcription.js:221-230 | 0 when no completed record has a positive time. Otherwise the mean time of those records, rounded half up, which is at least 1. |
| `Transcriptions.FromHistory` | src/stores/transcription.js:188-190 | Nothing when no entry has the id. Otherwise the first entry with that id. |
| `Transcriptions.Store.constructor` | src/stores/transcription.js:301-330 | The store starts from the saved lists if they parse, and from empty lists otherwise. There is no current record and both flags are down. |
| `Transcriptions.Store.CreateTranscription` | src/stores/transcription.js:49-77 | Appends one pending record with empty text and no error, and makes it current. |
| `Transcriptions.Store.UpdateTranscriptionStatus` | src/stores/transcription.js:79-102 | The list becomes `UpdatedRecords`. The current record is refreshed if it has the id. |
| `Transcriptions.Store.DeleteTranscription` | src/stores/transcription.js:104-116 | The list becomes `Removed`. The current record is cleared only if a record was removed and the current one had that id. |
| `Transcriptions.Store.ClearAllTranscriptions` | src/stores/transcription.js:118-124 | Both lists are empty and there is no current record. |
| `Transcriptions.Store.SetCurrentTranscription` | src/stores/transcription.js:126-131 | The first record with the id becomes current. An unknown id keeps the current record. |
| `Transcriptions.Store.StartTranscription` | src/stores/transcription.js:134-137 | Raises the transcribing flag and nothing else. |
| `Transcriptions.Store.FinishTranscription` | src/stores/transcription.js:139-142 | Lowers the flag and marks the record transcribed through the status update. |
| `Transcriptions.Store.StartProcessingCompletion` | src/stores/transcription.js:144-146 | Raises the completion flag and nothing else. |
| `Transcriptions.Store.FinishProcessingCompletion` | src/stores/transcription.js:148-155 | Lowers the flag and completes the record with the analysis. The refreshed current record is then logged to the history. |
| `Transcriptions.Store.HandleError` | src/stores/transcription.js:157-163 | Lowers both flags and marks the record failed with the message. |
| `Transcriptions.Store.AddToHistory` | src/stores/transcription.js:166-186 | Nothing happens for a missing record. Otherwise its summary goes first and the history holds at most 50 entries. |
| `Transcriptions.Store.ClearHistory` | src/stores/transcription.js:192-195 | The history is empty and nothing else changes. |
| `Transcriptions.Store.ImportTranscriptions` | src/stores/transcription.js:261-286 | A parse failure changes nothing. Replace overwrites both lists. Merge appends, to each list, only the entries whose ids are new. The count reported is the number of imported transcriptions. |
| `AudioValidation.ValidateFileType` | src/composables/useAudioValidation.js:24-38 | A missing file is refused. A present file passes iff its MIME type is one of the eight allowed types. |
| `AudioValidation.ValidateFileSize` | src/composables/useAudioValidation.js:40-51 | A file fails iff its size is above 50 MiB; the limit itself passes. The message shows the size rounded to whole MiB, at least 50. |
| `AudioValidation.ValidateAudioDuration` | src/composables/useAudioValidation.js:53-101 | A duration passes iff it is readable and within [1, 600] s. Otherwise the file is refused as unreadable, too short (showing the duration rounded to whole seconds, at most 1), too long (showing it rounded to whole minutes, at least 10) or corrupt. |
| `AudioValidation.ValidationOrder` | src/composables/useAudioValidation.js:103-127 | The checks run in the order type, size, duration. The first refusal is reported, and later checks do not influence it. |
| `AudioValidation.ValidationAcceptance` | src/composables/useAudioValidation.js:129-135 | A file is accepted iff all three checks pass. The result then carries the measured duration and the file's size, type and name unchanged. |
| `AudioValidation.RefusalHasMessage` | src/composables/useAudioValidation.js:109-127 | Every refusal carries a non-empty message. |
| `AudioValidation.DurationFormattedSpec` | src/composables/useAudioValidation.js:158-163 | For a non-negative duration the text is `m:ss`, with `ss` two digits below 60 and `60*m + ss` the whole seconds. |
| `AudioValidation.AudioValidator.constructor` | src/composables/useAudioValidation.js:4-5 | No error is shown and no validation is running. |
| `AudioValidation.AudioValidator.ValidateAudioFile` | src/composables/useAudioValidation.js:103-144 | The result is `Validation(file, probe)`. The shown error is the refusal's message, and empty exactly when the file is accepted. The running flag is down afterwards. |
| `AudioValidation.AudioValidator.ClearValidationError` | src/composables/useAudioValidation.js:146-148 | Empties the shown error. |
| `Decimal.NatToStringRoundTrip` | src/composables/useAudioValidation.js:162 | The decimal text of a number reads back as that number. |
| `Hiragana.GridShapes` | src/composables/useHiragana.js:9-181 | The basic grid has 16 rows of 5 cells. The combinations grid has 11 rows of 3 filled cells. |
| `Hiragana.PresentMembers` | src/composables/useHiragana.js:193 | The kept entries are the kana of the filled cells: every filled cell's kana is kept, and nothing else is. |
| `Hiragana.PresentInOrder` | src/composables/useHiragana.js:193 | The kept entries, taken as cells, are an order-preserving subsequence of the row. |
| `Hiragana.PresentCounts` | src/composables/useHiragana.js:193 | Each kana is kept exactly as often as it fills a cell. |
| `Hiragana.AllHiraganaCells` | src/composables/useHiragana.js:192-196 | `allHiragana` holds exactly the kana of filled cells: first the basic grid's, then the combinations', each part in row-major order. Each kana occurs as often as it fills a cell of either grid. |
| `Hiragana.Statistics` | src/composables/useHiragana.js:199-203 | The total count is the basic count plus the combinations count. |
| `Hiragana.StatisticsValues` | src/composables/useHiragana.js:199-203 | The shipped tables give 71 basic kana, 33 combinations, and 104 in all. |
| `Hiragana.CurrentGridShipped` | src/composables/useHiragana.js:187-189 | With the shipped tables, the basic grid is shown iff the view is 'basic'. |
| `Hiragana.FindHiragana` | src/composables/useHiragana.js:299-301 | Returns the first entry with that character, or nothing if none has it. |

## Left out

- Persistence through `localStorage` (`saveCards`, `loadCards`, `getSessions`, `saveTranscriptions`, `saveHistory`, `loadTranscriptions`) is an external key-value store. The constructors receive what was loaded. `sessionLog` holds only the snapshots this store appends; the previously saved session history is not modelled. The server-side case, where no `window` exists and nothing is loaded, is not modelled.
- Calendar-day comparisons via `toDateString` are not modelled: `studiedToday`, `todaysTranscriptions` and the matching statistics fields.
- `recentTranscriptions` is not modelled. It sorts the backing list in place by date.
- `getMostUsedFormats` is not modelled; it depends on object-key ordering.
- `searchTranscriptions` is not modelled; it needs `toLowerCase` case folding.
- `exportCards` and `exportTranscriptions` are not modelled; they are JSON serialisation.
- The trivial counters `totalCards`, `transcriptionCount` and `hasCurrentTranscription` are not stated separately.
- Floating point is not modelled. Easiness, the `interval * easiness` rounding, the success-rate percentage and the average are computed exactly. The source's binary floating point can differ by rounding drift, for example after many easiness updates or at an exact .5 boundary.
- The due list is recomputed from the collection at the instant `now` of each operation. In the source, `dueCards` is a cached `computed` that reruns only when the collection changes, because the clock read `today()` is not tracked. So `currentCard` at the start of `rate` can come from a due list computed at an earlier instant; that staleness is not modelled.
- Imported cards are due by their integer due dates. In the source, `importCards` keeps the raw `JSON.parse` output, skipping the date conversion that `loadCards` performs. An imported `dueDate` is then a string, and comparing it with a `Date` is false, so imported cards are never due until the next load. That behaviour is not modelled.
- Ratings are integers. A fractional or non-numeric rating is not modelled.
- The transcription `status` is one of five values. The source accepts any string.
- `currentTranscription` is held by value and refreshed whenever the record with its id is updated, as `updateTranscriptionStatus` does. Object identity between the current record and the list element is not modelled.
- The app-wide loading and error flags (`appStore.setLoading`, `appStore.setError`) belong to another store and are not modelled.
- Parsed JSON of the wrong shape (for example `null`) is not modelled: in the source it throws inside the `try` and reports failure. Only a failing parse is modelled, as `None`.
- An audio duration of `Infinity` is not modelled, nor is a probe whose promise never settles. Numbers of magnitude 10^21 and above, which JavaScript prints in exponent form, are not modelled either.
- `getFileSizeFormatted` (`Math.log`, `toFixed`), speech synthesis (`speakHiragana`, `playRow`, `playAll`, `handleHover`), `getRandomHiragana` (`Math.random`) and the display refs `showRomaji`, `playOnHover` and `currentPlaying` are not modelled.
- Sm2.Deck.Rate: requires a current card, because the composable has no guard and would fail on `undefined`.
- AudioValidation.ValidateFileSize: takes a present file, because the source reads `file.size` and is only reached after the type check has rejected a missing file.
- AudioValidation.Message: the list of accepted formats is written out as text. It is the part after the slash of each allowed type, in order, rather than computed from the list.
