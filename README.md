# TOEIC vocabulary trainer: bookkeeping and page logic in Dafny

This project models the bookkeeping layer of a browser-based TOEIC vocabulary trainer, together
with the page and component logic that drives it. Every module corresponds to one source file.

- **Catalog** (`lib/vocabulary-data.ts`): the ten built-in vocabulary words and the three
  lookups over them.
  - Each sentence is stored as its list of space-separated tokens and proved to split back into
    them.
  - The field comment says `blankPosition` is "the position of the word in the sentence".
    `Catalog.BlankPositionMarksWord` proves this holds for eight entries. For ids "2" and "3" the
    blank falls one token after the word ("up" and "new").
- **Progress** (`lib/user-progress.ts`): the learner's progress record.
  - Counters, per-category and per-difficulty tallies, the weak and mastered id lists, the streak
    and the last study date.
  - The `ProgressManager` that loads, records, resets and saves the record.
  - `getProgress` returns a shallow copy. The two id lists are modelled as shared objects
    (`IdList`), so a caller that pushes onto a list changes the tracker's record, while one that
    reassigns a field of the copy does not.
- **CustomVocabulary** (`lib/custom-vocabulary.ts`): the learner's own words.
  - Add, update, delete, lookup, category and difficulty filters, and search.
  - Import from a parsed JSON document, with per-entry errors and defaults.
- **DataManagement** (`lib/data-manager.ts`):
  - Application settings, with the auto-save timer as a set of live handles.
  - Whole-app export and import; the backup history capped at ten entries; clearing all data.
  - The storage-usage estimate over a key-to-string view of localStorage.
- **QuizCard** (`components/quiz/quiz-card.tsx`): the fill-in-the-blank card.
  - The blanked sentence, the case- and padding-insensitive answer check, and the time taken.
  - The submit guard.
- **ReviewPage** (`app/review/page.tsx`): listing weak and mastered catalog words, and moving a
  word between the two lists.
- **WeakRecommendations** (`components/weak-words/weak-word-recommendations.tsx`):
  - Counts weak words per category and difficulty, in first-seen key order.
  - Picks the most frequent key, the first one on a tie, as a stable sort followed by `[0]` does.
  - Recommends up to three fresh catalog words, and computes the two summary numbers.
- **WeakQuiz** (`components/weak-words/weak-word-quiz.tsx`): the five-word weak-word quiz session, and the
  screen that renders its current question on a quiz card.
- **QuizPage** (`app/quiz/page.tsx`): the definition quiz over custom words.
- **AddWordForm** (`components/manage/add-word-form.tsx`): the add-word form.

The helper modules implement JavaScript's semantics:

- **Seqs**: `filter`, `includes`-guarded `push`, and `slice`, including a negative `end`.
- **Text**: ASCII `toLowerCase`, `trim` over ECMAScript white space, `split(" ")`/`join(" ")`,
  substring `includes`, and decimal `toString`.
- **LocalStorage**: a storage slot, where `None` means the key is absent.

The page and card state is modelled as classes whose methods update their fields. A React state
setter becomes a field assignment, and a handler becomes a method. The clock, random numbers and
locale formatting are parameters.

## Model

| member | source | states |
|---|---|---|
| Catalog.CatalogIdsDistinct | lib/vocabulary-data.ts:13-114 | the ten catalog ids are pairwise different |
| Catalog.CatalogNoDup | lib/vocabulary-data.ts:13-114 | no catalog entry occurs twice |
| Catalog.WordsByDifficultySpec | lib/vocabulary-data.ts:121-123 | a word is returned iff it is a catalog word of that difficulty; catalog order, no repeats |
| Catalog.WordsByCategorySpec | lib/vocabulary-data.ts:125-127 | a word is returned iff it is a catalog word of that category; catalog order, no repeats |
| Catalog.RandomWordsSpec | lib/vocabulary-data.ts:116-119 | for any shuffle: `slice(0, count)` has the clamped length (also for negative counts), only catalog words, none twice |
| Catalog.EntriesWithIdsSpec | app/review/page.tsx:32 | filtering the catalog by an id list keeps exactly the entries whose id is listed, in catalog order, without repeats |
| Catalog.BlankPositionInRange | lib/vocabulary-data.ts:13-114 | every entry's blank position is a valid token index of its sentence |
| Catalog.BlankPositionMarksWord | lib/vocabulary-data.ts:6 | the token at the blank position is the word iff the id is neither "2" nor "3" |
| Progress.CategoryTally.Inc | lib/user-progress.ts:113 | one category's tally rises by one, the others stay, and the sum rises by one |
| Progress.DifficultyTally.Inc | lib/user-progress.ts:116 | one difficulty's tally rises by one, the others stay, and the sum rises by one |
| Progress.NextStreak | lib/user-progress.ts:119-127 | streak unchanged within a day, +1 after one to two days, reset to 1 after two days or more (floor division) |
| Progress.Recorded | lib/user-progress.ts:92-131 | total +1; correct or incorrect +1 as answered; the word's category and difficulty tallies +1, the others unchanged; date set to now |
| Progress.AccuracyRate | lib/user-progress.ts:133-136 | between 0 and 100; 0 before any answer; otherwise correct/total*100 |
| Progress.ProgressRecord.constructor | lib/user-progress.ts:1-21 | a record with the given value and two fresh, distinct lists |
| Progress.ProgressRecord.ShallowCopy | lib/user-progress.ts:88-90 | the copy has the same value and shares both list objects |
| Progress.ProgressRecord.RecordLists | lib/user-progress.ts:95-110 | correct: the weak field points at a new array without the id, the old weak array keeps its contents, and the id is pushed onto the same mastered array if missing; wrong: the id is pushed onto the same weak array if missing; the two arrays stay distinct |
| Progress.ProgressRecord.RecordCounts | lib/user-progress.ts:93-129 | total +1, correct or incorrect +1, the category and difficulty tallies incremented, the streak moved by `NextStreak` from the old date, and the date set to now; the lists are not touched |
| Progress.ProgressManager.constructor | lib/user-progress.ts:47-80 | the saved record when one exists, otherwise the default record |
| Progress.ProgressManager.SaveProgress | lib/user-progress.ts:82-86 | the slot holds the current record |
| Progress.ProgressManager.GetProgress | lib/user-progress.ts:88-90 | a fresh record with the same value that shares both id lists with the tracker |
| Progress.ProgressManager.RecordQuizResult | lib/user-progress.ts:92-131 | the record becomes `Recorded` of its old value and is saved; a correct answer gives the weak list a new array and leaves the old weak array's contents as they were, and the mastered array is kept |
| Progress.ProgressManager.GetAccuracyRate | lib/user-progress.ts:133-136 | returns `AccuracyRate` of the record, within 0..100 |
| Progress.ProgressManager.GetWeakWords | lib/user-progress.ts:138-140 | a copy of the weak list's contents |
| Progress.ProgressManager.GetMasteredWords | lib/user-progress.ts:142-144 | a copy of the mastered list's contents |
| Progress.ProgressManager.ResetProgress | lib/user-progress.ts:146-169 | a fresh default record, saved |
| Progress.RecordedLists | lib/user-progress.ts:95-110 | correct: the id leaves the weak list and is in the mastered list; incorrect: it is in the weak list and the mastered list is unchanged |
| Progress.ReplayTallies | lib/user-progress.ts:113-116 | when the category sum, the difficulty sum and correct+incorrect all equal the total, this still holds after any sequence of answers, and the total rises by one per answer |
| Progress.FromDefaultTallies | lib/user-progress.ts:93-116 | from the default record, each tally sums to the number of answers |
| Progress.ReplayNoDup | lib/user-progress.ts:98-109 | recording answers never puts an id twice into either list |
| Progress.SameDayStreak | lib/user-progress.ts:119-129 | answers within one day-long window of the last study date leave the streak unchanged |
| CustomVocabulary.IndexOfId | lib/custom-vocabulary.ts:59 | -1 iff no word has the id, otherwise the first index holding it |
| CustomVocabulary.CustomVocabularyManager.constructor | lib/custom-vocabulary.ts:25-36 | the stored words, or none |
| CustomVocabulary.CustomVocabularyManager.SaveCustomWords | lib/custom-vocabulary.ts:38-42 | the slot holds the word list |
| CustomVocabulary.CustomVocabularyManager.AddWord | lib/custom-vocabulary.ts:44-56 | exactly one word, with the new id, "user" and `isCustom`, is appended, and the list is saved |
| CustomVocabulary.CustomVocabularyManager.UpdateWord | lib/custom-vocabulary.ts:58-65 | true iff some word has the id; then the first one is merged with the updates, the rest is unchanged, and the list is saved; otherwise nothing changes |
| CustomVocabulary.CustomVocabularyManager.DeleteWord | lib/custom-vocabulary.ts:67-74 | true iff some word has the id; then exactly the first one is removed and the list is saved; otherwise nothing changes |
| CustomVocabulary.CustomVocabularyManager.GetCustomWords | lib/custom-vocabulary.ts:76-78 | the current list |
| CustomVocabulary.CustomVocabularyManager.GetWordById | lib/custom-vocabulary.ts:80-82 | None iff no word has the id, otherwise the first word that has it |
| CustomVocabulary.CustomVocabularyManager.GetWordsByCategory | lib/custom-vocabulary.ts:84-86 | exactly the words of that category, with their multiplicities and in list order |
| CustomVocabulary.CustomVocabularyManager.GetWordsByDifficulty | lib/custom-vocabulary.ts:88-90 | exactly the words of that difficulty, with their multiplicities and in list order |
| CustomVocabulary.CustomVocabularyManager.SearchWords | lib/custom-vocabulary.ts:92-100 | a word is returned iff its lowercased word, definition or sentence contains the lowercased query; list order; each matching word as many times as it is stored, each other word never |
| CustomVocabulary.CustomVocabularyManager.ClearAllWords | lib/custom-vocabulary.ts:102-105 | the list is empty and saved empty |
| CustomVocabulary.CustomVocabularyManager.ImportWords | lib/custom-vocabulary.ts:111-149 | a non-array or unparseable document changes nothing; an array appends exactly the accepted, defaulted entries; the list is saved when something was imported, and the stored list is untouched when nothing was |
| CustomVocabulary.SearchFilterSpec | lib/custom-vocabulary.ts:92-100 | the search filter is the substring test on the three lowercased fields |
| CustomVocabulary.EmptyQueryMatchesAll | lib/custom-vocabulary.ts:92-100 | searching for the empty string returns every word |
| CustomVocabulary.ImportAccounting | lib/custom-vocabulary.ts:121-143 | every entry is either imported or produces one error |
| CustomVocabulary.ImportedWordsShape | lib/custom-vocabulary.ts:130-139 | every imported word has a non-empty word, definition and sentence, an id starting with "custom_", no notes, and the import time, and is marked custom by "user" |
| CustomVocabulary.ImportNothingAccepted | lib/custom-vocabulary.ts:121-145 | when no entry is acceptable, nothing is imported, there is one error per entry, and the result is a failure |
| CustomVocabulary.MergeSpec | lib/custom-vocabulary.ts:62 | for each of the eight updatable fields (word, definition, sentence, blank position, difficulty, category, part of speech, notes) a supplied value replaces and an absent one is kept; an empty update is the identity; merging twice equals merging once |
| CustomVocabulary.NewIdInjective | lib/custom-vocabulary.ts:47 | different (time, suffix) pairs give different ids |
| DataManagement.GetStorageUsage | lib/data-manager.ts:256-277 | used is the sum of key and value lengths over every key; 5 MiB available; percentage = used/available*100 |
| DataManagement.DataManager.constructor | lib/data-manager.ts:23-26 | the stored settings or the defaults; a timer runs iff auto-save is on |
| DataManagement.DataManager.SaveSettings | lib/data-manager.ts:53-57 | the slot holds the settings |
| DataManagement.DataManager.GetSettings | lib/data-manager.ts:59-61 | a copy of the settings |
| DataManagement.DataManager.InitializeAutoSave | lib/data-manager.ts:73-87 | the old timer is stopped; a new one runs iff auto-save is on |
| DataManagement.DataManager.UpdateSettings | lib/data-manager.ts:63-71 | the settings are merged and saved; the timer is restarted only when the update names autoSave |
| DataManagement.DataManager.ExportAllData | lib/data-manager.ts:108-128 | the document holds the current progress, words and settings, the time, and version "1.0.0" |
| DataManagement.DataManager.ImportAllData | lib/data-manager.ts:130-177 | success iff the document parses and has progress, customWords and settings; then progress is written to storage only, the words are re-added, and the settings are merged, with the auto-save timer restarted exactly as updateSettings does when the document sets autoSave and left alone otherwise; on failure nothing changes, timers included |
| DataManagement.DataManager.AddImportedWords | lib/data-manager.ts:152-162 | starting from the cleared list, the list becomes `RebuiltWords` of the document words and is saved |
| DataManagement.DataManager.GetBackupHistory | lib/data-manager.ts:209-214 | the stored history or the empty list |
| DataManagement.DataManager.CreateBackup | lib/data-manager.ts:179-207 | success; the exported document; the new entry is pushed on the front of the history, capped at ten |
| DataManagement.DataManager.ClearAllData | lib/data-manager.ts:216-254 | backups removed; progress, words and settings reset to defaults and saved; the timer untouched |
| DataManagement.MergeSettingsSpec | lib/data-manager.ts:64 | for each of the six settings (autoSave, backupFrequency, soundEnabled, speechRate, theme, notifications) a supplied value replaces and an absent one is kept; an empty update is the identity; a full update replaces everything |
| DataManagement.RebuiltWordsSpec | lib/data-manager.ts:151-162 | one re-added word per document word, in order, with the same content except the notes (which `addWord` is not given), and an id starting with "custom_" |
| DataManagement.ExportImportRoundTrip | lib/data-manager.ts:108-177 | an exported document is always accepted, and importing it restores the progress and the settings exactly and every word's content except its notes |
| DataManagement.PushBackupSpec | lib/data-manager.ts:188-194 | the new entry comes first, then the previous entries in order, at most ten in total |
| DataManagement.UsageRemove | lib/data-manager.ts:262-267 | removing one key takes exactly its weight out of used |
| DataManagement.UsageOrderIrrelevant | lib/data-manager.ts:262-267 | used does not depend on the key enumeration order |
| DataManagement.UsageUpdate | lib/data-manager.ts:262-267 | rewriting one key changes used by the difference in that value's length |
| DataManagement.UsageUnchanged | lib/data-manager.ts:262-267 | a key outside the enumeration does not affect used |
| DataManagement.UsageMonotone | lib/data-manager.ts:262-267 | adding a key, or lengthening a value, never lowers used |
| QuizCard.TimeTaken | components/quiz/quiz-card.tsx:33 | whole seconds elapsed, rounded down: t*1000 <= elapsed < (t+1)*1000 |
| QuizCard.BlankSentenceSpec | components/quiz/quiz-card.tsx:29-30 | same number of tokens; the blank replaces exactly the token at blankPosition; out of range, the sentence is unchanged |
| QuizCard.BlankHidesMarkedWord | components/quiz/quiz-card.tsx:29-30 | when blankPosition names the word, the blank stands at that token and every other token is kept |
| QuizCard.CorrectIgnoresPaddingAndCase | components/quiz/quiz-card.tsx:34 | surrounding white space and letter case in the answer do not change the verdict |
| QuizCard.WordIsAccepted | components/quiz/quiz-card.tsx:34 | typing the word itself is correct when the word has no outer white space |
| QuizCard.PaddedWordUnanswerable | components/quiz/quiz-card.tsx:34 | a word with outer white space can never be answered correctly |
| QuizCard.Card.constructor | components/quiz/quiz-card.tsx:22-26 | empty answer, no result shown, no answer reported |
| QuizCard.Card.Type | components/quiz/quiz-card.tsx:106-113 | the answer follows the input only while no result is shown |
| QuizCard.Card.Submit | components/quiz/quiz-card.tsx:40-44 | fires iff the trimmed answer is non-empty and no result is shown; then it acts as handleSubmit, and otherwise nothing changes |
| QuizCard.Card.Rerender | components/weak-words/weak-word-quiz.tsx:131-136 | rendering the same card with a new `word` prop changes the prop and keeps the card's state |
| QuizCard.Card.HandleSubmit | components/quiz/quiz-card.tsx:32-38 | the verdict is recorded, the result is shown, and one onAnswer call with the verdict, the answer and the time taken is appended |
| ReviewPage.LoadProgress | app/review/page.tsx:26-38 | the weak and mastered catalog words: a word is listed iff its id is in that list; catalog order, no repeats |
| ReviewPage.MarkAsKnown | app/review/page.tsx:40-52 | the tracker's record becomes `MarkedKnown` of its old value and is saved |
| ReviewPage.MarkAsUnknown | app/review/page.tsx:54-66 | the tracker's record becomes `MarkedUnknown` of its old value and is saved |
| ReviewPage.MarkedKnownSpec | app/review/page.tsx:44-50 | the id is mastered, once; the weak list is untouched, so an id that was weak stays weak |
| ReviewPage.MarkedUnknownSpec | app/review/page.tsx:58-64 | the id is weak, once; the mastered list is untouched, so an id that was mastered stays mastered |
| ReviewPage.MarkAsKnownKeepsWeak | app/review/page.tsx:45 | on weak ["1"], the as-written handler keeps "1" weak, while the intended one removes it |
| ReviewPage.MarkAsUnknownKeepsMastered | app/review/page.tsx:59 | on mastered ["1"], the as-written handler keeps "1" mastered, while the intended one removes it |
| ReviewPage.MarkAsKnownIntended | app/review/page.tsx:44-48 | the tracker's record becomes `IntendedKnown` of its old value and is saved |
| ReviewPage.MarkAsUnknownIntended | app/review/page.tsx:58-62 | the tracker's record becomes `IntendedUnknown` of its old value and is saved |
| ReviewPage.IntendedKnownSpec | app/review/page.tsx:44-48 | the id leaves the weak list (other ids are kept, in order) and is mastered exactly once; nothing else changes |
| ReviewPage.IntendedUnknownSpec | app/review/page.tsx:58-62 | the id leaves the mastered list and is weak exactly once; nothing else changes |
| WeakRecommendations.CountWeak | components/weak-words/weak-word-recommendations.tsx:38-44 | each key's count equals its number of occurrences, the keys appear in first-seen order without repeats, and the counts sum to the number of weak words |
| WeakRecommendations.TopPatterns | components/weak-words/weak-word-recommendations.tsx:38-48 | each top key is None iff there are no weak words, and otherwise is the most frequent key, met first among equals |
| WeakRecommendations.FirstMaxIndex | components/weak-words/weak-word-recommendations.tsx:47-48 | the entry with the largest count, and the first such entry on a tie (stable sort, then `[0]`) |
| WeakRecommendations.LoadRecommendations | components/weak-words/weak-word-recommendations.tsx:24-61 | the weak catalog words, the accuracy, each top key None iff there are no weak words (otherwise the most frequent, first seen), and the recommendations |
| WeakRecommendations.SessionsNeeded | components/weak-words/weak-word-recommendations.tsx:93 | the least number of five-word sessions that covers all weak words |
| WeakRecommendations.Cleared | components/weak-words/weak-word-recommendations.tsx:103 | 10 minus the number of weak words, never below 0 |
| WeakRecommendations.DistinctSpec | components/weak-words/weak-word-recommendations.tsx:41-47 | the key list has each occurring key exactly once, ordered by first occurrence |
| WeakRecommendations.BumpTallies | components/weak-words/weak-word-recommendations.tsx:42-43 | one `count[k] = (count[k] \|\| 0) + 1` keeps the counts exact for the extended word list |
| WeakRecommendations.TopIsMostFrequentFirst | components/weak-words/weak-word-recommendations.tsx:47-48 | the top key is absent iff nothing was counted; otherwise it has the highest count and is the first seen among ties |
| WeakRecommendations.MostFrequentFirstUnique | components/weak-words/weak-word-recommendations.tsx:47-48 | the most-frequent-first key is unique |
| WeakRecommendations.RecommendedSpec | components/weak-words/weak-word-recommendations.tsx:51-58 | at most three catalog words, neither weak nor mastered and matching a top key, in catalog order, without repeats; fewer than three only when every such word is included; none when there is no top key |
| WeakRecommendations.RecommendedFirst | components/weak-words/weak-word-recommendations.tsx:51-58 | the recommendations are the first qualifying catalog words: a qualifying word that comes before a recommended one in the catalog is recommended too |
| WeakQuiz.QuizWordsSpec | components/weak-words/weak-word-quiz.tsx:31-46 | one to five catalog words: the first five weak words when some exist, otherwise the first three catalog words, none of them weak |
| WeakQuiz.WeakQuizSession.constructor | components/weak-words/weak-word-quiz.tsx:19-29 | the quiz words for the tracker's weak list, at question 0, with no results |
| WeakQuiz.WeakQuizSession.Answer | components/weak-words/weak-word-quiz.tsx:48-78 | one result for the current word is appended and recorded with the tracker (saved); then the next question, or completion after the last, with one result per word (reached on screen only with a keyed card, see Findings) |
| WeakQuiz.WeakQuizScreen.constructor | components/weak-words/weak-word-quiz.tsx:19-29 | the quiz words for the tracker's weak list at question 0, no results, and an empty card for the first word |
| WeakQuiz.WeakQuizScreen.Type | components/quiz/quiz-card.tsx:106-113 | typing reaches the card's answer only while it shows no result |
| WeakQuiz.WeakQuizScreen.Submit | components/weak-words/weak-word-quiz.tsx:48-136 | fires iff the card's guard holds; a fired submit appends the result for the current word (the card's verdict, the typed answer, the correct word, the time taken), records it with the tracker as `Recorded` and saves it, then moves to the next question or completes after the last; an unfired one changes nothing in the session, the tracker, the store or the card; the unkeyed card (as written) keeps its shown result and never holds more than one result, while a keyed card is fresh for every question and fires on any non-blank answer |
| WeakQuiz.UnkeyedScreenStalls | components/weak-words/weak-word-quiz.tsx:131-136 | as written: at most one result, and a quiz of two or more words never completes |
| WeakQuiz.KeyedScreenAdvances | components/weak-words/weak-word-quiz.tsx:131-136 | with a keyed card: before completion the card shows no result and there is one result per question passed; on completion one result per word |
| QuizPage.NextIndex | app/quiz/page.tsx:37 | the next index wraps to 0 after the last word: (i+1) mod n |
| QuizPage.FeedbackSpec | app/quiz/page.tsx:27-34 | "✅ Correct!" iff the trimmed, lowercased answer equals the trimmed, lowercased definition; otherwise the message ends with the definition as written |
| QuizPage.MatchIgnoresPaddingAndCase | app/quiz/page.tsx:28-29 | white space around the answer or the definition, and the answer's letter case, do not change the verdict |
| QuizPage.QuizPageState.constructor | app/quiz/page.tsx:7-17 | the stored custom words, not started, index 0, empty answer, no feedback |
| QuizPage.QuizPageState.Start | app/quiz/page.tsx:19-25 | no effect without words; otherwise started at index 0 with empty answer and no feedback |
| QuizPage.QuizPageState.Type | app/quiz/page.tsx:63-69 | the answer is the typed text |
| QuizPage.QuizPageState.Submit | app/quiz/page.tsx:27-34 | the feedback is set for the current word's definition |
| QuizPage.QuizPageState.Next | app/quiz/page.tsx:36-40 | index (i+1) mod n; answer and feedback cleared |
| AddWordForm.FormAgreesWithImport | components/manage/add-word-form.tsx:19-31 | the form adds exactly what an import would accept, with the same defaults (blank 0, intermediate, daily, noun) and the notes |
| AddWordForm.Form.constructor | components/manage/add-word-form.tsx:11-15 | all fields empty |
| AddWordForm.Form.Submit | components/manage/add-word-form.tsx:17-38 | adds iff word, definition and sentence are all non-empty; then exactly one word is appended and saved, the fields are cleared, and onWordAdded fires once; otherwise nothing changes |

## Left out

- JSON text is not modelled. Documents are given already parsed; a parse failure is a document case carrying the engine's message.
- A stored blob that is corrupt, so that loading it throws, is not modelled. A slot holds a well-typed value or nothing.
- Fields of the wrong JSON type are not modelled. This covers non-string fields, unknown category or difficulty strings, and `null` entries that make `importAllData` throw part-way.
- Text: `toLowerCase` is ASCII-only. Unicode case mapping and normalisation are not modelled.
- Floating point: rates and percentages are exact reals, and `speechRate` is a real.
- Dates: times are integers in milliseconds, and `toLocaleDateString` is a parameter. A `Date` stored as an ISO string is the same millisecond count.
- `Date.now()` calls during one import are a single `now`. Random id suffixes and the random shuffle are parameters.
- Blob sizes are a parameter.
- Catalog.RandomWords: `getRandomWords`'s default `count = 5` (lib/vocabulary-data.ts:116) is not modelled. The count is always an explicit argument, and no caller here relies on the default.
- DataManagement.GetStorageUsage: it is a function over a key-to-string view of localStorage that is given to it. It is not connected to the storage slots, so nothing shows how an operation such as `clearAllData` or `deleteWord` changes the estimate.
- DataManagement.GetStorageUsage: the source counts `.length`, which is UTF-16 code units, and the model counts characters. A character outside the Basic Multilingual Plane counts 2 in the source and 1 here.
- Nothing runs the auto-save timer's callback (`performAutoSave`, lib/data-manager.ts:89-106). The model only records which timer handles are live.
- `cleanup` (lib/data-manager.ts:279-284) is not modelled.
- `clearAllData` does not restart the auto-save timer, and the model keeps it that way.
- The `typeof window` guards and the singleton `getInstance` accessors are not modelled. Each manager is one object passed to whoever uses it.
- Storage write failures and the quota are not modelled: every `setItem` succeeds.
- `exportWords` (lib/custom-vocabulary.ts:107-109) is not modelled; it is plain serialisation.
- `audioUrl` and the other audio fields are not modelled.
- QuizCard.Card: the Try Another Quiz button (components/quiz/quiz-card.tsx:164) reloads the page; that reload is not modelled.
- QuizCard.Card.Type: the answer input exists only when the blank is in range (components/quiz/quiz-card.tsx:94). The model lets typing happen regardless.
- WeakQuiz.WeakQuizSession.Answer: the two-second `setTimeout` before the next question or completion is modelled as immediate. Answers arriving during that delay are not modelled.
- Rendering, styling, routing and the remaining pages (settings, pronunciation, the home page) are not modelled.

## Findings

| source | as written | input that shows it | evidently intended | confidence | as-written member | corrected member |
|---|---|---|---|---|---|---|
| app/review/page.tsx:45 | the filtered weak list is assigned to the field of the shallow copy that `getProgress` returned, so the tracker's record keeps its old weak list; only the push onto the shared mastered array reaches it | weakWords ["1"], masteredWords [], mark "1" as known: the saved record has weakWords ["1"] and masteredWords ["1"] | the word leaves the weak list and joins the mastered list | not executed | ReviewPage.MarkAsKnownKeepsWeak | ReviewPage.IntendedKnownSpec |
| app/review/page.tsx:59 | the same for mark-as-unknown: the filtered mastered list goes to the copy only | weakWords [], masteredWords ["1"], mark "1" as unknown: the saved record has masteredWords ["1"] and weakWords ["1"] | the word leaves the mastered list and joins the weak list | not executed | ReviewPage.MarkAsUnknownKeepsMastered | ReviewPage.IntendedUnknownSpec |
| components/weak-words/weak-word-quiz.tsx:131 | `<QuizCard>` is rendered without a `key`, so React keeps the same card when the question changes: its result stays shown, its input is gone (components/quiz/quiz-card.tsx:94-114) and its only button reloads the page (160-169); `handleAnswer` fires once, and the card then shows the next word as the correct answer | any quiz of two to five words, e.g. two weak words: after the first submit, no further answer can be given and `isQuizComplete` is never set | a fresh card for each question (`key={currentQuestionIndex}`), so every question can be answered and the results screen follows the last | not executed | WeakQuiz.UnkeyedScreenStalls | WeakQuiz.KeyedScreenAdvances |
