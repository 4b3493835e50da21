/** lib/user-progress.ts: the learner's progress record and the ProgressManager that updates it
    after every quiz answer and keeps it in localStorage under "englishLearningProgress". */
module Progress {
  import opened Seqs
  import opened Catalog
  import opened LocalStorage

  /** `1000 * 60 * 60 * 24`: milliseconds in a day. */
  const MsPerDay: int := 86400000

  /** `categoryProgress`: answers given per catalog category. */
  datatype CategoryTally = CategoryTally(business: nat, travel: nat, daily: nat, academic: nat)
  {
    function Get(c: Category): nat
    {
      match c
      case Business => business
      case Travel => travel
      case Daily => daily
      case Academic => academic
    }

    /** `categoryProgress[c]++`: the tally for `c` rises by one, the other three stay. */
    function Inc(c: Category): (t: CategoryTally)
      ensures t.Get(c) == Get(c) + 1
      ensures forall o :: o != c ==> t.Get(o) == Get(o)
      ensures t.Sum() == Sum() + 1
    {
      match c
      case Business => this.(business := business + 1)
      case Travel => this.(travel := travel + 1)
      case Daily => this.(daily := daily + 1)
      case Academic => this.(academic := academic + 1)
    }

    function Sum(): nat
    {
      business + travel + daily + academic
    }
  }

  /** `difficultyProgress`: answers given per difficulty level. */
  datatype DifficultyTally = DifficultyTally(beginner: nat, intermediate: nat, advanced: nat)
  {
    function Get(d: Difficulty): nat
    {
      match d
      case Beginner => beginner
      case Intermediate => intermediate
      case Advanced => advanced
    }

    /** `difficultyProgress[d]++`: the tally for `d` rises by one, the other two stay. */
    function Inc(d: Difficulty): (t: DifficultyTally)
      ensures t.Get(d) == Get(d) + 1
      ensures forall o :: o != d ==> t.Get(o) == Get(o)
      ensures t.Sum() == Sum() + 1
    {
      match d
      case Beginner => this.(beginner := beginner + 1)
      case Intermediate => this.(intermediate := intermediate + 1)
      case Advanced => this.(advanced := advanced + 1)
    }

    function Sum(): nat
    {
      beginner + intermediate + advanced
    }
  }

  /** The `UserProgress` interface as a value; `lastStudyDate` is a time in milliseconds. */
  datatype UserProgress = UserProgress(
    userId: string,
    totalWordsStudied: nat,
    correctAnswers: nat,
    incorrectAnswers: nat,
    streakDays: nat,
    lastStudyDate: int,
    weakWords: seq<string>,
    masteredWords: seq<string>,
    categoryProgress: CategoryTally,
    difficultyProgress: DifficultyTally)

  /** The `QuizResult` interface; `timestamp` in milliseconds, `timeTaken` in seconds. */
  datatype QuizResult = QuizResult(
    wordId: string,
    isCorrect: bool,
    userAnswer: string,
    correctAnswer: string,
    timestamp: int,
    timeTaken: int)

  /** The record `loadProgress` falls back to and `resetProgress` installs, created at `now`. */
  function DefaultProgress(now: int): UserProgress
  {
    UserProgress("default", 0, 0, 0, 0, now, [], [],
      CategoryTally(0, 0, 0, 0), DifficultyTally(0, 0, 0))
  }

  /** `Math.floor((today - lastStudy) / (1000 * 60 * 60 * 24))`: the divisor is positive, so
      Dafny's Euclidean division is the floor. */
  function DaysBetween(last: int, now: int): int
  {
    (now - last) / MsPerDay
  }

  /** The streak rule: one more day after a gap of exactly one calendar-length day, back to 1
      after a longer gap, and unchanged when less than a day has passed (or the clock went back). */
  function NextStreak(streak: nat, last: int, now: int): (r: nat)
    ensures now - last < MsPerDay ==> r == streak
    ensures MsPerDay <= now - last < 2 * MsPerDay ==> r == streak + 1
    ensures 2 * MsPerDay <= now - last ==> r == 1
  {
    var d := DaysBetween(last, now);
    if d == 1 then streak + 1 else if d > 1 then 1 else streak
  }

  /** `recordQuizResult(result, word)` at time `now`, on a progress value. */
  function Recorded(p: UserProgress, wordId: string, isCorrect: bool, word: VocabularyWord, now: int): (q: UserProgress)
    ensures q.totalWordsStudied == p.totalWordsStudied + 1
    ensures isCorrect ==> q.correctAnswers == p.correctAnswers + 1 && q.incorrectAnswers == p.incorrectAnswers
    ensures !isCorrect ==> q.incorrectAnswers == p.incorrectAnswers + 1 && q.correctAnswers == p.correctAnswers
    ensures q.categoryProgress.Get(word.category) == p.categoryProgress.Get(word.category) + 1
    ensures forall c :: c != word.category ==> q.categoryProgress.Get(c) == p.categoryProgress.Get(c)
    ensures q.difficultyProgress.Get(word.difficulty) == p.difficultyProgress.Get(word.difficulty) + 1
    ensures forall d :: d != word.difficulty ==> q.difficultyProgress.Get(d) == p.difficultyProgress.Get(d)
    ensures q.lastStudyDate == now && q.userId == p.userId
  {
    var lists :=
      if isCorrect then (RemoveAll(p.weakWords, wordId), AddIfAbsent(p.masteredWords, wordId))
      else (AddIfAbsent(p.weakWords, wordId), p.masteredWords);
    p.(totalWordsStudied := p.totalWordsStudied + 1,
       correctAnswers := if isCorrect then p.correctAnswers + 1 else p.correctAnswers,
       incorrectAnswers := if isCorrect then p.incorrectAnswers else p.incorrectAnswers + 1,
       weakWords := lists.0,
       masteredWords := lists.1,
       categoryProgress := p.categoryProgress.Inc(word.category),
       difficultyProgress := p.difficultyProgress.Inc(word.difficulty),
       streakDays := NextStreak(p.streakDays, p.lastStudyDate, now),
       lastStudyDate := now)
  }

  /** `getAccuracyRate`: the percentage of answers that were correct, 0 before any answer. */
  function AccuracyRate(p: UserProgress): (r: real)
    ensures 0.0 <= r <= 100.0
    ensures p.correctAnswers + p.incorrectAnswers == 0 ==> r == 0.0
    ensures p.correctAnswers + p.incorrectAnswers > 0 ==>
      r * (p.correctAnswers + p.incorrectAnswers) as real == 100.0 * p.correctAnswers as real
  {
    var total := p.correctAnswers + p.incorrectAnswers;
    if total > 0 then
      var r := (p.correctAnswers as real / total as real) * 100.0;
      assert p.correctAnswers as real <= total as real;
      assert p.correctAnswers as real / total as real <= 1.0;
      r
    else 0.0
  }

  // ---------------------------------------------------------------- the record in memory

  /** A JavaScript array of word ids. Records share these objects after a shallow copy. */
  class IdList {
    var items: seq<string>

    constructor (items: seq<string>)
      ensures this.items == items
    {
      this.items := items;
    }
  }

  /** A `UserProgress` object: scalar fields in place, the two id lists by reference. */
  class ProgressRecord {
    var userId: string
    var totalWordsStudied: nat
    var correctAnswers: nat
    var incorrectAnswers: nat
    var streakDays: nat
    var lastStudyDate: int
    var weakWords: IdList
    var masteredWords: IdList
    var categoryProgress: CategoryTally
    var difficultyProgress: DifficultyTally

    /** What the object holds, read through its two list references. */
    function Value(): UserProgress
      reads this, weakWords, masteredWords
    {
      UserProgress(userId, totalWordsStudied, correctAnswers, incorrectAnswers, streakDays,
        lastStudyDate, weakWords.items, masteredWords.items, categoryProgress, difficultyProgress)
    }

    /** A record with lists of its own, as JSON.parse or an object literal creates it. */
    constructor (p: UserProgress)
      ensures Value() == p
      ensures fresh(weakWords) && fresh(masteredWords) && weakWords != masteredWords
    {
      userId := p.userId;
      totalWordsStudied := p.totalWordsStudied;
      correctAnswers := p.correctAnswers;
      incorrectAnswers := p.incorrectAnswers;
      streakDays := p.streakDays;
      lastStudyDate := p.lastStudyDate;
      weakWords := new IdList(p.weakWords);
      masteredWords := new IdList(p.masteredWords);
      categoryProgress := p.categoryProgress;
      difficultyProgress := p.difficultyProgress;
    }

    /** The list half of `recordQuizResult`: a correct answer gives the weak list a new, filtered
        array and pushes onto the mastered array if the id is missing; a wrong answer pushes onto
        the weak array if the id is missing. */
    method RecordLists(wordId: string, isCorrect: bool)
      requires weakWords != masteredWords
      modifies this`weakWords, weakWords, masteredWords
      ensures weakWords != masteredWords && masteredWords == old(masteredWords)
      ensures isCorrect ==> old(weakWords).items == old(weakWords.items)
      ensures isCorrect ==> (fresh(weakWords)
        && weakWords.items == RemoveAll(old(weakWords.items), wordId)
        && masteredWords.items == AddIfAbsent(old(masteredWords.items), wordId))
      ensures !isCorrect ==> (weakWords == old(weakWords)
        && weakWords.items == AddIfAbsent(old(weakWords.items), wordId)
        && masteredWords.items == old(masteredWords.items))
    {
      if isCorrect {
        weakWords := new IdList(RemoveAll(weakWords.items, wordId));
        if wordId !in masteredWords.items {
          masteredWords.items := masteredWords.items + [wordId];
        }
      } else {
        if wordId !in weakWords.items {
          weakWords.items := weakWords.items + [wordId];
        }
      }
    }

    /** The counter half of `recordQuizResult`: one more word studied, one more correct or wrong
        answer, one more in the word's category and difficulty, the streak advanced by the whole
        days since the last study date, and `now` as the new last study date. */
    method RecordCounts(isCorrect: bool, word: VocabularyWord, now: int)
      modifies this`totalWordsStudied, this`correctAnswers, this`incorrectAnswers,
        this`categoryProgress, this`difficultyProgress, this`streakDays, this`lastStudyDate
      ensures totalWordsStudied == old(totalWordsStudied) + 1
      ensures correctAnswers == if isCorrect then old(correctAnswers) + 1 else old(correctAnswers)
      ensures incorrectAnswers == if isCorrect then old(incorrectAnswers) else old(incorrectAnswers) + 1
      ensures categoryProgress == old(categoryProgress).Inc(word.category)
      ensures difficultyProgress == old(difficultyProgress).Inc(word.difficulty)
      ensures streakDays == NextStreak(old(streakDays), old(lastStudyDate), now)
      ensures lastStudyDate == now
    {
      totalWordsStudied := totalWordsStudied + 1;
      if isCorrect {
        correctAnswers := correctAnswers + 1;
      } else {
        incorrectAnswers := incorrectAnswers + 1;
      }
      categoryProgress := categoryProgress.Inc(word.category);
      difficultyProgress := difficultyProgress.Inc(word.difficulty);
      var daysDiff := DaysBetween(lastStudyDate, now);
      if daysDiff == 1 {
        streakDays := streakDays + 1;
      } else if daysDiff > 1 {
        streakDays := 1;
      }
      lastStudyDate := now;
    }

    /** `{ ...other }`: a new record whose list fields point at `other`'s lists. */
    constructor ShallowCopy(other: ProgressRecord)
      ensures Value() == other.Value()
      ensures weakWords == other.weakWords && masteredWords == other.masteredWords
    {
      userId := other.userId;
      totalWordsStudied := other.totalWordsStudied;
      correctAnswers := other.correctAnswers;
      incorrectAnswers := other.incorrectAnswers;
      streakDays := other.streakDays;
      lastStudyDate := other.lastStudyDate;
      weakWords := other.weakWords;
      masteredWords := other.masteredWords;
      categoryProgress := other.categoryProgress;
      difficultyProgress := other.difficultyProgress;
    }
  }

  /** `ProgressManager`: one record in memory and the localStorage slot it is saved to. */
  class ProgressManager {
    var progress: ProgressRecord
    const store: Slot<UserProgress>

    /** The two lists of the held record are different arrays. */
    ghost predicate Valid()
      reads this, progress
    {
      progress.weakWords != progress.masteredWords
    }

    /** `loadProgress`: the saved record when there is one, the default record otherwise. */
    constructor (store: Slot<UserProgress>, now: int)
      ensures Valid() && this.store == store && fresh(progress)
      ensures progress.Value() == if store.value.Some? then store.value.value else DefaultProgress(now)
    {
      this.store := store;
      progress := new ProgressRecord(if store.value.Some? then store.value.value else DefaultProgress(now));
    }

    /** `saveProgress`: the slot now holds the record as it is. */
    method SaveProgress()
      modifies store
      ensures store.value == Some(progress.Value())
    {
      store.value := Some(progress.Value());
    }

    /** `getProgress`: a shallow copy, so the caller's record shares both id lists. */
    method GetProgress() returns (copy: ProgressRecord)
      ensures fresh(copy) && copy.Value() == progress.Value()
      ensures copy.weakWords == progress.weakWords && copy.masteredWords == progress.masteredWords
    {
      copy := new ProgressRecord.ShallowCopy(progress);
    }

    /** `recordQuizResult(result, word)` answered at `now`: the record becomes `Recorded` of what it
        was and is saved. The correct branch replaces the weak list by a filtered new array and
        pushes onto the mastered array in place; the wrong branch pushes onto the weak array. */
    method RecordQuizResult(result: QuizResult, word: VocabularyWord, now: int)
      requires Valid()
      modifies progress, progress.weakWords, progress.masteredWords, store
      ensures Valid() && progress == old(progress)
      ensures progress.Value() == Recorded(old(progress.Value()), result.wordId, result.isCorrect, word, now)
      ensures progress.masteredWords == old(progress.masteredWords)
      ensures result.isCorrect ==> fresh(progress.weakWords)
      ensures result.isCorrect ==> old(progress.weakWords).items == old(progress.weakWords.items)
      ensures !result.isCorrect ==> progress.weakWords == old(progress.weakWords)
      ensures store.value == Some(progress.Value())
    {
      progress.RecordLists(result.wordId, result.isCorrect);
      progress.RecordCounts(result.isCorrect, word, now);
      SaveProgress();
    }

    /** `getAccuracyRate` */
    method GetAccuracyRate() returns (rate: real)
      ensures rate == AccuracyRate(progress.Value())
      ensures 0.0 <= rate <= 100.0
    {
      var total := progress.correctAnswers + progress.incorrectAnswers;
      rate := if total > 0 then (progress.correctAnswers as real / total as real) * 100.0 else 0.0;
    }

    /** `getWeakWords`: a copy of the weak list's contents. */
    method GetWeakWords() returns (ids: seq<string>)
      ensures ids == progress.weakWords.items
    {
      ids := progress.weakWords.items;
    }

    /** `getMasteredWords`: a copy of the mastered list's contents. */
    method GetMasteredWords() returns (ids: seq<string>)
      ensures ids == progress.masteredWords.items
    {
      ids := progress.masteredWords.items;
    }

    /** `resetProgress` at `now`: a new default record, saved. */
    method ResetProgress(now: int)
      modifies this, store
      ensures Valid() && fresh(progress)
      ensures progress.Value() == DefaultProgress(now)
      ensures store.value == Some(DefaultProgress(now))
    {
      progress := new ProgressRecord(DefaultProgress(now));
      SaveProgress();
    }
  }

  // ---------------------------------------------------------------- properties

  /** The list half of `recordQuizResult`. A correct answer takes the id out of the weak list
      (keeping the order of the rest) and leaves it in the mastered list; a wrong answer puts it
      in the weak list and never touches the mastered list, so an id can be in both. Both lists
      stay duplicate-free, and the recorded id then occurs exactly once in the list it joined. */
  lemma RecordedLists(p: UserProgress, wordId: string, isCorrect: bool, word: VocabularyWord, now: int)
    ensures var q := Recorded(p, wordId, isCorrect, word, now);
      (isCorrect ==>
        wordId !in q.weakWords && wordId in q.masteredWords
        && IsSubsequence(q.weakWords, p.weakWords)
        && (forall x :: x != wordId ==> multiset(q.weakWords)[x] == multiset(p.weakWords)[x])
        && (forall x :: x in q.masteredWords <==> x in p.masteredWords || x == wordId))
      && (!isCorrect ==>
        wordId in q.weakWords && q.masteredWords == p.masteredWords
        && (forall x :: x in q.weakWords <==> x in p.weakWords || x == wordId))
    ensures var q := Recorded(p, wordId, isCorrect, word, now);
      NoDup(p.weakWords) && NoDup(p.masteredWords) ==>
        NoDup(q.weakWords) && NoDup(q.masteredWords)
        && (isCorrect ==> multiset(q.masteredWords)[wordId] == 1)
        && (!isCorrect ==> multiset(q.weakWords)[wordId] == 1)
  {
    if isCorrect {
      RemoveAllSpec(p.weakWords, wordId);
      AddIfAbsentSpec(p.masteredWords, wordId);
    } else {
      AddIfAbsentSpec(p.weakWords, wordId);
    }
  }

  /** A sequence of answers, each with the catalog word asked and the time it was given. */
  datatype Answer = Answer(wordId: string, isCorrect: bool, word: VocabularyWord, now: int)

  /** The record after `recordQuizResult` was called once per answer, in order. */
  function Replay(p: UserProgress, answers: seq<Answer>): UserProgress
    decreases |answers|
  {
    if answers == [] then p
    else
      var a := answers[0];
      Replay(Recorded(p, a.wordId, a.isCorrect, a.word, a.now), answers[1..])
  }

  /** Every answer is counted once in the total, once in correct-or-incorrect, once in a
      category tally and once in a difficulty tally. */
  ghost predicate TalliesAgree(p: UserProgress)
  {
    p.categoryProgress.Sum() == p.totalWordsStudied
    && p.difficultyProgress.Sum() == p.totalWordsStudied
    && p.correctAnswers + p.incorrectAnswers == p.totalWordsStudied
  }

  /** Replaying answers keeps the tallies in agreement and adds one to the total per answer. */
  lemma {:induction false} ReplayTallies(p: UserProgress, answers: seq<Answer>)
    requires TalliesAgree(p)
    ensures TalliesAgree(Replay(p, answers))
    ensures Replay(p, answers).totalWordsStudied == p.totalWordsStudied + |answers|
    decreases |answers|
  {
    if answers != [] {
      var a := answers[0];
      var q := Recorded(p, a.wordId, a.isCorrect, a.word, a.now);
      assert q.categoryProgress == p.categoryProgress.Inc(a.word.category);
      assert q.difficultyProgress == p.difficultyProgress.Inc(a.word.difficulty);
      ReplayTallies(q, answers[1..]);
    }
  }

  /** From a fresh record, the category tallies and the difficulty tallies each sum to the number
      of answers given, and so do the correct and incorrect counts. */
  lemma FromDefaultTallies(start: int, answers: seq<Answer>)
    ensures var q := Replay(DefaultProgress(start), answers);
      q.totalWordsStudied == |answers|
      && q.categoryProgress.Sum() == |answers| && q.difficultyProgress.Sum() == |answers|
      && q.correctAnswers + q.incorrectAnswers == |answers|
  {
    ReplayTallies(DefaultProgress(start), answers);
  }

  /** Replaying answers never introduces a duplicate id in either list. */
  lemma {:induction false} ReplayNoDup(p: UserProgress, answers: seq<Answer>)
    requires NoDup(p.weakWords) && NoDup(p.masteredWords)
    ensures NoDup(Replay(p, answers).weakWords) && NoDup(Replay(p, answers).masteredWords)
    decreases |answers|
  {
    if answers != [] {
      var a := answers[0];
      RecordedLists(p, a.wordId, a.isCorrect, a.word, a.now);
      ReplayNoDup(Recorded(p, a.wordId, a.isCorrect, a.word, a.now), answers[1..]);
    }
  }

  /** All answers fall within one day-long window that also holds the last study date: the
      streak does not move, so from a fresh record same-day practice leaves it at 0. */
  lemma {:induction false} SameDayStreak(p: UserProgress, answers: seq<Answer>, from: int)
    requires from <= p.lastStudyDate
    requires forall k :: 0 <= k < |answers| ==> from <= answers[k].now < from + MsPerDay
    ensures Replay(p, answers).streakDays == p.streakDays
    decreases |answers|
  {
    if answers != [] {
      var a := answers[0];
      var q := Recorded(p, a.wordId, a.isCorrect, a.word, a.now);
      assert q.streakDays == p.streakDays;
      forall k | 0 <= k < |answers[1..]|
        ensures from <= answers[1..][k].now < from + MsPerDay
      {
        assert answers[1..][k] == answers[k + 1];
      }
      SameDayStreak(q, answers[1..], from);
    }
  }
}
