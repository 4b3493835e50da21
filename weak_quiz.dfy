/** components/weak-words/weak-word-quiz.tsx: a short quiz over the learner's weak words. Each
    answer is recorded with the tracker and the quiz steps to the next word or completes. */
module WeakQuiz {
  import opened Seqs
  import opened Catalog
  import opened LocalStorage
  import opened Progress
  import opened QuizCard
  import opened Text

  /** `loadWeakWords`: the first five weak catalog words, or the first three catalog words when
      no catalog word is weak. */
  function QuizWords(weakIds: seq<string>): seq<VocabularyWord>
  {
    var weak := EntriesWithIds(weakIds);
    if |weak| == 0 then Take(Vocabulary, 3) else Take(weak, 5)
  }

  /** The quiz always has between one and five words, all catalog words, in catalog order, none
      twice. With weak words it is their first five in catalog order; without, it is the first
      three catalog words, none of them weak. So the "No Weak Words" screen, shown for an empty
      word list, is never reached with this catalog. */
  lemma QuizWordsSpec(weakIds: seq<string>)
    ensures 1 <= |QuizWords(weakIds)| <= 5
    ensures forall w :: w in QuizWords(weakIds) ==> w in Vocabulary
    ensures IsSubsequence(QuizWords(weakIds), Vocabulary) && NoDup(QuizWords(weakIds))
    ensures EntriesWithIds(weakIds) != [] ==>
      QuizWords(weakIds) <= EntriesWithIds(weakIds)
      && |QuizWords(weakIds)| == (if |EntriesWithIds(weakIds)| < 5 then |EntriesWithIds(weakIds)| else 5)
      && forall w :: w in QuizWords(weakIds) ==> w.id in weakIds
    ensures EntriesWithIds(weakIds) == [] ==>
      QuizWords(weakIds) == Vocabulary[..3] && forall w :: w in QuizWords(weakIds) ==> w.id !in weakIds
  {
    var weak := EntriesWithIds(weakIds);
    EntriesWithIdsSpec(weakIds);
    CatalogNoDup();
    if |weak| == 0 {
      TakeSpec(Vocabulary, 3);
      forall w | w in Take(Vocabulary, 3) ensures w.id !in weakIds {
        assert w in Vocabulary;
        assert w !in weak;
      }
    } else {
      TakeSpec(weak, 5);
      SubsequenceTrans(Take(weak, 5), weak, Vocabulary);
    }
  }

  /** The quiz component's state: its words, the current question, the results so far and
      whether the quiz is complete, over the tracker that records every answer. */
  class WeakQuizSession {
    const tracker: ProgressManager
    var words: seq<VocabularyWord>
    var index: nat
    var results: seq<QuizResult>
    var complete: bool

    /** The index stays on a word; there is one result per question answered, for that
        question's word; the quiz completes only on its last word. */
    ghost predicate Valid()
      reads this, tracker, tracker.progress
    {
      tracker.Valid()
      && (words != [] ==> index < |words|)
      && |results| == index + (if complete then 1 else 0)
      && (complete ==> index == |words| - 1)
      && forall k :: 0 <= k < |results| ==>
           k < |words| && results[k].wordId == words[k].id && results[k].correctAnswer == words[k].word
    }

    /** Mounting: `loadWeakWords` over the tracker's record, at the first question. */
    constructor (tracker: ProgressManager)
      requires tracker.Valid()
      ensures Valid() && this.tracker == tracker
      ensures words == QuizWords(tracker.progress.weakWords.items)
      ensures index == 0 && results == [] && !complete
    {
      this.tracker := tracker;
      var progress := tracker.GetProgress();
      words := QuizWords(progress.weakWords.items);
      index := 0;
      results := [];
      complete := false;
    }

    /** `handleAnswer(isCorrect, userAnswer, timeTaken)` at time `now`, for the question on
        screen: one result for the current word, recorded once with the tracker, appended to the
        results; then the next question, or completion after the last one. */
    method Answer(isCorrect: bool, userAnswer: string, timeTaken: int, now: int)
      requires Valid() && !complete && index < |words|
      modifies this`index, this`results, this`complete
      modifies tracker.progress, tracker.progress.weakWords, tracker.progress.masteredWords, tracker.store
      ensures Valid() && words == old(words)
      ensures var w := words[old(index)];
        results == old(results) + [QuizResult(w.id, isCorrect, userAnswer, w.word, now, timeTaken)]
        && tracker.progress.Value() == Recorded(old(tracker.progress.Value()), w.id, isCorrect, w, now)
      ensures tracker.store.value == Some(tracker.progress.Value())
      ensures isCorrect ==> old(tracker.progress.weakWords).items == old(tracker.progress.weakWords.items)
      ensures old(index) < |words| - 1 ==> index == old(index) + 1 && !complete
      ensures old(index) == |words| - 1 ==> index == old(index) && complete && |results| == |words|
    {
      var current := words[index];
      var result := QuizResult(current.id, isCorrect, userAnswer, current.word, now, timeTaken);
      tracker.RecordQuizResult(result, current, now);
      results := results + [result];
      if index < |words| - 1 {
        index := index + 1;
      } else {
        complete := true;
      }
    }
  }

  /** The quiz screen: the session and the `QuizCard` rendered for the current question. As
      written the card carries no `key`, so when the question changes React renders the SAME
      card again with the next word, keeping its shown result; `keyed` stands for a card
      rendered with `key={currentQuestionIndex}`, which React mounts afresh for each question. */
  class WeakQuizScreen {
    const keyed: bool
    const session: WeakQuizSession
    var card: Card

    /** The card shows the current word. A keyed card shows a result exactly when the quiz is
        complete; an unkeyed card has reported exactly the answers the session holds. */
    ghost predicate Valid()
      reads this, card, session, session.tracker, session.tracker.progress
    {
      session.Valid() && card.Valid()
      && session.index < |session.words|
      && card.word == session.words[session.index]
      && (if keyed then (session.complete <==> card.showResult)
          else |session.results| == |card.calls|)
    }

    /** Mounting the quiz over the tracker's record at `startTime`: the first word, on a new card. */
    constructor (tracker: ProgressManager, keyed: bool, startTime: int)
      requires tracker.Valid()
      ensures Valid() && this.keyed == keyed && session.tracker == tracker
      ensures session.words == QuizWords(tracker.progress.weakWords.items)
      ensures session.index == 0 && session.results == [] && !session.complete
      ensures card.userAnswer == "" && !card.showResult && card.calls == [] && card.startTime == startTime
    {
      this.keyed := keyed;
      var s := new WeakQuizSession(tracker);
      QuizWordsSpec(tracker.progress.weakWords.items);
      session := s;
      card := new Card(s.words[0], startTime);
    }

    /** Typing into the card's input while the quiz is on screen. */
    method Type(text: string)
      requires Valid() && !session.complete
      modifies card`userAnswer
      ensures Valid()
      ensures card.userAnswer == if card.showResult then old(card.userAnswer) else text
    {
      card.Type(text);
    }

    /** Enter or Submit on the card at time `now`. When the card fires, `handleAnswer` records
        the answer with the session, and the next word is rendered: on the same card as
        written, on a new card when keyed. */
    method Submit(now: int) returns (fired: bool)
      requires Valid() && !session.complete
      modifies this`card, card, session
      modifies session.tracker.progress, session.tracker.progress.weakWords,
        session.tracker.progress.masteredWords, session.tracker.store
      ensures Valid() && session.words == old(session.words)
      ensures fired <==> CanSubmit(old(card.userAnswer), old(card.showResult))
      ensures fired ==> var w := old(session.words[session.index]);
        var answer := old(card.userAnswer);
        var correct := IsCorrect(answer, w.word);
        session.results == old(session.results)
          + [QuizResult(w.id, correct, answer, w.word, now, TimeTaken(old(card.startTime), now))]
        && session.tracker.progress.Value() == Recorded(old(session.tracker.progress.Value()), w.id, correct, w, now)
        && (correct ==> old(session.tracker.progress.weakWords).items == old(session.tracker.progress.weakWords.items))
      ensures fired ==> session.tracker.store.value == Some(session.tracker.progress.Value())
      ensures fired ==> (session.complete <==> old(session.index) == |session.words| - 1)
      ensures fired && !session.complete ==> session.index == old(session.index) + 1
      ensures !fired ==> session.results == old(session.results) && session.index == old(session.index)
      ensures !fired ==> !session.complete
      ensures !fired ==> session.tracker.progress.Value() == old(session.tracker.progress.Value())
      ensures !fired ==> session.tracker.store.value == old(session.tracker.store.value)
      ensures !fired ==> card == old(card) && card.word == old(card.word)
      ensures !fired ==> card.userAnswer == old(card.userAnswer) && card.showResult == old(card.showResult)
      ensures !fired ==> card.isCorrect == old(card.isCorrect) && card.calls == old(card.calls)
      ensures fired && !keyed ==> card == old(card) && card.showResult
      ensures fired && !keyed ==>
        card.calls == old(card.calls) + [AnswerCall(card.isCorrect, old(card.userAnswer), TimeTaken(old(card.startTime), now))]
      ensures fired && keyed && !session.complete ==> fresh(card)
      ensures keyed ==> (fired <==> Trim(old(card.userAnswer)) != "")
      ensures keyed && fired && !session.complete ==> !card.showResult && card.userAnswer == "" && card.calls == []
      ensures !keyed ==> |session.results| <= 1
    {
      fired := card.Submit(now);
      if fired {
        session.Answer(card.isCorrect, card.userAnswer, TimeTaken(card.startTime, now), now);
        if !session.complete {
          var next := session.words[session.index];
          if keyed {
            card := new Card(next, now);
          } else {
            card.Rerender(next);
          }
        }
      }
    }
  }

  /** As written: the unkeyed card reports one answer at most, so the screen holds at most one
      result and a quiz of two or more words never completes. */
  lemma UnkeyedScreenStalls(s: WeakQuizScreen)
    requires s.Valid() && !s.keyed
    ensures |s.session.results| <= 1
    ensures |s.session.words| >= 2 ==> !s.session.complete
  {
  }

  /** With a keyed card every question is answerable: until the quiz completes the card shows
      no result, so a non-blank answer always fires, and completion comes with one result per
      word. */
  lemma KeyedScreenAdvances(s: WeakQuizScreen)
    requires s.Valid() && s.keyed
    ensures !s.session.complete ==> !s.card.showResult && |s.session.results| == s.session.index
    ensures s.session.complete ==> |s.session.results| == |s.session.words|
  {
  }
}
