/** components/quiz/quiz-card.tsx: one fill-in-the-blank question. The example sentence is shown
    with the token at `blankPosition` replaced by a blank, and one answer is accepted. */
module QuizCard {
  import opened Text
  import opened Catalog

  /** The placeholder that replaces the blanked token. */
  const Blank := "______"

  /** `words.map((w, index) => index === blankPosition ? "______" : w)` */
  function BlankTokens(tokens: seq<string>, blankPosition: int): seq<string>
  {
    seq(|tokens|, i requires 0 <= i < |tokens| => if i == blankPosition then Blank else tokens[i])
  }

  /** The sentence shown with the question: split on " ", blank one token, join with " ". */
  function BlankSentence(w: VocabularyWord): string
  {
    Join(BlankTokens(Split(w.exampleSentence), w.blankPosition))
  }

  /** `userAnswer.toLowerCase().trim() === word.word.toLowerCase()` */
  function IsCorrect(userAnswer: string, word: string): bool
  {
    Trim(ToLower(userAnswer)) == ToLower(word)
  }

  /** `Math.floor((now - startTime) / 1000)`: whole seconds elapsed. */
  function TimeTaken(startTime: int, now: int): (t: int)
    ensures now >= startTime ==> t >= 0
    ensures t * 1000 <= now - startTime < (t + 1) * 1000
  {
    (now - startTime) / 1000
  }

  /** The guard of the Enter key and of the Submit button: a non-blank answer and no result shown. */
  predicate CanSubmit(userAnswer: string, showResult: bool)
  {
    Trim(userAnswer) != "" && !showResult
  }

  // ---------------------------------------------------------------- properties

  /** The blanked sentence has as many tokens as the example sentence; the token at
      `blankPosition` is the blank and every other token is unchanged. With `blankPosition`
      outside the token range the sentence is shown unchanged. */
  lemma BlankSentenceSpec(w: VocabularyWord)
    ensures |Split(BlankSentence(w))| == |Split(w.exampleSentence)|
    ensures forall i :: 0 <= i < |Split(w.exampleSentence)| ==>
      Split(BlankSentence(w))[i] == if i == w.blankPosition then Blank else Split(w.exampleSentence)[i]
    ensures !(0 <= w.blankPosition < |Split(w.exampleSentence)|) ==> BlankSentence(w) == w.exampleSentence
  {
    var tokens := Split(w.exampleSentence);
    SplitShape(w.exampleSentence);
    var blanked := BlankTokens(tokens, w.blankPosition);
    forall t | t in blanked ensures ' ' !in t {
      var i :| 0 <= i < |blanked| && blanked[i] == t;
      if i != w.blankPosition {
        assert t == tokens[i];
      }
    }
    SplitJoin(blanked);
    if !(0 <= w.blankPosition < |tokens|) {
      assert blanked == tokens;
    }
  }

  /** When the blank position is right (as BlankPositionMarksWord shows for eight of the ten
      catalog entries), the blank stands exactly where the word was. */
  lemma BlankHidesMarkedWord(w: VocabularyWord)
    requires BlankMarksWord(w)
    ensures |Split(BlankSentence(w))| == |Split(w.exampleSentence)|
    ensures 0 <= w.blankPosition < |Split(BlankSentence(w))|
    ensures Split(BlankSentence(w))[w.blankPosition] == Blank
    ensures forall i :: 0 <= i < |Split(w.exampleSentence)| && i != w.blankPosition ==>
      Split(BlankSentence(w))[i] == Split(w.exampleSentence)[i]
  {
    BlankSentenceSpec(w);
  }

  /** Whitespace around the answer and the answer's letter case do not matter. */
  lemma CorrectIgnoresPaddingAndCase(pre: string, answer: string, post: string, word: string)
    requires AllWhitespace(pre) && AllWhitespace(post)
    ensures IsCorrect(pre + answer + post, word) == IsCorrect(answer, word)
    ensures IsCorrect(ToLower(answer), word) == IsCorrect(answer, word)
  {
    ToLowerAppend(pre + answer, post);
    ToLowerAppend(pre, answer);
    ToLowerWhitespace(pre);
    ToLowerWhitespace(post);
    TrimPadded(pre, ToLower(answer), post);
    ToLowerIdempotent(answer);
  }

  /** The word itself, typed as it is, is accepted unless it starts or ends with whitespace. */
  lemma WordIsAccepted(word: string)
    requires word != [] ==> !IsWhitespace(word[0]) && !IsWhitespace(word[|word| - 1])
    ensures IsCorrect(word, word)
  {
    var l := ToLower(word);
    if l != [] {
      assert !IsWhitespace(l[0]) && !IsWhitespace(l[|l| - 1]);
      assert TrimStart(l) == l;
      assert TrimEnd(l) == l;
    }
  }

  /** The word is not trimmed: a word stored with leading or trailing whitespace is rejected
      for every answer. */
  lemma PaddedWordUnanswerable(answer: string, word: string)
    requires word != [] && (IsWhitespace(word[0]) || IsWhitespace(word[|word| - 1]))
    ensures !IsCorrect(answer, word)
  {
    TrimStripsBothEnds(ToLower(answer));
    TrimStartStrips(ToLower(answer));
    var l := ToLower(word);
    assert l[0] == word[0] || l[|l| - 1] == word[|word| - 1];
    assert IsWhitespace(l[0]) || IsWhitespace(l[|l| - 1]);
  }

  // ---------------------------------------------------------------- the card

  /** One `onAnswer(isCorrect, userAnswer, timeTaken)` call. */
  datatype AnswerCall = AnswerCall(isCorrect: bool, userAnswer: string, timeTaken: int)

  /** `QuizCard`'s state: the `word` prop, the typed answer, whether the result is shown, the
      verdict, the start time, and the `onAnswer` calls made so far. */
  class Card {
    var word: VocabularyWord
    const startTime: int
    var userAnswer: string
    var showResult: bool
    var isCorrect: bool
    var calls: seq<AnswerCall>

    /** The result is shown exactly when `onAnswer` has fired, and it has fired at most once,
        with the verdict the card shows. */
    ghost predicate Valid()
      reads this
    {
      |calls| == (if showResult then 1 else 0)
      && (showResult ==> calls[0].isCorrect == isCorrect && calls[0].userAnswer == userAnswer)
    }

    /** A new card for `word`, mounted at `startTime`. */
    constructor (word: VocabularyWord, startTime: int)
      ensures Valid() && this.word == word && this.startTime == startTime
      ensures userAnswer == "" && !showResult && !isCorrect && calls == []
    {
      this.word := word;
      this.startTime := startTime;
      userAnswer := "";
      showResult := false;
      isCorrect := false;
      calls := [];
    }

    /** Typing into the input, which is rendered only until the result is shown. */
    method Type(text: string)
      requires Valid()
      modifies this`userAnswer
      ensures Valid()
      ensures userAnswer == if old(showResult) then old(userAnswer) else text
    {
      if !showResult {
        userAnswer := text;
      }
    }

    /** The parent renders the same card again with the prop `word`: the prop changes and the
        card's own state (answer, shown result, verdict, start time) is kept. */
    method Rerender(word: VocabularyWord)
      requires Valid()
      modifies this`word
      ensures Valid() && this.word == word
    {
      this.word := word;
    }

    /** Enter in the input or a click on Submit at time `now`: `handleSubmit` runs only when the
        trimmed answer is non-empty and no result is shown. */
    method Submit(now: int) returns (fired: bool)
      requires Valid()
      modifies this`showResult, this`isCorrect, this`calls
      ensures Valid()
      ensures fired <==> CanSubmit(old(userAnswer), old(showResult))
      ensures fired ==> (showResult && isCorrect == IsCorrect(userAnswer, word.word)
        && calls == old(calls) + [AnswerCall(isCorrect, userAnswer, TimeTaken(startTime, now))])
      ensures !fired ==> showResult == old(showResult) && isCorrect == old(isCorrect) && calls == old(calls)
    {
      fired := CanSubmit(userAnswer, showResult);
      if fired {
        HandleSubmit(now);
      }
    }

    /** `handleSubmit`: compute the verdict, show it, and report it. */
    method HandleSubmit(now: int)
      requires Valid() && !showResult
      modifies this`showResult, this`isCorrect, this`calls
      ensures Valid() && showResult
      ensures isCorrect == IsCorrect(userAnswer, word.word)
      ensures calls == old(calls) + [AnswerCall(isCorrect, userAnswer, TimeTaken(startTime, now))]
    {
      var timeTaken := TimeTaken(startTime, now);
      var correct := IsCorrect(userAnswer, word.word);
      isCorrect := correct;
      showResult := true;
      calls := calls + [AnswerCall(correct, userAnswer, timeTaken)];
    }
  }
}
