/** app/quiz/page.tsx: a quiz over the learner's custom words. The learner types the
    definition of the word shown, gets feedback, and moves on; the word list wraps around. */
module QuizPage {
  import opened Text
  import opened LocalStorage
  import opened CustomVocabulary

  const CorrectFeedback := "✅ Correct!"
  const IncorrectPrefix := "❌ Incorrect. Correct answer: "

  /** `userAnswer.toLowerCase().trim() === definition.toLowerCase().trim()`: unlike the quiz
      card, both sides are trimmed. */
  predicate DefinitionMatches(userAnswer: string, definition: string)
  {
    Trim(ToLower(userAnswer)) == Trim(ToLower(definition))
  }

  /** The feedback line `handleSubmitAnswer` sets. */
  function Feedback(userAnswer: string, definition: string): string
  {
    if DefinitionMatches(userAnswer, definition) then CorrectFeedback else IncorrectPrefix + definition
  }

  /** `prev + 1 < words.length ? prev + 1 : 0` */
  function NextIndex(i: nat, n: nat): (j: nat)
    requires i < n
    ensures j < n
    ensures j == (i + 1) % n
  {
    if i + 1 < n then i + 1 else 0
  }

  // ---------------------------------------------------------------- properties

  /** The feedback says "Correct" exactly for a matching answer; otherwise it ends with the
      definition as stored. */
  lemma FeedbackSpec(userAnswer: string, definition: string)
    ensures Feedback(userAnswer, definition) == CorrectFeedback <==> DefinitionMatches(userAnswer, definition)
    ensures !DefinitionMatches(userAnswer, definition) ==>
      Feedback(userAnswer, definition)[|IncorrectPrefix|..] == definition
  {
    if !DefinitionMatches(userAnswer, definition) {
      assert Feedback(userAnswer, definition)[0] == '❌' != CorrectFeedback[0];
    }
  }

  /** Whitespace around the answer and its letter case do not matter, and neither does
      whitespace around the stored definition. */
  lemma MatchIgnoresPaddingAndCase(pre: string, answer: string, post: string, definition: string)
    requires AllWhitespace(pre) && AllWhitespace(post)
    ensures DefinitionMatches(pre + answer + post, definition) == DefinitionMatches(answer, definition)
    ensures DefinitionMatches(answer, pre + definition + post) == DefinitionMatches(answer, definition)
    ensures DefinitionMatches(ToLower(answer), definition) == DefinitionMatches(answer, definition)
  {
    LowerPadded(pre, answer, post);
    LowerPadded(pre, definition, post);
    ToLowerIdempotent(answer);
  }

  lemma LowerPadded(pre: string, s: string, post: string)
    requires AllWhitespace(pre) && AllWhitespace(post)
    ensures Trim(ToLower(pre + s + post)) == Trim(ToLower(s))
  {
    ToLowerAppend(pre + s, post);
    ToLowerAppend(pre, s);
    ToLowerWhitespace(pre);
    ToLowerWhitespace(post);
    TrimPadded(pre, ToLower(s), post);
  }

  // ---------------------------------------------------------------- the page

  /** The page's state. `words` is read once from the custom vocabulary when the page mounts;
      `feedback` is `null` as `None`. The page holds no tracker, so nothing it does reaches the
      learner's progress. */
  class QuizPageState {
    var words: seq<CustomWord>
    var started: bool
    var index: nat
    var userAnswer: string
    var feedback: Option<string>

    /** A started quiz always points at a word. */
    ghost predicate Valid()
      reads this
    {
      started ==> index < |words|
    }

    /** Mounting: the custom words, not started, at the first word, nothing typed. */
    constructor (vocabulary: CustomVocabularyManager)
      ensures Valid()
      ensures words == vocabulary.customWords
      ensures !started && index == 0 && userAnswer == "" && feedback == None
    {
      words := vocabulary.customWords;
      started := false;
      index := 0;
      userAnswer := "";
      feedback := None;
    }

    /** `handleStartQuiz`: nothing happens without words; otherwise the quiz starts at the
        first word with the answer and the feedback cleared. */
    method Start()
      requires Valid()
      modifies this`started, this`index, this`userAnswer, this`feedback
      ensures Valid()
      ensures words == [] ==> (started == old(started) && index == old(index)
        && userAnswer == old(userAnswer) && feedback == old(feedback))
      ensures words != [] ==> started && index == 0 && userAnswer == "" && feedback == None
    {
      if |words| == 0 {
        return;
      }
      started := true;
      index := 0;
      userAnswer := "";
      feedback := None;
    }

    /** Typing into the answer field. */
    method Type(text: string)
      modifies this`userAnswer
      ensures userAnswer == text
    {
      userAnswer := text;
    }

    /** `handleSubmitAnswer`, behind the Submit button that shows while there is no feedback:
        the feedback for the typed answer against the current word's definition. */
    method Submit()
      requires Valid() && started && feedback == None
      modifies this`feedback
      ensures Valid()
      ensures feedback == Some(Feedback(userAnswer, words[index].content.definition))
    {
      var definition := words[index].content.definition;
      if Trim(ToLower(userAnswer)) == Trim(ToLower(definition)) {
        feedback := Some(CorrectFeedback);
      } else {
        feedback := Some(IncorrectPrefix + definition);
      }
    }

    /** `handleNext`, behind the Next button that shows with the feedback: the next word,
        wrapping to the first after the last, with the answer and the feedback cleared. */
    method Next()
      requires Valid() && started
      modifies this`index, this`userAnswer, this`feedback
      ensures Valid()
      ensures index == (old(index) + 1) % |words|
      ensures userAnswer == "" && feedback == None
    {
      index := NextIndex(index, |words|);
      userAnswer := "";
      feedback := None;
    }
  }
}
