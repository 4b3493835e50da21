/** components/manage/add-word-form.tsx: the form that adds one custom word from its word,
    definition, example sentence and memo. */
module AddWordForm {
  import opened Catalog
  import opened LocalStorage
  import opened CustomVocabulary

  /** The guard `!word || !definition || !exampleSentence`, negated: all three are non-empty. */
  predicate CanAdd(word: string, definition: string, exampleSentence: string)
  {
    word != "" && definition != "" && exampleSentence != ""
  }

  /** The object handed to `addWord`: the typed text, the memo as it is (possibly empty), and
      the fixed blank position 0, "intermediate", "daily" and "noun". */
  function FormFields(word: string, definition: string, exampleSentence: string, notes: string): WordFields
  {
    WordFields(word, definition, exampleSentence, 0, Intermediate, Daily, "noun", Some(notes))
  }

  /** The form applies the same test and the same defaults as `importWords` does to an entry
      that carries only the three required fields; the only difference is that the form always
      passes its memo. */
  lemma FormAgreesWithImport(word: string, definition: string, exampleSentence: string, notes: string)
    ensures var e := ImportEntry.Fields(Some(word), Some(definition), Some(exampleSentence), None, None, None, None);
      (CanAdd(word, definition, exampleSentence) <==> Accepted(e))
      && (Accepted(e) ==> FormFields(word, definition, exampleSentence, notes) == Defaulted(e).(notes := Some(notes)))
  {
  }

  /** The four input fields, the count of `onWordAdded` calls, and the store the form adds to. */
  class Form {
    const vocabulary: CustomVocabularyManager
    var word: string
    var definition: string
    var exampleSentence: string
    var notes: string
    var addedCalls: nat

    constructor (vocabulary: CustomVocabularyManager)
      ensures this.vocabulary == vocabulary
      ensures word == "" && definition == "" && exampleSentence == "" && notes == "" && addedCalls == 0
    {
      this.vocabulary := vocabulary;
      word := "";
      definition := "";
      exampleSentence := "";
      notes := "";
      addedCalls := 0;
    }

    /** `handleSubmit` at time `now`, with `suffix` for the id's random part. With an empty
        required field nothing happens. Otherwise exactly one word is added with the form's
        fields, the four inputs are cleared and `onWordAdded` is called once. */
    method Submit(now: nat, suffix: string) returns (added: bool)
      modifies this, vocabulary, vocabulary.store
      ensures added <==> CanAdd(old(word), old(definition), old(exampleSentence))
      ensures !added ==> (word == old(word) && definition == old(definition)
        && exampleSentence == old(exampleSentence) && notes == old(notes) && addedCalls == old(addedCalls)
        && vocabulary.customWords == old(vocabulary.customWords)
        && vocabulary.store.value == old(vocabulary.store.value))
      ensures added ==> (vocabulary.customWords == old(vocabulary.customWords)
          + [CustomWord(NewId(now, suffix), FormFields(old(word), old(definition), old(exampleSentence), old(notes)),
                        true, now, "user")]
        && vocabulary.store.value == Some(vocabulary.customWords)
        && word == "" && definition == "" && exampleSentence == "" && notes == ""
        && addedCalls == old(addedCalls) + 1)
    {
      if word == "" || definition == "" || exampleSentence == "" {
        return false;
      }
      var _ := vocabulary.AddWord(FormFields(word, definition, exampleSentence, notes), now, suffix);
      word := "";
      definition := "";
      exampleSentence := "";
      notes := "";
      addedCalls := addedCalls + 1;
      added := true;
    }
  }
}
