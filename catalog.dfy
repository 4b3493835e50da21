/** lib/vocabulary-data.ts: the built-in catalog of ten TOEIC words and its filters. */
module Catalog {
  import opened Seqs
  import opened Text

  datatype Difficulty = Beginner | Intermediate | Advanced
  datatype Category = Business | Travel | Daily | Academic

  /** A catalog entry. `blankPosition` is documented as the word's zero-based index among the
      space-separated tokens of `exampleSentence`; see BlankPositionMarksWord for how far that holds. */
  datatype VocabularyWord = VocabularyWord(
    id: string,
    word: string,
    definition: string,
    exampleSentence: string,
    blankPosition: int,
    difficulty: Difficulty,
    category: Category,
    partOfSpeech: string)

  /** `toeicVocabulary`, entry for entry (each example sentence is written as its words joined by single spaces). */
  const Sentence1Words: seq<string> := ["We", "need", "to", "accomplish", "this", "project", "by", "the", "end", "of", "the", "month."]
  const Sentence1: string := Join(Sentence1Words)
  const Entry1 := VocabularyWord(
      id := "1", word := "accomplish",
      definition := "to complete or achieve something successfully",
      exampleSentence := Sentence1,
      blankPosition := 3, difficulty := Intermediate, category := Business, partOfSpeech := "verb")

  const Sentence2Words: seq<string> := ["The", "hotel", "can", "accommodate", "up", "to", "200", "guests."]
  const Sentence2: string := Join(Sentence2Words)
  const Entry2 := VocabularyWord(
      id := "2", word := "accommodate",
      definition := "to provide space or facilities for someone or something",
      exampleSentence := Sentence2,
      blankPosition := 4, difficulty := Intermediate, category := Travel, partOfSpeech := "verb")

  const Sentence3Words: seq<string> := ["The", "company", "plans", "to", "acquire", "new", "technology", "this", "year."]
  const Sentence3: string := Join(Sentence3Words)
  const Entry3 := VocabularyWord(
      id := "3", word := "acquire",
      definition := "to obtain or get something",
      exampleSentence := Sentence3,
      blankPosition := 5, difficulty := Advanced, category := Business, partOfSpeech := "verb")

  const Sentence4Words: seq<string> := ["We", "need", "adequate", "funding", "for", "this", "research", "project."]
  const Sentence4: string := Join(Sentence4Words)
  const Entry4 := VocabularyWord(
      id := "4", word := "adequate",
      definition := "sufficient or satisfactory",
      exampleSentence := Sentence4,
      blankPosition := 2, difficulty := Intermediate, category := Academic, partOfSpeech := "adjective")

  const Sentence5Words: seq<string> := ["The", "parking", "lot", "is", "adjacent", "to", "the", "main", "building."]
  const Sentence5: string := Join(Sentence5Words)
  const Entry5 := VocabularyWord(
      id := "5", word := "adjacent",
      definition := "next to or adjoining something",
      exampleSentence := Sentence5,
      blankPosition := 4, difficulty := Advanced, category := Daily, partOfSpeech := "adjective")

  const Sentence6Words: seq<string> := ["Please", "review", "the", "agenda", "before", "tomorrow's", "meeting."]
  const Sentence6: string := Join(Sentence6Words)
  const Entry6 := VocabularyWord(
      id := "6", word := "agenda",
      definition := "a list of items to be discussed at a meeting",
      exampleSentence := Sentence6,
      blankPosition := 3, difficulty := Intermediate, category := Business, partOfSpeech := "noun")

  const Sentence7Words: seq<string> := ["We", "need", "to", "allocate", "more", "budget", "to", "marketing."]
  const Sentence7: string := Join(Sentence7Words)
  const Entry7 := VocabularyWord(
      id := "7", word := "allocate",
      definition := "to distribute or assign resources",
      exampleSentence := Sentence7,
      blankPosition := 3, difficulty := Advanced, category := Business, partOfSpeech := "verb")

  const Sentence8Words: seq<string> := ["We", "anticipate", "a", "20%", "increase", "in", "sales", "next", "quarter."]
  const Sentence8: string := Join(Sentence8Words)
  const Entry8 := VocabularyWord(
      id := "8", word := "anticipate",
      definition := "to expect or predict something",
      exampleSentence := Sentence8,
      blankPosition := 1, difficulty := Intermediate, category := Business, partOfSpeech := "verb")

  const Sentence9Words: seq<string> := ["I", "really", "appreciate", "your", "help", "with", "this", "project."]
  const Sentence9: string := Join(Sentence9Words)
  const Entry9 := VocabularyWord(
      id := "9", word := "appreciate",
      definition := "to recognize the value or significance of something",
      exampleSentence := Sentence9,
      blankPosition := 2, difficulty := Beginner, category := Daily, partOfSpeech := "verb")

  const Sentence10Words: seq<string> := ["Please", "wear", "appropriate", "attire", "for", "the", "business", "meeting."]
  const Sentence10: string := Join(Sentence10Words)
  const Entry10 := VocabularyWord(
      id := "10", word := "appropriate",
      definition := "suitable or proper for a particular situation",
      exampleSentence := Sentence10,
      blankPosition := 2, difficulty := Intermediate, category := Business, partOfSpeech := "adjective")

  const Vocabulary: seq<VocabularyWord> := [Entry1, Entry2, Entry3, Entry4, Entry5, Entry6, Entry7, Entry8, Entry9, Entry10]

  function Ids(s: seq<VocabularyWord>): seq<string>
  {
    seq(|s|, i requires 0 <= i < |s| => s[i].id)
  }

  /** `getWordsByDifficulty` */
  function WordsByDifficulty(d: Difficulty): seq<VocabularyWord>
  {
    Filter(Vocabulary, (w: VocabularyWord) => w.difficulty == d)
  }

  /** `getWordsByCategory` */
  function WordsByCategory(c: Category): seq<VocabularyWord>
  {
    Filter(Vocabulary, (w: VocabularyWord) => w.category == c)
  }

  /** `getRandomWords(count)`: `shuffled` is the rearrangement that the random sort produced. */
  function RandomWords(count: int, shuffled: seq<VocabularyWord>): seq<VocabularyWord>
    requires multiset(shuffled) == multiset(Vocabulary)
  {
    SliceTo(shuffled, count)
  }

  /** The catalog entries whose id is in `ids`, in catalog order (the pages' `toeicVocabulary.filter`). */
  function EntriesWithIds(ids: seq<string>): seq<VocabularyWord>
  {
    Filter(Vocabulary, (w: VocabularyWord) => w.id in ids)
  }

  /** The field comment's reading of `blankPosition`: it names the token that is the word. */
  predicate BlankMarksWord(w: VocabularyWord)
  {
    0 <= w.blankPosition < |Split(w.exampleSentence)| && Split(w.exampleSentence)[w.blankPosition] == w.word
  }

  // ---------------------------------------------------------------- properties

  /** The ids are "1" to "10", in order, so no two entries share one. */
  lemma CatalogIdsDistinct()
    ensures |Vocabulary| == 10
    ensures NoDup(Ids(Vocabulary))
  {
    forall i | 0 <= i < |Vocabulary| ensures Vocabulary[i].id == NatToString(i + 1) {
      EntryFacts(i);
    }
    CountingIdsDistinct(Vocabulary);
  }

  /** Entries whose ids count up from "1" have pairwise different ids. */
  lemma CountingIdsDistinct(s: seq<VocabularyWord>)
    requires forall i :: 0 <= i < |s| ==> s[i].id == NatToString(i + 1)
    ensures NoDup(Ids(s))
  {
    var ids := Ids(s);
    forall i, j | 0 <= i < j < |ids| ensures ids[i] != ids[j] {
      if ids[i] == ids[j] {
        NatToStringInjective(i + 1, j + 1);
      }
    }
  }

  /** Entries with distinct ids are distinct entries. */
  lemma CatalogNoDup()
    ensures NoDup(Vocabulary)
  {
    CatalogIdsDistinct();
    forall i, j | 0 <= i < j < |Vocabulary| ensures Vocabulary[i] != Vocabulary[j] {
      assert Ids(Vocabulary)[i] != Ids(Vocabulary)[j];
    }
  }

  lemma WordsByDifficultySpec(d: Difficulty)
    ensures forall w :: w in WordsByDifficulty(d) <==> w in Vocabulary && w.difficulty == d
    ensures IsSubsequence(WordsByDifficulty(d), Vocabulary)
    ensures NoDup(WordsByDifficulty(d))
  {
    FilterSpec(Vocabulary, (w: VocabularyWord) => w.difficulty == d);
    CatalogNoDup();
    SubsequenceNoDup(WordsByDifficulty(d), Vocabulary);
  }

  lemma WordsByCategorySpec(c: Category)
    ensures forall w :: w in WordsByCategory(c) <==> w in Vocabulary && w.category == c
    ensures IsSubsequence(WordsByCategory(c), Vocabulary)
    ensures NoDup(WordsByCategory(c))
  {
    FilterSpec(Vocabulary, (w: VocabularyWord) => w.category == c);
    CatalogNoDup();
    SubsequenceNoDup(WordsByCategory(c), Vocabulary);
  }

  lemma EntriesWithIdsSpec(ids: seq<string>)
    ensures forall w :: w in EntriesWithIds(ids) <==> w in Vocabulary && w.id in ids
    ensures IsSubsequence(EntriesWithIds(ids), Vocabulary)
    ensures NoDup(EntriesWithIds(ids))
  {
    FilterSpec(Vocabulary, (w: VocabularyWord) => w.id in ids);
    CatalogNoDup();
    SubsequenceNoDup(EntriesWithIds(ids), Vocabulary);
  }

  /** At most `count` words, every one from the catalog, none twice. */
  lemma RandomWordsSpec(count: int, shuffled: seq<VocabularyWord>)
    requires multiset(shuffled) == multiset(Vocabulary)
    ensures count >= 0 ==> |RandomWords(count, shuffled)| == if count <= |Vocabulary| then count else |Vocabulary|
    ensures count < 0 ==> |RandomWords(count, shuffled)| == if |Vocabulary| + count < 0 then 0 else |Vocabulary| + count
    ensures forall w :: w in RandomWords(count, shuffled) ==> w in Vocabulary
    ensures NoDup(RandomWords(count, shuffled))
  {
    CatalogNoDup();
    SliceToPermutation(Vocabulary, shuffled, count);
  }

  /** A sentence written as space-free words joined by spaces splits back into those words. */
  lemma WordsSplit(ws: seq<string>)
    requires |ws| >= 1
    requires forall k :: 0 <= k < |ws| ==> ' ' !in ws[k]
    ensures Split(Join(ws)) == ws
  {
    forall t | t in ws ensures ' ' !in t {
      var k :| 0 <= k < |ws| && ws[k] == t;
    }
    SplitJoin(ws);
  }

  /** Entry "1": "accomplish" is token 3. */
  lemma SentenceTokens1()
    ensures |Split(Sentence1)| == 12
    ensures Split(Sentence1)[3] == "accomplish"
  {
    WordsSplit(Sentence1Words);
  }

  /** Entry "2": "accommodate" is token 3, the blank position 4 holds "up". */
  lemma SentenceTokens2()
    ensures |Split(Sentence2)| == 8
    ensures Split(Sentence2)[3] == "accommodate"
    ensures Split(Sentence2)[4] == "up"
  {
    WordsSplit(Sentence2Words);
  }

  /** Entry "3": "acquire" is token 4, the blank position 5 holds "new". */
  lemma SentenceTokens3()
    ensures |Split(Sentence3)| == 9
    ensures Split(Sentence3)[4] == "acquire"
    ensures Split(Sentence3)[5] == "new"
  {
    WordsSplit(Sentence3Words);
  }

  /** Entry "4": "adequate" is token 2. */
  lemma SentenceTokens4()
    ensures |Split(Sentence4)| == 8
    ensures Split(Sentence4)[2] == "adequate"
  {
    WordsSplit(Sentence4Words);
  }

  /** Entry "5": "adjacent" is token 4. */
  lemma SentenceTokens5()
    ensures |Split(Sentence5)| == 9
    ensures Split(Sentence5)[4] == "adjacent"
  {
    WordsSplit(Sentence5Words);
  }

  /** Entry "6": "agenda" is token 3. */
  lemma SentenceTokens6()
    ensures |Split(Sentence6)| == 7
    ensures Split(Sentence6)[3] == "agenda"
  {
    WordsSplit(Sentence6Words);
  }

  /** Entry "7": "allocate" is token 3. */
  lemma SentenceTokens7()
    ensures |Split(Sentence7)| == 8
    ensures Split(Sentence7)[3] == "allocate"
  {
    WordsSplit(Sentence7Words);
  }

  /** Entry "8": "anticipate" is token 1. */
  lemma SentenceTokens8()
    ensures |Split(Sentence8)| == 9
    ensures Split(Sentence8)[1] == "anticipate"
  {
    WordsSplit(Sentence8Words);
  }

  /** Entry "9": "appreciate" is token 2. */
  lemma SentenceTokens9()
    ensures |Split(Sentence9)| == 8
    ensures Split(Sentence9)[2] == "appreciate"
  {
    WordsSplit(Sentence9Words);
  }

  /** Entry "10": "appropriate" is token 2. */
  lemma SentenceTokens10()
    ensures |Split(Sentence10)| == 8
    ensures Split(Sentence10)[2] == "appropriate"
  {
    WordsSplit(Sentence10Words);
  }

  /** What the catalog promises of entry `i`: its id is its one-based position in decimal, its
      blank position is a token index of its sentence, and the token there is the word except in
      entries "2" and "3". */
  predicate EntryOk(i: nat)
  {
    i < |Vocabulary|
    && Vocabulary[i].id == NatToString(i + 1)
    && 0 <= Vocabulary[i].blankPosition < |Split(Vocabulary[i].exampleSentence)|
    && (BlankMarksWord(Vocabulary[i]) <==> Vocabulary[i].id != "2" && Vocabulary[i].id != "3")
  }

  lemma Entry1Facts()
    ensures EntryOk(0)
  {
    assert Vocabulary[0] == Entry1;
    SentenceTokens1();
  }

  lemma Entry2Facts()
    ensures EntryOk(1)
  {
    assert Vocabulary[1] == Entry2;
    SentenceTokens2();
  }

  lemma Entry3Facts()
    ensures EntryOk(2)
  {
    assert Vocabulary[2] == Entry3;
    SentenceTokens3();
  }

  lemma Entry4Facts()
    ensures EntryOk(3)
  {
    assert Vocabulary[3] == Entry4;
    SentenceTokens4();
  }

  lemma Entry5Facts()
    ensures EntryOk(4)
  {
    assert Vocabulary[4] == Entry5;
    SentenceTokens5();
  }

  lemma Entry6Facts()
    ensures EntryOk(5)
  {
    assert Vocabulary[5] == Entry6;
    SentenceTokens6();
  }

  lemma Entry7Facts()
    ensures EntryOk(6)
  {
    assert Vocabulary[6] == Entry7;
    SentenceTokens7();
  }

  lemma Entry8Facts()
    ensures EntryOk(7)
  {
    assert Vocabulary[7] == Entry8;
    SentenceTokens8();
  }

  lemma Entry9Facts()
    ensures EntryOk(8)
  {
    assert Vocabulary[8] == Entry9;
    SentenceTokens9();
  }

  lemma Entry10Facts()
    ensures EntryOk(9)
  {
    assert Vocabulary[9] == Entry10;
    SentenceTokens10();
  }

  lemma EntryFacts(i: nat)
    requires i < |Vocabulary|
    ensures EntryOk(i)
  {
    if i == 0 {
      Entry1Facts();
    } else if i == 1 {
      Entry2Facts();
    } else if i == 2 {
      Entry3Facts();
    } else if i == 3 {
      Entry4Facts();
    } else if i == 4 {
      Entry5Facts();
    } else if i == 5 {
      Entry6Facts();
    } else if i == 6 {
      Entry7Facts();
    } else if i == 7 {
      Entry8Facts();
    } else if i == 8 {
      Entry9Facts();
    } else {
      Entry10Facts();
    }
  }

  /** Every blank position is a valid token index of its sentence. */
  lemma BlankPositionInRange()
    ensures forall i :: 0 <= i < |Vocabulary| ==>
      0 <= Vocabulary[i].blankPosition < |Split(Vocabulary[i].exampleSentence)|
  {
    forall i | 0 <= i < |Vocabulary| ensures 0 <= Vocabulary[i].blankPosition < |Split(Vocabulary[i].exampleSentence)| {
      EntryFacts(i);
    }
  }

  /** The field comment holds for eight entries; for "2" and "3" the blank falls one token
      after the word ("up" and "new"). */
  lemma BlankPositionMarksWord()
    ensures forall i :: 0 <= i < |Vocabulary| ==>
      (BlankMarksWord(Vocabulary[i]) <==> Vocabulary[i].id != "2" && Vocabulary[i].id != "3")
  {
    forall i | 0 <= i < |Vocabulary|
      ensures BlankMarksWord(Vocabulary[i]) <==> Vocabulary[i].id != "2" && Vocabulary[i].id != "3"
    {
      EntryFacts(i);
    }
  }
}
