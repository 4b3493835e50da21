/** lib/custom-vocabulary.ts: the learner's own words, kept in insertion order and saved to
    localStorage under "customVocabulary". */
module CustomVocabulary {
  import opened Seqs
  import opened Text
  import opened Catalog
  import opened LocalStorage

  /** The content of a custom word: a catalog entry's fields without its id, plus optional notes. */
  datatype WordFields = WordFields(
    word: string,
    definition: string,
    exampleSentence: string,
    blankPosition: int,
    difficulty: Difficulty,
    category: Category,
    partOfSpeech: string,
    notes: Option<string>)

  /** `CustomWord`: the content plus the bookkeeping that `addWord` fills in; `createdAt` in ms. */
  datatype CustomWord = CustomWord(
    id: string,
    content: WordFields,
    isCustom: bool,
    createdAt: int,
    createdBy: string)

  /** The `updates` argument of `updateWord`: `None` is a key the object does not have. */
  datatype WordUpdate = WordUpdate(
    word: Option<string>,
    definition: Option<string>,
    exampleSentence: Option<string>,
    blankPosition: Option<int>,
    difficulty: Option<Difficulty>,
    category: Option<Category>,
    partOfSpeech: Option<string>,
    notes: Option<string>)

  function Pick<T>(o: Option<T>, d: T): T
  {
    if o.Some? then o.value else d
  }

  /** `{ ...f, ...u }` */
  function Merge(f: WordFields, u: WordUpdate): WordFields
  {
    WordFields(
      Pick(u.word, f.word),
      Pick(u.definition, f.definition),
      Pick(u.exampleSentence, f.exampleSentence),
      Pick(u.blankPosition, f.blankPosition),
      Pick(u.difficulty, f.difficulty),
      Pick(u.category, f.category),
      Pick(u.partOfSpeech, f.partOfSpeech),
      if u.notes.Some? then u.notes else f.notes)
  }

  /** `custom_${Date.now()}_${suffix}`, where `suffix` stands for the random base-36 digits. */
  function NewId(now: nat, suffix: string): string
  {
    "custom_" + NatToString(now) + "_" + suffix
  }

  /** `findIndex((word) => word.id === id)`: the first index holding `id`, or -1. */
  function IndexOfId(ws: seq<CustomWord>, id: string): (r: int)
    ensures -1 <= r < |ws|
    ensures r == -1 <==> forall k :: 0 <= k < |ws| ==> ws[k].id != id
    ensures r >= 0 ==> ws[r].id == id && forall k :: 0 <= k < r ==> ws[k].id != id
  {
    IndexFrom(ws, id, 0)
  }

  function IndexFrom(ws: seq<CustomWord>, id: string, i: nat): (r: int)
    requires i <= |ws|
    ensures -1 <= r < |ws|
    ensures r == -1 <==> forall k :: i <= k < |ws| ==> ws[k].id != id
    ensures r >= 0 ==> i <= r && ws[r].id == id && forall k :: i <= k < r ==> ws[k].id != id
    decreases |ws| - i
  {
    if i == |ws| then -1 else if ws[i].id == id then i else IndexFrom(ws, id, i + 1)
  }

  /** Index `k` holds the first record with `id`. */
  ghost predicate FirstWithId(ws: seq<CustomWord>, id: string, k: int)
  {
    0 <= k < |ws| && ws[k].id == id && forall j :: 0 <= j < k ==> ws[j].id != id
  }

  /** The search predicate of `searchWords`: the lowercased query occurs in the lowercased word,
      definition or example sentence. */
  ghost predicate MatchesQuery(w: CustomWord, query: string)
  {
    var q := ToLower(query);
    (exists i :: OccursAt(ToLower(w.content.word), q, i))
    || (exists i :: OccursAt(ToLower(w.content.definition), q, i))
    || (exists i :: OccursAt(ToLower(w.content.exampleSentence), q, i))
  }

  function SearchFilter(w: CustomWord, query: string): bool
  {
    var q := ToLower(query);
    Contains(ToLower(w.content.word), q) || Contains(ToLower(w.content.definition), q)
    || Contains(ToLower(w.content.exampleSentence), q)
  }

  // ---------------------------------------------------------------- importWords documents

  /** One element of the imported array. `Fields` is an object (or another non-null value, whose
      properties all read as missing); `None` stands for a missing or falsy property.
      `Throws` is a null element: reading its properties raises a TypeError with `message`. */
  datatype ImportEntry =
    | Fields(word: Option<string>, definition: Option<string>, exampleSentence: Option<string>,
             blankPosition: Option<int>, difficulty: Option<Difficulty>, category: Option<Category>,
             partOfSpeech: Option<string>)
    | Throws(message: string)

  /** What `JSON.parse(jsonData)` gives: a failure, a value that is not an array, or an array. */
  datatype WordsDocument = Unparseable | NotArray | Array(entries: seq<ImportEntry>)

  datatype ImportResult = ImportResult(success: bool, imported: nat, errors: seq<string>)

  const InvalidJson := "Invalid JSON format"
  const InvalidFormat := "Invalid format: expected an array of words"

  predicate Truthy(s: Option<string>)
  {
    s.Some? && s.value != ""
  }

  /** The required-field test: word, definition and exampleSentence all truthy. */
  predicate Accepted(e: ImportEntry)
  {
    e.Fields? && Truthy(e.word) && Truthy(e.definition) && Truthy(e.exampleSentence)
  }

  /** The fields handed to `addWord` for an accepted entry, falsy ones replaced by their defaults. */
  function Defaulted(e: ImportEntry): WordFields
    requires Accepted(e)
  {
    WordFields(e.word.value, e.definition.value, e.exampleSentence.value,
      Pick(e.blankPosition, 0), Pick(e.difficulty, Intermediate), Pick(e.category, Daily),
      if Truthy(e.partOfSpeech) then e.partOfSpeech.value else "noun", None)
  }

  /** The message recorded for the rejected entry at (zero-based) index `i`. */
  function EntryError(e: ImportEntry, i: nat): string
    requires !Accepted(e)
  {
    "Word " + NatToString(i + 1) + ": " + (if e.Throws? then e.message else "Missing required fields")
  }

  /** The words `importWords` appends for `es`, in order: entry `k` gets the id made from
      `now` and `suffix(k)`. */
  function ImportedWords(es: seq<ImportEntry>, now: nat, suffix: nat -> string): seq<CustomWord>
    decreases |es|
  {
    if es == [] then []
    else
      var k := |es| - 1;
      ImportedWords(es[..k], now, suffix)
      + (if Accepted(es[k]) then [CustomWord(NewId(now, suffix(k)), Defaulted(es[k]), true, now, "user")] else [])
  }

  /** The error list `importWords` builds for `es`, in order. */
  function ImportErrors(es: seq<ImportEntry>): seq<string>
    decreases |es|
  {
    if es == [] then []
    else
      var k := |es| - 1;
      ImportErrors(es[..k]) + (if Accepted(es[k]) then [] else [EntryError(es[k], k)])
  }

  /** The result of `importWords` on `doc`. */
  function ImportOutcome(doc: WordsDocument, now: nat, suffix: nat -> string): ImportResult
  {
    match doc
    case Unparseable => ImportResult(false, 0, [InvalidJson])
    case NotArray => ImportResult(false, 0, [InvalidFormat])
    case Array(es) =>
      var n := |ImportedWords(es, now, suffix)|;
      ImportResult(n > 0, n, ImportErrors(es))
  }

  // ---------------------------------------------------------------- the store

  /** `CustomVocabularyManager` */
  class CustomVocabularyManager {
    var customWords: seq<CustomWord>
    const store: Slot<seq<CustomWord>>

    /** `loadCustomWords`: the saved list when there is one, the empty list otherwise. */
    constructor (store: Slot<seq<CustomWord>>)
      ensures this.store == store
      ensures customWords == if store.value.Some? then store.value.value else []
    {
      this.store := store;
      customWords := if store.value.Some? then store.value.value else [];
    }

    /** `saveCustomWords` */
    method SaveCustomWords()
      modifies store
      ensures store.value == Some(customWords)
    {
      store.value := Some(customWords);
    }

    /** `addWord(fields)` at time `now`: exactly one record, appended at the end. */
    method AddWord(fields: WordFields, now: nat, suffix: string) returns (w: CustomWord)
      modifies this, store
      ensures w == CustomWord(NewId(now, suffix), fields, true, now, "user")
      ensures customWords == old(customWords) + [w]
      ensures store.value == Some(customWords)
    {
      w := CustomWord(NewId(now, suffix), fields, true, now, "user");
      customWords := customWords + [w];
      SaveCustomWords();
    }

    /** `updateWord(id, updates)`: the first record with `id` takes the supplied fields. */
    method UpdateWord(id: string, updates: WordUpdate) returns (ok: bool)
      modifies this, store
      ensures ok <==> exists k :: 0 <= k < |old(customWords)| && old(customWords)[k].id == id
      ensures !ok ==> customWords == old(customWords) && store.value == old(store.value)
      ensures ok ==> var k := IndexOfId(old(customWords), id);
        customWords == old(customWords)[k := old(customWords)[k].(content := Merge(old(customWords)[k].content, updates))]
        && store.value == Some(customWords)
    {
      var index := IndexOfId(customWords, id);
      if index == -1 {
        return false;
      }
      customWords := customWords[index := customWords[index].(content := Merge(customWords[index].content, updates))];
      SaveCustomWords();
      return true;
    }

    /** `deleteWord(id)`: the first record with `id` is spliced out. */
    method DeleteWord(id: string) returns (ok: bool)
      modifies this, store
      ensures ok <==> exists k :: 0 <= k < |old(customWords)| && old(customWords)[k].id == id
      ensures !ok ==> customWords == old(customWords) && store.value == old(store.value)
      ensures ok ==> var k := IndexOfId(old(customWords), id);
        customWords == old(customWords)[..k] + old(customWords)[k + 1..]
        && store.value == Some(customWords)
    {
      var index := IndexOfId(customWords, id);
      if index == -1 {
        return false;
      }
      customWords := customWords[..index] + customWords[index + 1..];
      SaveCustomWords();
      return true;
    }

    /** `getCustomWords`: a copy of the list. */
    method GetCustomWords() returns (ws: seq<CustomWord>)
      ensures ws == customWords
    {
      ws := customWords;
    }

    /** `getWordById(id)`: the first record with `id`, if any. */
    function GetWordById(id: string): (r: Option<CustomWord>)
      reads this
      ensures r.None? <==> forall w :: w in customWords ==> w.id != id
      ensures r.Some? ==> r.value.id == id
      ensures r.Some? ==> exists k :: 0 <= k < |customWords| && customWords[k] == r.value && FirstWithId(customWords, id, k)
    {
      var k := IndexOfId(customWords, id);
      if k == -1 then None else Some(customWords[k])
    }

    /** `getWordsByCategory(c)`: exactly the records of category `c`, in store order. */
    function GetWordsByCategory(c: Category): (r: seq<CustomWord>)
      reads this
      ensures forall w :: w in r <==> w in customWords && w.content.category == c
      ensures forall w :: multiset(r)[w] == if w.content.category == c then multiset(customWords)[w] else 0
      ensures IsSubsequence(r, customWords)
    {
      FilterSpec(customWords, (w: CustomWord) => w.content.category == c);
      Filter(customWords, (w: CustomWord) => w.content.category == c)
    }

    /** `getWordsByDifficulty(d)`: exactly the records of difficulty `d`, in store order. */
    function GetWordsByDifficulty(d: Difficulty): (r: seq<CustomWord>)
      reads this
      ensures forall w :: w in r <==> w in customWords && w.content.difficulty == d
      ensures forall w :: multiset(r)[w] == if w.content.difficulty == d then multiset(customWords)[w] else 0
      ensures IsSubsequence(r, customWords)
    {
      FilterSpec(customWords, (w: CustomWord) => w.content.difficulty == d);
      Filter(customWords, (w: CustomWord) => w.content.difficulty == d)
    }

    /** `searchWords(query)`: the records, in store order, in whose lowercased word, definition or
        example sentence the lowercased query occurs. */
    function SearchWords(query: string): (r: seq<CustomWord>)
      reads this
      ensures forall w :: w in r <==> w in customWords && MatchesQuery(w, query)
      ensures forall w :: multiset(r)[w] == if MatchesQuery(w, query) then multiset(customWords)[w] else 0
      ensures IsSubsequence(r, customWords)
    {
      FilterSpec(customWords, (w: CustomWord) => SearchFilter(w, query));
      SearchFilterSpec(query);
      Filter(customWords, (w: CustomWord) => SearchFilter(w, query))
    }

    /** `clearAllWords` */
    method ClearAllWords()
      modifies this, store
      ensures customWords == [] && store.value == Some([])
    {
      customWords := [];
      SaveCustomWords();
    }

    /** `importWords(jsonData)` with the parsed document `doc` at time `now`; the word added for
        entry `k` takes `suffix(k)` as its random id part. Nothing changes unless `doc` is an
        array; then the accepted entries are appended in input order after the words already there. */
    method ImportWords(doc: WordsDocument, now: nat, suffix: nat -> string) returns (result: ImportResult)
      modifies this, store
      ensures result == ImportOutcome(doc, now, suffix)
      ensures !doc.Array? ==> customWords == old(customWords) && store.value == old(store.value)
      ensures doc.Array? ==> customWords == old(customWords) + ImportedWords(doc.entries, now, suffix)
      ensures doc.Array? && result.imported > 0 ==> store.value == Some(customWords)
      ensures doc.Array? && result.imported == 0 ==> store.value == old(store.value)
    {
      if doc.Unparseable? {
        return ImportResult(false, 0, [InvalidJson]);
      }
      if doc.NotArray? {
        return ImportResult(false, 0, [InvalidFormat]);
      }
      var words := doc.entries;
      var errors: seq<string> := [];
      var imported := 0;
      var index := 0;
      while index < |words|
        invariant 0 <= index <= |words|
        invariant customWords == old(customWords) + ImportedWords(words[..index], now, suffix)
        invariant errors == ImportErrors(words[..index])
        invariant imported == |ImportedWords(words[..index], now, suffix)|
        invariant imported > 0 ==> store.value == Some(customWords)
        invariant imported == 0 ==> store.value == old(store.value)
      {
        var wordData := words[index];
        assert words[..index + 1][..index] == words[..index];
        if !Accepted(wordData) {
          errors := errors + [EntryError(wordData, index)];
        } else {
          var _ := AddWord(Defaulted(wordData), now, suffix(index));
          imported := imported + 1;
        }
        index := index + 1;
      }
      assert words[..index] == words;
      return ImportResult(imported > 0, imported, errors);
    }
  }

  // ---------------------------------------------------------------- properties

  /** The executable search test agrees with the occurrence-based reading of `includes`. */
  lemma SearchFilterSpec(query: string)
    ensures forall w :: SearchFilter(w, query) <==> MatchesQuery(w, query)
  {
    forall w ensures SearchFilter(w, query) <==> MatchesQuery(w, query) {
      var q := ToLower(query);
      ContainsSpec(ToLower(w.content.word), q);
      ContainsSpec(ToLower(w.content.definition), q);
      ContainsSpec(ToLower(w.content.exampleSentence), q);
    }
  }

  /** The empty query matches every record. */
  lemma {:induction false} EmptyQueryMatchesAll(ws: seq<CustomWord>)
    ensures Filter(ws, (w: CustomWord) => SearchFilter(w, "")) == ws
  {
    if ws != [] {
      ContainsEmpty(ToLower(ws[0].content.word));
      EmptyQueryMatchesAll(ws[1..]);
    }
  }

  /** Every entry is either imported or reported: imported + |errors| = number of entries. */
  lemma {:induction false} ImportAccounting(es: seq<ImportEntry>, now: nat, suffix: nat -> string)
    ensures |ImportedWords(es, now, suffix)| + |ImportErrors(es)| == |es|
    decreases |es|
  {
    if es != [] {
      ImportAccounting(es[..|es| - 1], now, suffix);
    }
  }

  /** Every imported word is a custom word created by "user" at `now`, with non-empty word,
      definition and example sentence, an id starting with "custom_" and no notes. */
  lemma {:induction false} ImportedWordsShape(es: seq<ImportEntry>, now: nat, suffix: nat -> string)
    ensures forall w :: w in ImportedWords(es, now, suffix) ==>
      w.isCustom && w.createdBy == "user" && w.createdAt == now && w.content.notes.None?
      && w.content.word != "" && w.content.definition != "" && w.content.exampleSentence != ""
      && "custom_" <= w.id
    decreases |es|
  {
    if es != [] {
      ImportedWordsShape(es[..|es| - 1], now, suffix);
    }
  }

  /** An array whose entries all lack a required field imports nothing and reports a failure,
      one message per entry. */
  lemma {:induction false} ImportNothingAccepted(es: seq<ImportEntry>, now: nat, suffix: nat -> string)
    requires forall k :: 0 <= k < |es| ==> !Accepted(es[k])
    ensures ImportedWords(es, now, suffix) == []
    ensures |ImportErrors(es)| == |es|
    ensures !ImportOutcome(Array(es), now, suffix).success
    decreases |es|
  {
    if es != [] {
      ImportNothingAccepted(es[..|es| - 1], now, suffix);
    }
  }

  /** `Merge` overrides exactly the fields the update supplies. */
  lemma MergeSpec(f: WordFields, u: WordUpdate)
    ensures u == WordUpdate(None, None, None, None, None, None, None, None) ==> Merge(f, u) == f
    ensures Merge(Merge(f, u), u) == Merge(f, u)
    ensures u.word.Some? ==> Merge(f, u).word == u.word.value
    ensures u.word.None? ==> Merge(f, u).word == f.word
    ensures u.definition.Some? ==> Merge(f, u).definition == u.definition.value
    ensures u.definition.None? ==> Merge(f, u).definition == f.definition
    ensures u.exampleSentence.Some? ==> Merge(f, u).exampleSentence == u.exampleSentence.value
    ensures u.exampleSentence.None? ==> Merge(f, u).exampleSentence == f.exampleSentence
    ensures u.blankPosition.Some? ==> Merge(f, u).blankPosition == u.blankPosition.value
    ensures u.blankPosition.None? ==> Merge(f, u).blankPosition == f.blankPosition
    ensures u.difficulty.Some? ==> Merge(f, u).difficulty == u.difficulty.value
    ensures u.difficulty.None? ==> Merge(f, u).difficulty == f.difficulty
    ensures u.category.Some? ==> Merge(f, u).category == u.category.value
    ensures u.category.None? ==> Merge(f, u).category == f.category
    ensures u.partOfSpeech.Some? ==> Merge(f, u).partOfSpeech == u.partOfSpeech.value
    ensures u.partOfSpeech.None? ==> Merge(f, u).partOfSpeech == f.partOfSpeech
    ensures u.notes.Some? ==> Merge(f, u).notes == u.notes
    ensures u.notes.None? ==> Merge(f, u).notes == f.notes
  {
  }

  /** The index of the first '_' at or after `i` in `x`, or `|x|`. */
  function UnderscoreFrom(x: string, i: nat): (r: nat)
    requires i <= |x|
    decreases |x| - i
  {
    if i == |x| then |x| else if x[i] == '_' then i else UnderscoreFrom(x, i + 1)
  }

  lemma {:induction false} UnderscoreAfter(d: string, s: string, i: nat)
    requires i <= |d|
    requires forall k :: 0 <= k < |d| ==> d[k] != '_'
    ensures UnderscoreFrom(d + "_" + s, i) == |d|
    decreases |d| - i
  {
    if i < |d| {
      assert (d + "_" + s)[i] == d[i];
      UnderscoreAfter(d, s, i + 1);
    }
  }

  /** A string made of a part without underscores, an underscore and a rest splits back into
      that part and that rest. */
  lemma SplitAtUnderscore(d1: string, s1: string, d2: string, s2: string)
    requires forall k :: 0 <= k < |d1| ==> d1[k] != '_'
    requires forall k :: 0 <= k < |d2| ==> d2[k] != '_'
    requires d1 + "_" + s1 == d2 + "_" + s2
    ensures d1 == d2 && s1 == s2
  {
    var r := d1 + "_" + s1;
    UnderscoreAfter(d1, s1, 0);
    UnderscoreAfter(d2, s2, 0);
    assert d1 == r[..|d1|] && d2 == r[..|d2|];
    assert s1 == r[|d1| + 1..] && s2 == r[|d2| + 1..];
  }

  /** Ids made at different times, or with different suffixes, differ: the decimal time runs up
      to the second underscore. */
  lemma NewIdInjective(t1: nat, s1: string, t2: nat, s2: string)
    requires NewId(t1, s1) == NewId(t2, s2)
    ensures t1 == t2 && s1 == s2
  {
    var d1, d2 := NatToString(t1), NatToString(t2);
    NatToStringDigits(t1);
    NatToStringDigits(t2);
    assert NewId(t1, s1)[7..] == d1 + "_" + s1;
    assert NewId(t2, s2)[7..] == d2 + "_" + s2;
    SplitAtUnderscore(d1, s1, d2, s2);
    NatToStringInjective(t1, t2);
  }

}
