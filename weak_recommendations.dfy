/** components/weak-words/weak-word-recommendations.tsx: the weak-word overview. It counts the
    weak words per category and per difficulty, picks the most frequent of each, and recommends
    up to three fresh catalog words that share one of them. */
module WeakRecommendations {
  import opened Seqs
  import opened Catalog
  import opened LocalStorage
  import opened Progress

  // ---------------------------------------------------------------- counting

  /** Where `k` first occurs in `ks`. */
  function FirstIndex<K(==)>(ks: seq<K>, k: K): (i: nat)
    requires k in ks
    ensures i < |ks| && ks[i] == k && k !in ks[..i]
  {
    if ks[0] == k then 0 else 1 + FirstIndex(ks[1..], k)
  }

  /** The keys of `ks` without repeats, in the order they are first met: the order in which a
      `Record<string, number>` gains its keys, and so the order `Object.entries` lists them. */
  function Distinct<K(==)>(ks: seq<K>): seq<K>
  {
    if ks == [] then []
    else
      var d := Distinct(ks[..|ks| - 1]);
      if ks[|ks| - 1] in d then d else d + [ks[|ks| - 1]]
  }

  /** A `Record<K, number>` as its entries in insertion order. */
  function KeysOf<K>(counts: seq<(K, nat)>): seq<K>
  {
    seq(|counts|, j requires 0 <= j < |counts| => counts[j].0)
  }

  function SumOf<K>(counts: seq<(K, nat)>): nat
  {
    if counts == [] then 0 else counts[0].1 + SumOf(counts[1..])
  }

  /** `counts[k] = (counts[k] || 0) + 1` on the entry list: the value of an existing key goes up
      in place, a new key is added last with 1. */
  function Bump<K(==)>(counts: seq<(K, nat)>, k: K): seq<(K, nat)>
  {
    if k in KeysOf(counts) then
      var j := FirstIndex(KeysOf(counts), k);
      counts[j := (k, counts[j].1 + 1)]
    else counts + [(k, 1)]
  }

  /** `counts` tallies `ks`: one entry per distinct key, first-seen first, each holding the
      number of times its key occurs. */
  ghost predicate Tallies<K>(counts: seq<(K, nat)>, ks: seq<K>)
  {
    KeysOf(counts) == Distinct(ks)
    && forall j :: 0 <= j < |counts| ==> counts[j].1 == multiset(ks)[counts[j].0]
  }

  function CategoriesOf(ws: seq<VocabularyWord>): seq<Category>
  {
    seq(|ws|, i requires 0 <= i < |ws| => ws[i].category)
  }

  function DifficultiesOf(ws: seq<VocabularyWord>): seq<Difficulty>
  {
    seq(|ws|, i requires 0 <= i < |ws| => ws[i].difficulty)
  }

  /** The `weak.forEach` loop: both dictionaries are filled in one pass over the weak words. */
  method CountWeak(weak: seq<VocabularyWord>)
    returns (categoryCount: seq<(Category, nat)>, difficultyCount: seq<(Difficulty, nat)>)
    ensures Tallies(categoryCount, CategoriesOf(weak)) && Tallies(difficultyCount, DifficultiesOf(weak))
    ensures SumOf(categoryCount) == |weak| && SumOf(difficultyCount) == |weak|
  {
    categoryCount := [];
    difficultyCount := [];
    ghost var categories := CategoriesOf(weak);
    ghost var difficulties := DifficultiesOf(weak);
    var i := 0;
    while i < |weak|
      invariant 0 <= i <= |weak|
      invariant Tallies(categoryCount, categories[..i]) && SumOf(categoryCount) == i
      invariant Tallies(difficultyCount, difficulties[..i]) && SumOf(difficultyCount) == i
    {
      TallyStep(categoryCount, categories, i);
      TallyStep(difficultyCount, difficulties, i);
      categoryCount := Bump(categoryCount, weak[i].category);
      difficultyCount := Bump(difficultyCount, weak[i].difficulty);
      i := i + 1;
    }
    assert categories[..i] == categories && difficulties[..i] == difficulties;
  }

  // ---------------------------------------------------------------- the top key

  /** The entry that `sort(([, a], [, b]) => b - a)[0]` brings to the front: the sort is stable,
      so it is the first entry holding the largest count. */
  function FirstMaxIndex<K>(counts: seq<(K, nat)>): (j: nat)
    requires counts != []
    ensures j < |counts|
    ensures forall i :: 0 <= i < |counts| ==> counts[i].1 <= counts[j].1
    ensures forall i :: 0 <= i < j ==> counts[i].1 < counts[j].1
  {
    if |counts| == 1 then 0
    else
      var m := FirstMaxIndex(counts[..|counts| - 1]);
      if counts[|counts| - 1].1 > counts[m].1 then |counts| - 1 else m
  }

  /** `...[0]?.[0]`: the front entry's key, `undefined` for an empty dictionary. */
  function Top<K>(counts: seq<(K, nat)>): Option<K>
  {
    if counts == [] then None else Some(counts[FirstMaxIndex(counts)].0)
  }

  /** `k` occurs in `ks` at least as often as any key, and of the keys that occur as often it is
      the one met first. */
  ghost predicate MostFrequentFirst<K>(ks: seq<K>, k: K)
  {
    k in ks
    && (forall x :: x in ks ==> multiset(ks)[x] <= multiset(ks)[k])
    && (forall x :: x in ks && multiset(ks)[x] == multiset(ks)[k] ==> FirstIndex(ks, k) <= FirstIndex(ks, x))
  }

  // ---------------------------------------------------------------- recommendations

  /** A catalog word the rule recommends: neither weak nor mastered, and sharing the top
      category or the top difficulty (an `undefined` top matches nothing). */
  predicate Recommendable(w: VocabularyWord, weakIds: seq<string>, masteredIds: seq<string>,
                          topCategory: Option<Category>, topDifficulty: Option<Difficulty>)
  {
    w.id !in weakIds && w.id !in masteredIds
    && (topCategory == Some(w.category) || topDifficulty == Some(w.difficulty))
  }

  /** `toeicVocabulary.filter(...).slice(0, 3)` */
  function Recommended(weakIds: seq<string>, masteredIds: seq<string>,
                       topCategory: Option<Category>, topDifficulty: Option<Difficulty>): seq<VocabularyWord>
  {
    Take(Filter(Vocabulary, RecommendFilter(weakIds, masteredIds, topCategory, topDifficulty)), 3)
  }

  function RecommendFilter(weakIds: seq<string>, masteredIds: seq<string>,
                           topCategory: Option<Category>, topDifficulty: Option<Difficulty>): VocabularyWord -> bool
  {
    w => Recommendable(w, weakIds, masteredIds, topCategory, topDifficulty)
  }

  /** The counting half of `loadRecommendations`: the tallies of `weak` by category and by
      difficulty, and the first entry of each once sorted by count, largest first. */
  method TopPatterns(weak: seq<VocabularyWord>) returns (topCategory: Option<Category>, topDifficulty: Option<Difficulty>)
    ensures topCategory.None? <==> weak == []
    ensures topDifficulty.None? <==> weak == []
    ensures topCategory.Some? ==> MostFrequentFirst(CategoriesOf(weak), topCategory.value)
    ensures topDifficulty.Some? ==> MostFrequentFirst(DifficultiesOf(weak), topDifficulty.value)
  {
    var categoryCount, difficultyCount := CountWeak(weak);
    topCategory := Top(categoryCount);
    topDifficulty := Top(difficultyCount);
    TopIsMostFrequentFirst(categoryCount, CategoriesOf(weak));
    TopIsMostFrequentFirst(difficultyCount, DifficultiesOf(weak));
  }

  /** `loadRecommendations` over the tracker's record: the weak catalog words, the accuracy, the
      top category and difficulty among the weak words, and the recommendations. */
  method LoadRecommendations(tracker: ProgressManager)
    returns (weak: seq<VocabularyWord>, accuracy: real, topCategory: Option<Category>,
             topDifficulty: Option<Difficulty>, recommended: seq<VocabularyWord>)
    ensures weak == EntriesWithIds(tracker.progress.weakWords.items)
    ensures accuracy == AccuracyRate(tracker.progress.Value())
    ensures topCategory.None? <==> weak == []
    ensures topDifficulty.None? <==> weak == []
    ensures topCategory.Some? ==> MostFrequentFirst(CategoriesOf(weak), topCategory.value)
    ensures topDifficulty.Some? ==> MostFrequentFirst(DifficultiesOf(weak), topDifficulty.value)
    ensures recommended == Recommended(tracker.progress.weakWords.items,
      tracker.progress.masteredWords.items, topCategory, topDifficulty)
  {
    var progress := tracker.GetProgress();
    weak := EntriesWithIds(progress.weakWords.items);
    var total := progress.correctAnswers + progress.incorrectAnswers;
    accuracy := if total > 0 then (progress.correctAnswers as real / total as real) * 100.0 else 0.0;
    topCategory, topDifficulty := TopPatterns(weak);
    recommended := Recommended(progress.weakWords.items, progress.masteredWords.items, topCategory, topDifficulty);
  }

  /** `weakWords.length > 0 ? Math.ceil(weakWords.length / 5) : 0`: the sessions of five words
      needed to go through all weak words. */
  function SessionsNeeded(n: nat): (s: nat)
    ensures n <= 5 * s
    ensures s > 0 ==> 5 * (s - 1) < n
  {
    if n > 0 then (n + 4) / 5 else 0
  }

  /** `Math.max(0, 10 - weakWords.length)`: the "cleared" figure out of ten. */
  function Cleared(n: nat): (c: nat)
    ensures c <= 10
    ensures n <= 10 ==> c + n == 10
    ensures n >= 10 ==> c == 0
  {
    if n >= 10 then 0 else 10 - n
  }

  // ---------------------------------------------------------------- properties

  /** `FirstIndex` agrees on a prefix that contains the key. */
  lemma {:induction false} FirstIndexPrefix<K>(ks: seq<K>, m: nat, k: K)
    requires m <= |ks| && k in ks[..m]
    ensures FirstIndex(ks, k) == FirstIndex(ks[..m], k)
  {
    if ks[0] != k {
      assert ks[..m][1..] == ks[1..][..m - 1];
      FirstIndexPrefix(ks[1..], m - 1, k);
    }
  }

  /** The keys of `d` all occur in `ks`, and in the order of their first occurrence there. */
  ghost predicate FirstOrdered<K>(ks: seq<K>, d: seq<K>)
  {
    (forall i :: 0 <= i < |d| ==> d[i] in ks)
    && forall i, j :: 0 <= i < j < |d| ==> FirstIndex(ks, d[i]) < FirstIndex(ks, d[j])
  }

  /** `Distinct` holds each key of `ks` once, and lists the keys by their first occurrence. */
  lemma {:induction false} DistinctSpec<K>(ks: seq<K>)
    ensures forall x :: x in Distinct(ks) <==> x in ks
    ensures NoDup(Distinct(ks))
    ensures FirstOrdered(ks, Distinct(ks))
  {
    if ks != [] {
      var n := |ks|;
      var p := ks[..n - 1];
      var x := ks[n - 1];
      assert ks == p + [x];
      DistinctSpec(p);
      var d := Distinct(p);
      assert forall y :: y in d <==> y in p;
      forall i | 0 <= i < |d| ensures d[i] in ks && FirstIndex(ks, d[i]) == FirstIndex(p, d[i]) {
        assert d[i] in d;
        FirstIndexPrefix(ks, n - 1, d[i]);
      }
      assert FirstOrdered(ks, d);
      if x !in d {
        OrderSnoc(ks, d, d + [x]);
      }
    }
  }

  /** Appending the last key of `ks`, met there for the first time, keeps a list ordered by
      first occurrence in `ks`. */
  lemma OrderSnoc<K>(ks: seq<K>, d: seq<K>, e: seq<K>)
    requires |ks| > 0 && ks[|ks| - 1] !in d && e == d + [ks[|ks| - 1]]
    requires forall y :: y in d <==> y in ks[..|ks| - 1]
    requires FirstOrdered(ks, d)
    ensures FirstOrdered(ks, e)
  {
    var n := |ks|;
    var x := ks[n - 1];
    var p := ks[..n - 1];
    assert x !in p;
    forall i | 0 <= i < n - 1 ensures ks[i] != x {
      assert p[i] == ks[i];
    }
    assert FirstIndex(ks, x) == n - 1;
    forall i | 0 <= i < |d| ensures FirstIndex(ks, d[i]) < n - 1 {
      assert d[i] in d;
      FirstIndexPrefix(ks, n - 1, d[i]);
    }
  }

  /** The membership and uniqueness half of `DistinctSpec`. */
  lemma DistinctKeys<K>(ks: seq<K>)
    ensures forall x :: x in Distinct(ks) <==> x in ks
    ensures NoDup(Distinct(ks))
  {
    DistinctSpec(ks);
  }

  /** A key met for the first time is added to `Distinct` at the end. */
  lemma DistinctSnoc<K>(ks: seq<K>, k: K)
    ensures Distinct(ks + [k]) == if k in ks then Distinct(ks) else Distinct(ks) + [k]
  {
    assert (ks + [k])[..|ks|] == ks;
    DistinctKeys(ks);
  }

  /** `Bump` keeps the key list, or adds the new key at its end. */
  lemma BumpKeys<K>(counts: seq<(K, nat)>, k: K)
    ensures KeysOf(Bump(counts, k)) == if k in KeysOf(counts) then KeysOf(counts) else KeysOf(counts) + [k]
  {
    if k !in KeysOf(counts) {
      assert KeysOf(counts + [(k, 1)]) == KeysOf(counts) + [k];
    }
  }

  /** One `Bump` extends a tally of `ks` to a tally of `ks + [k]` and adds one to the total. */
  lemma BumpTallies<K>(counts: seq<(K, nat)>, ks: seq<K>, k: K)
    requires Tallies(counts, ks)
    ensures Tallies(Bump(counts, k), ks + [k])
    ensures SumOf(Bump(counts, k)) == SumOf(counts) + 1
  {
    if k in KeysOf(counts) {
      BumpExisting(counts, ks, k);
    } else {
      BumpNew(counts, ks, k);
    }
  }

  /** A key already counted: its entry goes up by one in place. */
  lemma BumpExisting<K>(counts: seq<(K, nat)>, ks: seq<K>, k: K)
    requires Tallies(counts, ks) && k in KeysOf(counts)
    ensures Tallies(Bump(counts, k), ks + [k])
    ensures SumOf(Bump(counts, k)) == SumOf(counts) + 1
  {
    var keys := KeysOf(counts);
    DistinctKeys(ks);
    DistinctSnoc(ks, k);
    BumpKeys(counts, k);
    var m := multiset(ks + [k]);
    assert m == multiset(ks) + multiset{k};
    var j := FirstIndex(keys, k);
    var r := counts[j := (k, counts[j].1 + 1)];
    assert Bump(counts, k) == r;
    SumUpdate(counts, j, (k, counts[j].1 + 1));
    forall i | 0 <= i < |r| ensures r[i].1 == m[r[i].0] {
      if i != j {
        assert keys[i] != keys[j];
      }
    }
  }

  /** A key met for the first time: a new entry with 1 at the end. */
  lemma BumpNew<K>(counts: seq<(K, nat)>, ks: seq<K>, k: K)
    requires Tallies(counts, ks) && k !in KeysOf(counts)
    ensures Tallies(Bump(counts, k), ks + [k])
    ensures SumOf(Bump(counts, k)) == SumOf(counts) + 1
  {
    var keys := KeysOf(counts);
    DistinctKeys(ks);
    DistinctSnoc(ks, k);
    BumpKeys(counts, k);
    var m := multiset(ks + [k]);
    assert m == multiset(ks) + multiset{k};
    var r := counts + [(k, 1)];
    assert Bump(counts, k) == r;
    SumAppend(counts, (k, 1));
    forall i | 0 <= i < |r| ensures r[i].1 == m[r[i].0] {
      if i < |counts| {
        assert keys[i] != k;
      }
    }
  }

  /** The loop step: counting the next key of `ks`. */
  lemma TallyStep<K>(counts: seq<(K, nat)>, ks: seq<K>, i: nat)
    requires i < |ks| && Tallies(counts, ks[..i])
    ensures Tallies(Bump(counts, ks[i]), ks[..i + 1])
    ensures SumOf(Bump(counts, ks[i])) == SumOf(counts) + 1
  {
    assert ks[..i + 1] == ks[..i] + [ks[i]];
    BumpTallies(counts, ks[..i], ks[i]);
  }

  lemma {:induction false} SumAppend<K>(counts: seq<(K, nat)>, e: (K, nat))
    ensures SumOf(counts + [e]) == SumOf(counts) + e.1
  {
    if counts != [] {
      assert (counts + [e])[1..] == counts[1..] + [e];
      SumAppend(counts[1..], e);
    }
  }

  lemma {:induction false} SumUpdate<K>(counts: seq<(K, nat)>, j: nat, e: (K, nat))
    requires j < |counts|
    ensures SumOf(counts[j := e]) + counts[j].1 == SumOf(counts) + e.1
  {
    if j > 0 {
      assert counts[j := e][1..] == counts[1..][j - 1 := e];
      SumUpdate(counts[1..], j - 1, e);
    }
  }

  /** The front entry after the sort is the key that is most frequent among `ks` and, among
      equally frequent keys, met first; there is none exactly when `ks` is empty. */
  lemma TopIsMostFrequentFirst<K>(counts: seq<(K, nat)>, ks: seq<K>)
    requires Tallies(counts, ks)
    ensures Top(counts).None? <==> ks == []
    ensures Top(counts).Some? ==> MostFrequentFirst(ks, Top(counts).value)
  {
    DistinctSpec(ks);
    assert |counts| == |Distinct(ks)|;
    if ks != [] {
      assert ks[0] in Distinct(ks);
    }
    if counts != [] {
      var j := FirstMaxIndex(counts);
      var k := counts[j].0;
      assert KeysOf(counts)[j] == k;
      forall x | x in ks
        ensures multiset(ks)[x] <= multiset(ks)[k]
        ensures multiset(ks)[x] == multiset(ks)[k] ==> FirstIndex(ks, k) <= FirstIndex(ks, x)
      {
        assert x in KeysOf(counts);
        var i :| 0 <= i < |counts| && KeysOf(counts)[i] == x;
        assert counts[i].0 == x;
      }
    }
  }

  /** At most one key is the first most frequent one, so the top key is determined by `ks`. */
  lemma MostFrequentFirstUnique<K>(ks: seq<K>, a: K, b: K)
    requires MostFrequentFirst(ks, a) && MostFrequentFirst(ks, b)
    ensures a == b
  {
    assert FirstIndex(ks, a) == FirstIndex(ks, b);
  }

  /** At most three recommendations, each a catalog word that is neither weak nor mastered and
      shares the top category or difficulty, in catalog order without repeats; fewer than three
      only when no other catalog word qualifies; none when there is no top key. */
  lemma RecommendedSpec(weakIds: seq<string>, masteredIds: seq<string>,
                        topCategory: Option<Category>, topDifficulty: Option<Difficulty>)
    ensures var r := Recommended(weakIds, masteredIds, topCategory, topDifficulty);
      |r| <= 3
      && (forall w :: w in r ==> w in Vocabulary && Recommendable(w, weakIds, masteredIds, topCategory, topDifficulty))
      && IsSubsequence(r, Vocabulary) && NoDup(r)
    ensures var r := Recommended(weakIds, masteredIds, topCategory, topDifficulty);
      |r| < 3 ==> forall w :: w in Vocabulary && Recommendable(w, weakIds, masteredIds, topCategory, topDifficulty) ==> w in r
    ensures topCategory.None? && topDifficulty.None? ==> Recommended(weakIds, masteredIds, topCategory, topDifficulty) == []
  {
    var p := RecommendFilter(weakIds, masteredIds, topCategory, topDifficulty);
    TakeFilterSpec(Vocabulary, p, 3);
    CatalogNoDup();
    if topCategory.None? && topDifficulty.None? {
      FilterNone(Vocabulary, p);
    }
  }

  /** The three recommendations are the FIRST three qualifying catalog words: a qualifying
      word that comes before a recommended one in the catalog is recommended too. */
  lemma RecommendedFirst(weakIds: seq<string>, masteredIds: seq<string>,
                         topCategory: Option<Category>, topDifficulty: Option<Difficulty>)
    ensures var r := Recommended(weakIds, masteredIds, topCategory, topDifficulty);
      forall i, j ::
        (0 <= i < j < |Vocabulary| && Vocabulary[j] in r &&
         Recommendable(Vocabulary[i], weakIds, masteredIds, topCategory, topDifficulty)) ==> Vocabulary[i] in r
  {
    var p := RecommendFilter(weakIds, masteredIds, topCategory, topDifficulty);
    var r := Recommended(weakIds, masteredIds, topCategory, topDifficulty);
    CatalogNoDup();
    forall i, j | 0 <= i < j < |Vocabulary| && Vocabulary[j] in r &&
      Recommendable(Vocabulary[i], weakIds, masteredIds, topCategory, topDifficulty)
      ensures Vocabulary[i] in r
    {
      TakeFilterFirst(Vocabulary, p, 3, i, j);
    }
  }
}
