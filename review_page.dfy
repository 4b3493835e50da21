/** app/review/page.tsx: the review page lists the weak and the mastered catalog words and lets
    the learner move a word between the two lists by hand. */
module ReviewPage {
  import opened Seqs
  import opened Catalog
  import opened LocalStorage
  import opened Progress

  /** The record as `handleMarkAsKnown` leaves it in the tracker and in storage. The filter that
      should take the id out of the weak list is assigned to the shallow copy's own field, so
      only the push onto the shared mastered list reaches the tracker. */
  function MarkedKnown(p: UserProgress, wordId: string): UserProgress
  {
    p.(masteredWords := AddIfAbsent(p.masteredWords, wordId))
  }

  /** The record as `handleMarkAsUnknown` leaves it: only the push onto the shared weak list. */
  function MarkedUnknown(p: UserProgress, wordId: string): UserProgress
  {
    p.(weakWords := AddIfAbsent(p.weakWords, wordId))
  }

  /** What the comments of both handlers promise: the id leaves one list and joins the other. */
  function IntendedKnown(p: UserProgress, wordId: string): UserProgress
  {
    p.(weakWords := RemoveAll(p.weakWords, wordId), masteredWords := AddIfAbsent(p.masteredWords, wordId))
  }

  function IntendedUnknown(p: UserProgress, wordId: string): UserProgress
  {
    p.(masteredWords := RemoveAll(p.masteredWords, wordId), weakWords := AddIfAbsent(p.weakWords, wordId))
  }

  /** `loadProgress`: the catalog entries whose ids are in the weak list and in the mastered list,
      each in catalog order and without repeats. */
  method LoadProgress(tracker: ProgressManager) returns (weak: seq<VocabularyWord>, mastered: seq<VocabularyWord>)
    ensures forall w :: w in weak <==> w in Vocabulary && w.id in tracker.progress.weakWords.items
    ensures forall w :: w in mastered <==> w in Vocabulary && w.id in tracker.progress.masteredWords.items
    ensures IsSubsequence(weak, Vocabulary) && IsSubsequence(mastered, Vocabulary)
    ensures NoDup(weak) && NoDup(mastered)
  {
    var current := tracker.GetProgress();
    weak := EntriesWithIds(current.weakWords.items);
    mastered := EntriesWithIds(current.masteredWords.items);
    EntriesWithIdsSpec(current.weakWords.items);
    EntriesWithIdsSpec(current.masteredWords.items);
  }

  /** `handleMarkAsKnown(wordId)`: a shallow copy, its weak field reassigned to a filtered new
      list, a push onto the mastered list it shares with the tracker, and a save of the
      tracker's record. */
  method MarkAsKnown(tracker: ProgressManager, wordId: string)
    requires tracker.Valid()
    modifies tracker.progress.masteredWords, tracker.store
    ensures tracker.Valid()
    ensures tracker.progress.Value() == MarkedKnown(old(tracker.progress.Value()), wordId)
    ensures tracker.store.value == Some(tracker.progress.Value())
  {
    var current := tracker.GetProgress();
    current.weakWords := new IdList(RemoveAll(current.weakWords.items, wordId));
    if wordId !in current.masteredWords.items {
      current.masteredWords.items := current.masteredWords.items + [wordId];
    }
    tracker.SaveProgress();
  }

  /** `handleMarkAsUnknown(wordId)`: the same with the roles of the two lists swapped. */
  method MarkAsUnknown(tracker: ProgressManager, wordId: string)
    requires tracker.Valid()
    modifies tracker.progress.weakWords, tracker.store
    ensures tracker.Valid()
    ensures tracker.progress.Value() == MarkedUnknown(old(tracker.progress.Value()), wordId)
    ensures tracker.store.value == Some(tracker.progress.Value())
  {
    var current := tracker.GetProgress();
    current.masteredWords := new IdList(RemoveAll(current.masteredWords.items, wordId));
    if wordId !in current.weakWords.items {
      current.weakWords.items := current.weakWords.items + [wordId];
    }
    tracker.SaveProgress();
  }

  /** Mark-as-known with the removal applied to the tracker's own record, as the comment says. */
  method MarkAsKnownIntended(tracker: ProgressManager, wordId: string)
    requires tracker.Valid()
    modifies tracker.progress, tracker.progress.masteredWords, tracker.store
    ensures tracker.Valid()
    ensures tracker.progress.Value() == IntendedKnown(old(tracker.progress.Value()), wordId)
    ensures tracker.store.value == Some(tracker.progress.Value())
  {
    var current := tracker.progress;
    current.weakWords := new IdList(RemoveAll(current.weakWords.items, wordId));
    if wordId !in current.masteredWords.items {
      current.masteredWords.items := current.masteredWords.items + [wordId];
    }
    tracker.SaveProgress();
  }

  /** Mark-as-unknown with the removal applied to the tracker's own record. */
  method MarkAsUnknownIntended(tracker: ProgressManager, wordId: string)
    requires tracker.Valid()
    modifies tracker.progress, tracker.progress.weakWords, tracker.store
    ensures tracker.Valid()
    ensures tracker.progress.Value() == IntendedUnknown(old(tracker.progress.Value()), wordId)
    ensures tracker.store.value == Some(tracker.progress.Value())
  {
    var current := tracker.progress;
    current.masteredWords := new IdList(RemoveAll(current.masteredWords.items, wordId));
    if wordId !in current.weakWords.items {
      current.weakWords.items := current.weakWords.items + [wordId];
    }
    tracker.SaveProgress();
  }

  // ---------------------------------------------------------------- properties

  /** Mark-as-known as written: the id is in the mastered list, exactly once when the list had
      no repeats, but the weak list is untouched, so an id that was weak stays weak. No counter,
      tally, streak or date changes. */
  lemma MarkedKnownSpec(p: UserProgress, wordId: string)
    ensures wordId in MarkedKnown(p, wordId).masteredWords
    ensures NoDup(p.masteredWords) ==>
      NoDup(MarkedKnown(p, wordId).masteredWords) && multiset(MarkedKnown(p, wordId).masteredWords)[wordId] == 1
    ensures MarkedKnown(p, wordId).weakWords == p.weakWords
    ensures wordId in p.weakWords ==> wordId in MarkedKnown(p, wordId).weakWords
    ensures MarkedKnown(p, wordId).(masteredWords := p.masteredWords) == p
  {
    AddIfAbsentSpec(p.masteredWords, wordId);
  }

  /** Mark-as-unknown as written: the id is in the weak list exactly once, and it stays in the
      mastered list if it was there. */
  lemma MarkedUnknownSpec(p: UserProgress, wordId: string)
    ensures wordId in MarkedUnknown(p, wordId).weakWords
    ensures NoDup(p.weakWords) ==>
      NoDup(MarkedUnknown(p, wordId).weakWords) && multiset(MarkedUnknown(p, wordId).weakWords)[wordId] == 1
    ensures MarkedUnknown(p, wordId).masteredWords == p.masteredWords
    ensures wordId in p.masteredWords ==> wordId in MarkedUnknown(p, wordId).masteredWords
    ensures MarkedUnknown(p, wordId).(weakWords := p.weakWords) == p
  {
    AddIfAbsentSpec(p.weakWords, wordId);
  }

  /** The intended mark-as-known: the id is no longer weak and is mastered exactly once; the
      other weak ids keep their order; nothing else changes. */
  lemma IntendedKnownSpec(p: UserProgress, wordId: string)
    ensures wordId !in IntendedKnown(p, wordId).weakWords
    ensures wordId in IntendedKnown(p, wordId).masteredWords
    ensures IsSubsequence(IntendedKnown(p, wordId).weakWords, p.weakWords)
    ensures forall x :: x in IntendedKnown(p, wordId).weakWords <==> x in p.weakWords && x != wordId
    ensures NoDup(p.weakWords) && NoDup(p.masteredWords) ==>
      NoDup(IntendedKnown(p, wordId).weakWords) && NoDup(IntendedKnown(p, wordId).masteredWords)
      && multiset(IntendedKnown(p, wordId).masteredWords)[wordId] == 1
    ensures IntendedKnown(p, wordId).(weakWords := p.weakWords, masteredWords := p.masteredWords) == p
  {
    AddIfAbsentSpec(p.masteredWords, wordId);
    RemoveAllSpec(p.weakWords, wordId);
  }

  /** The intended mark-as-unknown: the id is no longer mastered and is weak exactly once. */
  lemma IntendedUnknownSpec(p: UserProgress, wordId: string)
    ensures wordId !in IntendedUnknown(p, wordId).masteredWords
    ensures wordId in IntendedUnknown(p, wordId).weakWords
    ensures IsSubsequence(IntendedUnknown(p, wordId).masteredWords, p.masteredWords)
    ensures forall x :: x in IntendedUnknown(p, wordId).masteredWords <==> x in p.masteredWords && x != wordId
    ensures NoDup(p.weakWords) && NoDup(p.masteredWords) ==>
      NoDup(IntendedUnknown(p, wordId).weakWords) && NoDup(IntendedUnknown(p, wordId).masteredWords)
      && multiset(IntendedUnknown(p, wordId).weakWords)[wordId] == 1
    ensures IntendedUnknown(p, wordId).(weakWords := p.weakWords, masteredWords := p.masteredWords) == p
  {
    AddIfAbsentSpec(p.weakWords, wordId);
    RemoveAllSpec(p.masteredWords, wordId);
  }

  /** A concrete record that shows the gap: after mark-as-known on a weak id, the saved record
      still lists it as weak, while the intended version does not. */
  lemma MarkAsKnownKeepsWeak(p: UserProgress)
    requires p.weakWords == ["1"] && p.masteredWords == []
    ensures MarkedKnown(p, "1").weakWords == ["1"] && MarkedKnown(p, "1").masteredWords == ["1"]
    ensures IntendedKnown(p, "1").weakWords == [] && IntendedKnown(p, "1").masteredWords == ["1"]
  {
    assert RemoveAll(["1"], "1") == Filter(["1"][1..], y => y != "1");
  }

  /** The mirror case: after mark-as-unknown on a mastered id, the saved record still lists it
      as mastered, while the intended version does not. */
  lemma MarkAsUnknownKeepsMastered(p: UserProgress)
    requires p.weakWords == [] && p.masteredWords == ["1"]
    ensures MarkedUnknown(p, "1").masteredWords == ["1"] && MarkedUnknown(p, "1").weakWords == ["1"]
    ensures IntendedUnknown(p, "1").masteredWords == [] && IntendedUnknown(p, "1").weakWords == ["1"]
  {
    assert RemoveAll(["1"], "1") == Filter(["1"][1..], y => y != "1");
  }
}
