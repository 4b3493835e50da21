/** Sequence helpers shared by the model: JavaScript's Array.prototype.filter,
    includes-guarded push, and slice(0, n), with the facts proved about them. */
module Seqs {

  /** `s.filter(p)`: the elements satisfying `p`, in their original order. */
  function Filter<T>(s: seq<T>, p: T -> bool): seq<T>
  {
    if s == [] then [] else (if p(s[0]) then [s[0]] else []) + Filter(s[1..], p)
  }

  /** `r` can be obtained from `s` by deleting elements: the order of what is kept is preserved. */
  ghost predicate IsSubsequence<T>(r: seq<T>, s: seq<T>)
    decreases |s|
  {
    r == [] || (s != [] && ((r[0] == s[0] && IsSubsequence(r[1..], s[1..])) || IsSubsequence(r, s[1..])))
  }

  /** No element occurs twice. */
  predicate NoDup<T(==)>(s: seq<T>)
  {
    forall i, j :: 0 <= i < j < |s| ==> s[i] != s[j]
  }

  /** `if (!s.includes(x)) s.push(x)` */
  function AddIfAbsent<T(==)>(s: seq<T>, x: T): seq<T>
  {
    if x in s then s else s + [x]
  }

  /** `s.filter((y) => y !== x)` */
  function RemoveAll<T(==)>(s: seq<T>, x: T): seq<T>
  {
    Filter(s, y => y != x)
  }

  /** `s.slice(0, n)` for n >= 0. */
  function Take<T>(s: seq<T>, n: nat): seq<T>
  {
    if n <= |s| then s[..n] else s
  }

  /** The three facts that pin a filter's result down completely: every kept element satisfies
      `p`, every element is kept exactly as often as it occurs in `s` when it satisfies `p`, and
      the kept elements appear in the order of `s`. */
  lemma FilterSpec<T>(s: seq<T>, p: T -> bool)
    ensures forall x :: x in Filter(s, p) <==> x in s && p(x)
    ensures forall x :: multiset(Filter(s, p))[x] == if p(x) then multiset(s)[x] else 0
    ensures IsSubsequence(Filter(s, p), s)
    ensures |Filter(s, p)| <= |s|
  {
    FilterCount(s, p);
    FilterSubsequence(s, p);
    forall x ensures x in Filter(s, p) <==> x in s && p(x) {
      assert x in Filter(s, p) <==> multiset(Filter(s, p))[x] > 0;
      assert x in s <==> multiset(s)[x] > 0;
    }
  }

  /** A filter keeps each element satisfying `p` as often as it occurs, and no other element. */
  lemma {:induction false} FilterCount<T>(s: seq<T>, p: T -> bool)
    ensures forall x :: multiset(Filter(s, p))[x] == if p(x) then multiset(s)[x] else 0
    ensures |Filter(s, p)| <= |s|
  {
    if s != [] {
      FilterCount(s[1..], p);
      assert s == [s[0]] + s[1..];
    }
  }

  /** A filter keeps the order of `s`. */
  lemma {:induction false} FilterSubsequence<T>(s: seq<T>, p: T -> bool)
    ensures IsSubsequence(Filter(s, p), s)
  {
    if s != [] {
      FilterSubsequence(s[1..], p);
      var r := Filter(s, p);
      var t := Filter(s[1..], p);
      if p(s[0]) {
        assert r == [s[0]] + t;
        assert r[1..] == t;
      } else {
        assert r == t;
        SubsequenceOfTail(t, s);
      }
    }
  }

  /** Filtering with a predicate that no element satisfies leaves nothing. */
  lemma {:induction false} FilterNone<T>(s: seq<T>, p: T -> bool)
    requires forall x :: x in s ==> !p(x)
    ensures Filter(s, p) == []
  {
    if s != [] {
      FilterNone(s[1..], p);
    }
  }

  lemma SubsequenceOfTail<T>(r: seq<T>, s: seq<T>)
    requires s != [] && IsSubsequence(r, s[1..])
    ensures IsSubsequence(r, s)
  {
  }

  /** Every element of a subsequence is an element of the sequence. */
  lemma {:induction false} SubsequenceMembers<T>(r: seq<T>, s: seq<T>)
    requires IsSubsequence(r, s)
    ensures forall x :: x in r ==> x in s
    decreases |s|
  {
    if r != [] {
      assert s != [];
      if r[0] == s[0] && IsSubsequence(r[1..], s[1..]) {
        SubsequenceMembers(r[1..], s[1..]);
        assert r == [r[0]] + r[1..];
      } else {
        SubsequenceMembers(r, s[1..]);
      }
    }
  }

  /** A subsequence of a duplicate-free sequence is duplicate-free. */
  lemma {:induction false} SubsequenceNoDup<T>(r: seq<T>, s: seq<T>)
    requires IsSubsequence(r, s) && NoDup(s)
    ensures NoDup(r)
    decreases |s|
  {
    if r != [] {
      if r[0] == s[0] && IsSubsequence(r[1..], s[1..]) {
        SubsequenceNoDup(r[1..], s[1..]);
        SubsequenceMembers(r[1..], s[1..]);
        forall i, j | 0 <= i < j < |r| ensures r[i] != r[j] {
          if i == 0 {
            assert r[j] == r[1..][j - 1];
            assert r[j] in s[1..];
          } else {
            assert r[i] == r[1..][i - 1] && r[j] == r[1..][j - 1];
          }
        }
      } else {
        SubsequenceNoDup(r, s[1..]);
      }
    }
  }

  /** In a duplicate-free sequence a present element occurs exactly once. */
  lemma {:induction false} NoDupCount<T>(s: seq<T>, x: T)
    requires NoDup(s)
    ensures multiset(s)[x] == if x in s then 1 else 0
  {
    if s != [] {
      assert s == [s[0]] + s[1..];
      NoDupCount(s[1..], x);
      if s[0] == x {
        assert x !in s[1..];
      }
    }
  }

  /** `AddIfAbsent` guarantees presence, keeps the old elements in front, and keeps a
      duplicate-free sequence duplicate-free, so `x` then occurs exactly once. */
  lemma AddIfAbsentSpec<T>(s: seq<T>, x: T)
    ensures x in AddIfAbsent(s, x)
    ensures AddIfAbsent(s, x) == s || AddIfAbsent(s, x) == s + [x]
    ensures forall y :: y in AddIfAbsent(s, x) <==> y in s || y == x
    ensures NoDup(s) ==> NoDup(AddIfAbsent(s, x)) && multiset(AddIfAbsent(s, x))[x] == 1
  {
    if NoDup(s) {
      NoDupCount(AddIfAbsent(s, x), x);
    }
  }

  /** Removing every `x`: `x` is gone, everything else keeps its count and relative order. */
  lemma RemoveAllSpec<T>(s: seq<T>, x: T)
    ensures x !in RemoveAll(s, x)
    ensures forall y :: y != x ==> multiset(RemoveAll(s, x))[y] == multiset(s)[y]
    ensures forall y :: y in RemoveAll(s, x) <==> y in s && y != x
    ensures IsSubsequence(RemoveAll(s, x), s)
    ensures NoDup(s) ==> NoDup(RemoveAll(s, x))
  {
    FilterSpec(s, y => y != x);
    if NoDup(s) {
      SubsequenceNoDup(RemoveAll(s, x), s);
    }
  }

  /** `slice(0, n)` yields a prefix of at most `n` elements, kept in order and, from a
      duplicate-free sequence, duplicate-free. */
  lemma TakeSpec<T>(s: seq<T>, n: nat)
    ensures |Take(s, n)| == if n <= |s| then n else |s|
    ensures Take(s, n) <= s
    ensures IsSubsequence(Take(s, n), s)
    ensures NoDup(s) ==> NoDup(Take(s, n))
  {
    if n <= |s| {
      PrefixSubsequence(s, n);
    } else {
      PrefixSubsequence(s, |s|);
      assert s[..|s|] == s;
    }
  }

  /** `s.filter(p).slice(0, n)`: at most `n` elements of `s` satisfying `p`, in the order of `s`;
      fewer than `n` only when every element satisfying `p` is among them. */
  lemma TakeFilterSpec<T>(s: seq<T>, p: T -> bool, n: nat)
    ensures |Take(Filter(s, p), n)| <= n
    ensures forall x :: x in Take(Filter(s, p), n) ==> x in s && p(x)
    ensures |Take(Filter(s, p), n)| < n ==> forall x :: x in s && p(x) ==> x in Take(Filter(s, p), n)
    ensures IsSubsequence(Take(Filter(s, p), n), s)
    ensures NoDup(s) ==> NoDup(Take(Filter(s, p), n))
  {
    var all := Filter(s, p);
    FilterSpec(s, p);
    TakeSpec(all, n);
    SubsequenceTrans(Take(all, n), all, s);
    if NoDup(s) {
      SubsequenceNoDup(Take(all, n), s);
    }
  }

  /** `filter(p).slice(0, n)` over a duplicate-free `s` keeps the FIRST qualifying elements:
      an element that qualifies and comes before a kept one is kept too. */
  lemma {:induction false} TakeFilterFirst<T>(s: seq<T>, p: T -> bool, n: nat, i: nat, j: nat)
    requires NoDup(s) && i < j < |s| && p(s[i]) && s[j] in Take(Filter(s, p), n)
    ensures s[i] in Take(Filter(s, p), n)
    decreases |s|
  {
    var rest := s[1..];
    var t := Filter(rest, p);
    InTakePositive(Filter(s, p), n, s[j]);
    if p(s[0]) {
      assert Filter(s, p) == [s[0]] + t;
      TakeCons(s[0], t, n);
      var kept := Take(t, n - 1);
      assert Take(Filter(s, p), n) == [s[0]] + kept;
      if i > 0 {
        NoDupTail(s);
        assert s[j] != s[0];
        assert rest[i - 1] == s[i] && rest[j - 1] == s[j];
        assert s[j] in kept;
        TakeFilterFirst(rest, p, n - 1, i - 1, j - 1);
        assert s[i] in kept;
      }
    } else {
      assert Filter(s, p) == t;
      NoDupTail(s);
      assert rest[i - 1] == s[i] && rest[j - 1] == s[j];
      TakeFilterFirst(rest, p, n, i - 1, j - 1);
    }
  }

  /** Something was taken, so `n` is positive. */
  lemma InTakePositive<T>(x: seq<T>, n: nat, y: T)
    requires y in Take(x, n)
    ensures n > 0
  {
    assert Take(x, 0) == [];
  }

  /** Taking `n > 0` elements of a list with a known head. */
  lemma TakeCons<T>(x: T, t: seq<T>, n: nat)
    requires n > 0
    ensures Take([x] + t, n) == [x] + Take(t, n - 1)
  {
    if n <= |t| + 1 {
      assert ([x] + t)[..n] == [x] + t[..n - 1];
    }
  }

  /** The tail of a duplicate-free list is duplicate-free. */
  lemma NoDupTail<T>(s: seq<T>)
    requires NoDup(s) && s != []
    ensures NoDup(s[1..])
  {
    forall i, j | 0 <= i < j < |s| - 1 ensures s[1..][i] != s[1..][j] {
      assert s[1..][i] == s[i + 1] && s[1..][j] == s[j + 1];
    }
  }

  /** A prefix is a subsequence. */
  lemma {:induction false} PrefixSubsequence<T>(s: seq<T>, n: nat)
    requires n <= |s|
    ensures IsSubsequence(s[..n], s)
  {
    if n > 0 {
      assert s[..n][1..] == s[1..][..n - 1];
      PrefixSubsequence(s[1..], n - 1);
    }
  }

  /** Being a subsequence is transitive. */
  lemma {:induction false} SubsequenceTrans<T>(a: seq<T>, b: seq<T>, c: seq<T>)
    requires IsSubsequence(a, b) && IsSubsequence(b, c)
    ensures IsSubsequence(a, c)
    decreases |c|
  {
    if a != [] {
      if IsSubsequence(b, c[1..]) {
        SubsequenceTrans(a, b, c[1..]);
      } else if a[0] == b[0] && IsSubsequence(a[1..], b[1..]) {
        SubsequenceTrans(a[1..], b[1..], c[1..]);
      } else {
        SubsequenceTrans(a, b[1..], c[1..]);
      }
    }
  }

  /** `s.slice(0, end)` with JavaScript's reading of `end`: a negative end counts back from
      the length, and an end past the length is clamped to it. */
  function SliceTo<T>(s: seq<T>, end: int): seq<T>
  {
    var e := if end < 0 then (if |s| + end < 0 then 0 else |s| + end)
             else (if end > |s| then |s| else end);
    s[..e]
  }

  /** A permutation of a duplicate-free sequence is duplicate-free. */
  lemma {:induction false} NoDupPermutation<T>(s: seq<T>, t: seq<T>)
    requires NoDup(s) && multiset(s) == multiset(t)
    ensures NoDup(t)
  {
    forall i, j | 0 <= i < j < |t| ensures t[i] != t[j] {
      if t[i] == t[j] {
        assert t == t[..i] + [t[i]] + t[i + 1..j] + [t[j]] + t[j + 1..];
        assert multiset(t)[t[i]] >= 2;
        NoDupCount(s, t[i]);
        assert false;
      }
    }
  }

  /** Deleting the element at `i` of a duplicate-free sequence leaves exactly the other
      elements, still without duplicates. */
  lemma RemoveAtSpec<T>(s: seq<T>, i: nat)
    requires NoDup(s) && i < |s|
    ensures forall x :: x in s[..i] + s[i + 1..] <==> x in s && x != s[i]
    ensures NoDup(s[..i] + s[i + 1..])
  {
    var r := s[..i] + s[i + 1..];
    forall x ensures x in r <==> x in s && x != s[i] {
      if x in r {
        var j :| 0 <= j < |r| && r[j] == x;
        var j2 := if j < i then j else j + 1;
        assert s[j2] == x && j2 != i;
      }
      if x in s && x != s[i] {
        var j :| 0 <= j < |s| && s[j] == x;
        if j < i { assert r[j] == x; } else { assert r[j - 1] == x; }
      }
    }
    forall a, b | 0 <= a < b < |r| ensures r[a] != r[b] {
      var a2 := if a < i then a else a + 1;
      var b2 := if b < i then b else b + 1;
      assert r[a] == s[a2] && r[b] == s[b2] && a2 < b2;
    }
  }

  /** A prefix of a duplicate-free sequence is duplicate-free. */
  lemma PrefixNoDup<T>(s: seq<T>, n: nat)
    requires NoDup(s) && n <= |s|
    ensures NoDup(s[..n])
  {
  }

  /** `t.slice(0, end)` for a rearrangement `t` of a duplicate-free `s`: as many elements as
      the clamped end says, all from `s`, none twice. */
  lemma SliceToPermutation<T>(s: seq<T>, t: seq<T>, end: int)
    requires NoDup(s) && multiset(s) == multiset(t)
    ensures end >= 0 ==> |SliceTo(t, end)| == if end <= |s| then end else |s|
    ensures end < 0 ==> |SliceTo(t, end)| == if |s| + end < 0 then 0 else |s| + end
    ensures forall x :: x in SliceTo(t, end) ==> x in s
    ensures NoDup(SliceTo(t, end))
  {
    NoDupPermutation(s, t);
    assert |t| == |s| by {
      assert |multiset(t)| == |multiset(s)|;
    }
    forall x | x in SliceTo(t, end) ensures x in s {
      assert x in multiset(t);
    }
  }
}
