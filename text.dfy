/** The JavaScript string operations the app relies on: toLowerCase, trim, includes,
    split(" "), join(" ") and the decimal rendering of a non-negative integer. */
module Text {

  /** String.prototype.toLowerCase, restricted to the ASCII letters A-Z. */
  function LowerChar(c: char): char
  {
    if 'A' <= c <= 'Z' then (c as int + 32) as char else c
  }

  function ToLower(s: string): string
  {
    seq(|s|, i requires 0 <= i < |s| => LowerChar(s[i]))
  }

  /** The characters String.prototype.trim removes: ECMAScript's WhiteSpace and LineTerminator. */
  predicate IsWhitespace(c: char)
  {
    c == '\t' || c == '\n' || c == '\U{000B}' || c == '\U{000C}' || c == '\r' || c == ' '
    || c == '\U{00A0}' || c == '\U{1680}' || ('\U{2000}' <= c <= '\U{200A}')
    || c == '\U{2028}' || c == '\U{2029}' || c == '\U{202F}' || c == '\U{205F}'
    || c == '\U{3000}' || c == '\U{FEFF}'
  }

  predicate AllWhitespace(s: string)
  {
    forall i :: 0 <= i < |s| ==> IsWhitespace(s[i])
  }

  function TrimStart(s: string): string
  {
    if s != [] && IsWhitespace(s[0]) then TrimStart(s[1..]) else s
  }

  function TrimEnd(s: string): string
  {
    if s != [] && IsWhitespace(s[|s| - 1]) then TrimEnd(s[..|s| - 1]) else s
  }

  /** String.prototype.trim */
  function Trim(s: string): string
  {
    TrimEnd(TrimStart(s))
  }

  /** String.prototype.includes: `q` occurs in `s` at some position (the empty string occurs everywhere). */
  function Contains(s: string, q: string): bool
  {
    if |q| > |s| then false else s[..|q|] == q || Contains(s[1..], q)
  }

  /** String.prototype.split(" "): the pieces between single spaces, empty pieces included;
      `cur` is the piece being built at position `i`. */
  function SplitAt(s: string, i: nat, cur: string): seq<string>
    requires i <= |s|
    decreases |s| - i
  {
    if i == |s| then [cur]
    else if s[i] == ' ' then [cur] + SplitAt(s, i + 1, "")
    else SplitAt(s, i + 1, cur + [s[i]])
  }

  function Split(s: string): seq<string>
  {
    SplitAt(s, 0, "")
  }

  /** Array.prototype.join(" ") */
  function Join(ts: seq<string>): string
  {
    if ts == [] then "" else JoinFrom(ts, 0)
  }

  /** `ts[i..].join(" ")` for a non-empty tail. */
  function JoinFrom(ts: seq<string>, i: nat): string
    requires i < |ts|
    decreases |ts| - i
  {
    if i == |ts| - 1 then ts[i] else ts[i] + " " + JoinFrom(ts, i + 1)
  }

  function DigitChar(d: nat): char
    requires d < 10
  {
    ('0' as int + d) as char
  }

  /** Number.prototype.toString() for a non-negative integer. */
  function NatToString(n: nat): string
  {
    if n < 10 then [DigitChar(n)] else NatToString(n / 10) + [DigitChar(n % 10)]
  }

  /** The decimal rendering is all digits: one for a single-digit number, more otherwise. */
  lemma {:induction false} NatToStringDigits(n: nat)
    ensures forall k :: 0 <= k < |NatToString(n)| ==> '0' <= NatToString(n)[k] <= '9'
    ensures (n < 10 ==> |NatToString(n)| == 1) && (n >= 10 ==> |NatToString(n)| >= 2)
  {
    if n >= 10 {
      NatToStringDigits(n / 10);
    }
  }

  /** Different numbers have different decimal renderings. */
  lemma {:induction false} NatToStringInjective(a: nat, b: nat)
    requires NatToString(a) == NatToString(b)
    ensures a == b
  {
    NatToStringDigits(a);
    NatToStringDigits(b);
    if a >= 10 && b >= 10 {
      var sa, sb := NatToString(a), NatToString(b);
      assert sa[..|sa| - 1] == NatToString(a / 10);
      assert sb[..|sb| - 1] == NatToString(b / 10);
      NatToStringInjective(a / 10, b / 10);
      assert DigitChar(a % 10) == DigitChar(b % 10);
    }
  }

  // ---------------------------------------------------------------- lower case

  lemma ToLowerAppend(a: string, b: string)
    ensures ToLower(a + b) == ToLower(a) + ToLower(b)
  {
  }

  /** Lower-casing twice is lower-casing once. */
  lemma ToLowerIdempotent(s: string)
    ensures ToLower(ToLower(s)) == ToLower(s)
  {
  }

  /** Lowering leaves whitespace alone. */
  lemma ToLowerWhitespace(s: string)
    requires AllWhitespace(s)
    ensures ToLower(s) == s
  {
  }

  // ---------------------------------------------------------------- trim

  /** A trimmed string neither starts nor ends with whitespace. */
  lemma {:induction false} TrimStripsBothEnds(s: string)
    ensures Trim(s) != [] ==> !IsWhitespace(Trim(s)[0]) && !IsWhitespace(Trim(s)[|Trim(s)| - 1])
  {
    TrimStartStrips(s);
    TrimEndStrips(TrimStart(s));
  }

  lemma {:induction false} TrimStartStrips(s: string)
    ensures TrimStart(s) != [] ==> !IsWhitespace(TrimStart(s)[0])
    ensures AllWhitespace(s) ==> TrimStart(s) == []
  {
    if s != [] && IsWhitespace(s[0]) {
      TrimStartStrips(s[1..]);
      if AllWhitespace(s) {
        assert forall i :: 0 <= i < |s[1..]| ==> s[1..][i] == s[i + 1];
      }
    }
  }

  /** TrimEnd removes a suffix and leaves the first character where it was. */
  lemma {:induction false} TrimEndStrips(s: string)
    ensures TrimEnd(s) <= s
    ensures TrimEnd(s) != [] ==> !IsWhitespace(TrimEnd(s)[|TrimEnd(s)| - 1])
    decreases |s|
  {
    if s != [] && IsWhitespace(s[|s| - 1]) {
      TrimEndStrips(s[..|s| - 1]);
    }
  }

  lemma {:induction false} TrimStartPadded(pre: string, s: string)
    requires AllWhitespace(pre)
    ensures TrimStart(pre + s) == TrimStart(s)
  {
    if pre != [] {
      assert (pre + s)[0] == pre[0];
      assert (pre + s)[1..] == pre[1..] + s;
      assert forall i :: 0 <= i < |pre[1..]| ==> pre[1..][i] == pre[i + 1];
      TrimStartPadded(pre[1..], s);
    } else {
      assert pre + s == s;
    }
  }

  lemma {:induction false} TrimEndPadded(s: string, post: string)
    requires AllWhitespace(post)
    ensures TrimEnd(s + post) == TrimEnd(s)
    decreases |post|
  {
    if post != [] {
      var p := post[..|post| - 1];
      assert (s + post)[..|s + post| - 1] == s + p;
      TrimEndPadded(s, p);
    } else {
      assert s + post == s;
    }
  }

  /** Whitespace after a string with a non-whitespace character does not reach TrimStart. */
  lemma {:induction false} TrimStartAppend(s: string, post: string)
    ensures !AllWhitespace(s) ==> TrimStart(s + post) == TrimStart(s) + post
    ensures AllWhitespace(s) ==> TrimStart(s + post) == TrimStart(post)
  {
    if s == [] {
      assert s + post == post;
    } else if IsWhitespace(s[0]) {
      assert (s + post)[1..] == s[1..] + post;
      TrimStartAppend(s[1..], post);
      assert AllWhitespace(s) <==> AllWhitespace(s[1..]) by {
        assert forall i :: 0 <= i < |s[1..]| ==> s[1..][i] == s[i + 1];
      }
    } else {
      assert (s + post)[0] == s[0];
    }
  }

  /** trim() ignores whitespace padding on either side. */
  lemma TrimPadded(pre: string, s: string, post: string)
    requires AllWhitespace(pre) && AllWhitespace(post)
    ensures Trim(pre + s + post) == Trim(s)
  {
    assert pre + s + post == pre + (s + post);
    TrimStartPadded(pre, s + post);
    TrimStartAppend(s, post);
    if AllWhitespace(s) {
      TrimStartStrips(post);
      TrimStartStrips(s);
    } else {
      TrimEndPadded(TrimStart(s), post);
    }
  }

  // ---------------------------------------------------------------- includes

  /** `q` occurs in `s` at index `i`. */
  ghost predicate OccursAt(s: string, q: string, i: int)
  {
    0 <= i <= |s| - |q| && s[i..i + |q|] == q
  }

  /** Contains agrees with "q occurs at some index of s". */
  lemma {:induction false} ContainsSpec(s: string, q: string)
    ensures Contains(s, q) <==> exists i :: OccursAt(s, q, i)
  {
    if |q| > |s| {
      assert forall i :: !OccursAt(s, q, i);
    } else if s[..|q|] == q {
      assert OccursAt(s, q, 0);
    } else {
      assert s != [];
      ContainsSpec(s[1..], q);
      if exists i :: OccursAt(s, q, i) {
        var i :| OccursAt(s, q, i);
        assert i > 0;
        assert s[1..][i - 1..i - 1 + |q|] == q;
        assert OccursAt(s[1..], q, i - 1);
      }
      if Contains(s[1..], q) {
        var i :| OccursAt(s[1..], q, i);
        assert s[i + 1..i + 1 + |q|] == q;
        assert OccursAt(s, q, i + 1);
      }
    }
  }

  /** The empty query occurs in every string. */
  lemma ContainsEmpty(s: string)
    ensures Contains(s, "")
  {
  }

  // ---------------------------------------------------------------- split / join

  lemma {:induction false} JoinFromShift(ts: seq<string>, i: nat)
    requires 1 <= i < |ts|
    ensures JoinFrom(ts, i) == JoinFrom(ts[1..], i - 1)
    decreases |ts| - i
  {
    if i < |ts| - 1 {
      JoinFromShift(ts, i + 1);
    }
  }

  /** join(" ") puts one space between the first element and the join of the rest. */
  lemma JoinCons(ts: seq<string>)
    requires ts != []
    ensures |ts| == 1 ==> Join(ts) == ts[0]
    ensures |ts| > 1 ==> Join(ts) == ts[0] + " " + Join(ts[1..])
  {
    if |ts| > 1 {
      JoinFromShift(ts, 1);
    }
  }

  /** A run of non-space characters joins the piece being built. */
  lemma {:induction false} SplitAtRun(s: string, i: nat, j: nat, cur: string)
    requires i <= j <= |s|
    requires forall k :: i <= k < j ==> s[k] != ' '
    ensures SplitAt(s, i, cur) == SplitAt(s, j, cur + s[i..j])
    decreases j - i
  {
    if i < j {
      SplitAtRun(s, i + 1, j, cur + [s[i]]);
      assert cur + [s[i]] + s[i + 1..j] == cur + s[i..j];
    } else {
      assert cur + s[i..j] == cur;
    }
  }

  /** The piece `s[i..j]` followed by a space is one token. */
  lemma SplitToken(s: string, i: nat, j: nat)
    requires i <= j < |s|
    requires forall k :: i <= k < j ==> s[k] != ' '
    requires s[j] == ' '
    ensures SplitAt(s, i, "") == [s[i..j]] + SplitAt(s, j + 1, "")
  {
    SplitAtRun(s, i, j, "");
    assert "" + s[i..j] == s[i..j];
  }

  /** The piece `s[i..]` without spaces is the last token. */
  lemma SplitLastToken(s: string, i: nat)
    requires i <= |s|
    requires forall k :: i <= k < |s| ==> s[k] != ' '
    ensures SplitAt(s, i, "") == [s[i..]]
  {
    SplitAtRun(s, i, |s|, "");
    assert "" + s[i..|s|] == s[i..];
  }

  lemma {:induction false} SplitAtShape(s: string, i: nat, cur: string)
    requires i <= |s|
    requires ' ' !in cur
    ensures |SplitAt(s, i, cur)| >= 1
    ensures forall t :: t in SplitAt(s, i, cur) ==> ' ' !in t
    ensures Join(SplitAt(s, i, cur)) == cur + s[i..]
    decreases |s| - i
  {
    if i == |s| {
    } else if s[i] == ' ' {
      SplitAtShape(s, i + 1, "");
      var rest := SplitAt(s, i + 1, "");
      assert ([cur] + rest)[1..] == rest;
      JoinCons([cur] + rest);
      assert s[i..] == [' '] + s[i + 1..];
    } else {
      SplitAtShape(s, i + 1, cur + [s[i]]);
      assert s[i..] == [s[i]] + s[i + 1..];
    }
  }

  /** split(" ") yields at least one token, none containing a space, and joining the tokens
      with " " gives back the string. */
  lemma SplitShape(s: string)
    ensures |Split(s)| >= 1
    ensures forall t :: t in Split(s) ==> ' ' !in t
    ensures Join(Split(s)) == s
  {
    SplitAtShape(s, 0, "");
  }

  lemma {:induction false} SplitAtShift(p: string, b: string, k: nat, cur: string)
    requires k <= |b|
    ensures SplitAt(p + b, |p| + k, cur) == SplitAt(b, k, cur)
    decreases |b| - k
  {
    if k < |b| {
      assert (p + b)[|p| + k] == b[k];
      SplitAtShift(p, b, k + 1, if b[k] == ' ' then "" else cur + [b[k]]);
    }
  }

  /** Splitting a join of space-free tokens gives the tokens back. */
  lemma {:induction false} SplitJoin(ts: seq<string>)
    requires |ts| >= 1
    requires forall t :: t in ts ==> ' ' !in t
    ensures Split(Join(ts)) == ts
  {
    var t := ts[0];
    assert ' ' !in t;
    forall k | 0 <= k < |t| ensures t[k] != ' ' {
      assert t[k] in t;
    }
    JoinCons(ts);
    if |ts| == 1 {
      SplitLastToken(t, 0);
    } else {
      var rest := Join(ts[1..]);
      var s := t + " " + rest;
      assert s[..|t|] == t;
      SplitAtRun(s, 0, |t|, "");
      assert "" + s[0..|t|] == t;
      assert s == (t + " ") + rest;
      SplitAtShift(t + " ", rest, 0, "");
      SplitJoin(ts[1..]);
      assert ts == [t] + ts[1..];
    }
  }
}
