/**
 * The string operations of Python's `str` that the core uses:
 * `isspace`, `strip()`, `rstrip("/")`, `split(",")`, `split()`,
 * `", ".join(...)`, the substring test `needle in haystack`,
 * `int(text)` and `str(n)`.
 */
module Text {
  import opened PyValues

  // ---------------------------------------------------------------------------
  // Whitespace

  /** Python's `str.isspace` for a single character. */
  predicate IsSpace(c: char) {
    || c == ' '
    || ('\U{9}' <= c <= '\U{D}')
    || ('\U{1C}' <= c <= '\U{1F}')
    || c == '\U{85}' || c == '\U{A0}' || c == '\U{1680}'
    || ('\U{2000}' <= c <= '\U{200A}')
    || c == '\U{2028}' || c == '\U{2029}' || c == '\U{202F}'
    || c == '\U{205F}' || c == '\U{3000}'
  }

  /** No whitespace at either end. */
  predicate Trimmed(s: string) {
    s == [] || (!IsSpace(s[0]) && !IsSpace(s[|s| - 1]))
  }

  /** `s.lstrip()`: the suffix of `s` left after dropping leading whitespace. */
  function LStrip(s: string): (r: string)
    ensures |r| <= |s| && r == s[|s| - |r|..]
    ensures r == [] || !IsSpace(r[0])
    ensures forall i :: 0 <= i < |s| - |r| ==> IsSpace(s[i])
  {
    if s != [] && IsSpace(s[0]) then
      var r := LStrip(s[1..]);
      SuffixOfTail(s, r);
      r
    else s
  }

  /** A suffix of `s[1..]` is a suffix of `s`. */
  lemma SuffixOfTail(s: string, r: string)
    requires s != [] && |r| <= |s| - 1 && r == s[1..][|s| - 1 - |r|..]
    ensures r == s[|s| - |r|..]
    ensures forall i :: 1 <= i < |s| ==> s[i] == s[1..][i - 1]
  {
  }

  /** `s.rstrip()`: the prefix of `s` left after dropping trailing whitespace. */
  function RStrip(s: string): (r: string)
    ensures |r| <= |s| && r == s[..|r|]
    ensures r == [] || !IsSpace(r[|r| - 1])
    ensures forall i :: |r| <= i < |s| ==> IsSpace(s[i])
  {
    if s != [] && IsSpace(s[|s| - 1]) then
      var r := RStrip(s[..|s| - 1]);
      PrefixOfInit(s, r);
      r
    else s
  }

  /** A prefix of `s[..|s| - 1]` is a prefix of `s`. */
  lemma PrefixOfInit(s: string, r: string)
    requires s != [] && |r| <= |s| - 1 && r == s[..|s| - 1][..|r|]
    ensures r == s[..|r|]
    ensures forall i :: 0 <= i < |s| - 1 ==> s[i] == s[..|s| - 1][i]
  {
  }

  /**
   * `r` is the slice `s[i..i + |r|]` and everything of `s` around it is
   * whitespace.
   */
  predicate StrippedAt(s: string, r: string, i: nat) {
    && i + |r| <= |s|
    && r == s[i..i + |r|]
    && (forall k :: 0 <= k < i ==> IsSpace(s[k]))
    && (forall k :: i + |r| <= k < |s| ==> IsSpace(s[k]))
  }

  /** `s.strip()`: `s` without its leading and trailing whitespace. */
  function Strip(s: string): (r: string)
    ensures Trimmed(r)
    ensures |r| <= |s|
  {
    RStrip(LStrip(s))
  }

  /** What `strip()` keeps is a slice of `s` with only whitespace around it. */
  lemma StripIsSlice(s: string)
    ensures exists i :: StrippedAt(s, Strip(s), i)
  {
    var l := LStrip(s);
    var i: nat := |s| - |l|;
    assert Strip(s) == RStrip(l);
    SliceOfSlice(s, l, RStrip(l));
    assert StrippedAt(s, Strip(s), i);
  }

  /**
   * A prefix `r` of a suffix `l` of `s`, each cut only at whitespace, is a
   * slice of `s` with whitespace around it.
   */
  lemma SliceOfSlice(s: string, l: string, r: string)
    requires |l| <= |s| && l == s[|s| - |l|..]
    requires forall k :: 0 <= k < |s| - |l| ==> IsSpace(s[k])
    requires |r| <= |l| && r == l[..|r|]
    requires forall k :: |r| <= k < |l| ==> IsSpace(l[k])
    ensures StrippedAt(s, r, |s| - |l|)
  {
    var i := |s| - |l|;
    forall k | i + |r| <= k < |s|
      ensures IsSpace(s[k])
    {
      assert s[k] == l[k - i];
    }
  }

  /** Leading whitespace is dropped up to the first other character. */
  lemma {:induction false} LStripSpaces(a: string, u: string)
    requires forall k :: 0 <= k < |a| ==> IsSpace(a[k])
    requires u == [] || !IsSpace(u[0])
    ensures LStrip(a + u) == u
  {
    if a != [] {
      assert (a + u)[1..] == a[1..] + u;
      LStripSpaces(a[1..], u);
    }
  }

  /** Trailing whitespace is dropped back to the last other character. */
  lemma {:induction false} RStripSpaces(u: string, b: string)
    requires forall k :: 0 <= k < |b| ==> IsSpace(b[k])
    requires u == [] || !IsSpace(u[|u| - 1])
    ensures RStrip(u + b) == u
  {
    if b != [] {
      assert (u + b)[..|u + b| - 1] == u + b[..|b| - 1];
      RStripSpaces(u, b[..|b| - 1]);
    } else {
      assert u + b == u;
    }
  }

  /** A text padded with whitespace on both sides strips back to the text. */
  lemma StripPadded(a: string, t: string, b: string)
    requires forall k :: 0 <= k < |a| ==> IsSpace(a[k])
    requires forall k :: 0 <= k < |b| ==> IsSpace(b[k])
    requires t != [] && Trimmed(t)
    ensures Strip(a + t + b) == t
  {
    assert a + t + b == a + (t + b);
    LStripSpaces(a, t + b);
    RStripSpaces(t, b);
  }

  /** A string of whitespace only strips to the empty string. */
  lemma StripBlank(s: string)
    requires forall k :: 0 <= k < |s| ==> IsSpace(s[k])
    ensures Strip(s) == []
  {
    assert s + [] == s;
    LStripSpaces(s, []);
  }

  /** Stripping leaves a string without surrounding whitespace unchanged. */
  lemma StripTrimmed(s: string)
    requires Trimmed(s)
    ensures Strip(s) == s
  {
  }

  /** `s.rstrip(c)` for a single character `c`. */
  function RStripChar(s: string, c: char): (r: string)
    ensures |r| <= |s| && r == s[..|r|]
    ensures r == [] || r[|r| - 1] != c
    ensures forall i :: |r| <= i < |s| ==> s[i] == c
  {
    if s != [] && s[|s| - 1] == c then RStripChar(s[..|s| - 1], c) else s
  }

  /** Appending `c` before `rstrip(c)` makes no difference. */
  lemma RStripCharAppend(s: string, c: char)
    ensures RStripChar(s + [c], c) == RStripChar(s, c)
  {
    assert (s + [c])[..|s + [c]| - 1] == s;
  }

  // ---------------------------------------------------------------------------
  // Substrings

  /** Python's `t in s` for strings: `t` occurs in `s` at some position. */
  predicate Contains(s: string, t: string)
    decreases |s|
  {
    t <= s || (s != [] && Contains(s[1..], t))
  }

  /** `Contains` agrees with "some suffix of `s` starts with `t`". */
  lemma {:induction false} ContainsAt(s: string, t: string)
    ensures Contains(s, t) <==> exists i :: 0 <= i <= |s| && t <= s[i..]
    decreases |s|
  {
    if Contains(s, t) {
      if t <= s {
        assert s[0..] == s;
      } else {
        ContainsAt(s[1..], t);
        var i :| 0 <= i <= |s[1..]| && t <= s[1..][i..];
        assert s[1..][i..] == s[i + 1..];
      }
    }
    if exists i :: 0 <= i <= |s| && t <= s[i..] {
      var i :| 0 <= i <= |s| && t <= s[i..];
      if i == 0 {
        assert s[0..] == s;
      } else {
        assert s[1..][i - 1..] == s[i..];
        ContainsAt(s[1..], t);
      }
    }
  }

  /** Position of the first occurrence of `c` in `s`. */
  function IndexOf(s: string, c: char): (i: nat)
    requires c in s
    ensures i < |s| && s[i] == c && c !in s[..i]
  {
    if s[0] == c then 0 else 1 + IndexOf(s[1..], c)
  }

  // ---------------------------------------------------------------------------
  // split(sep), join

  /** `s.split(c)` for a one-character separator: always at least one piece. */
  function SplitOn(s: string, c: char): (r: seq<string>)
    ensures |r| >= 1
    ensures forall k :: 0 <= k < |r| ==> c !in r[k]
  {
    if s == [] then [[]]
    else
      var rest := SplitOn(s[1..], c);
      if s[0] == c then [[]] + rest else [[s[0]] + rest[0]] + rest[1..]
  }

  /** `sep.join(parts)`. */
  function Join(parts: seq<string>, sep: string): string {
    if |parts| == 0 then []
    else if |parts| == 1 then parts[0]
    else parts[0] + sep + Join(parts[1..], sep)
  }

  /** Joining the pieces of a split with the separator restores the input. */
  lemma {:induction false} JoinSplitOn(s: string, c: char)
    ensures Join(SplitOn(s, c), [c]) == s
  {
    if s != [] {
      var rest := SplitOn(s[1..], c);
      JoinSplitOn(s[1..], c);
      if s[0] == c {
        assert SplitOn(s, c) == [[]] + rest;
        assert s == [] + [c] + s[1..];
      } else if |rest| == 1 {
        assert s == [s[0]] + rest[0];
      } else {
        var r := [[s[0]] + rest[0]] + rest[1..];
        assert r[1..] == rest[1..];
        assert Join(rest, [c]) == rest[0] + [c] + Join(rest[1..], [c]);
        assert s == [s[0]] + s[1..];
      }
    }
  }

  /** A string without the separator splits into itself alone. */
  lemma {:induction false} SplitOnFree(p: string, c: char)
    requires c !in p
    ensures SplitOn(p, c) == [p]
  {
    if p != [] {
      SplitOnFree(p[1..], c);
      assert [p[0]] + p[1..] == p;
    }
  }

  /** Splitting `p + c + t` where `p` has no separator yields `p` first. */
  lemma {:induction false} SplitOnCons(p: string, c: char, t: string)
    requires c !in p
    ensures SplitOn(p + [c] + t, c) == [p] + SplitOn(t, c)
  {
    var s := p + [c] + t;
    if p == [] {
      assert s[1..] == t;
    } else {
      assert s[1..] == p[1..] + [c] + t;
      SplitOnCons(p[1..], c, t);
      assert [p[0]] + p[1..] == p;
    }
  }

  /** Splitting a join of separator-free pieces gives the pieces back. */
  lemma {:induction false} SplitOnJoin(parts: seq<string>, c: char)
    requires |parts| >= 1
    requires forall k :: 0 <= k < |parts| ==> c !in parts[k]
    ensures SplitOn(Join(parts, [c]), c) == parts
  {
    if |parts| == 1 {
      SplitOnFree(parts[0], c);
    } else {
      SplitOnJoin(parts[1..], c);
      SplitOnCons(parts[0], c, Join(parts[1..], [c]));
      assert [parts[0]] + parts[1..] == parts;
    }
  }

  // ---------------------------------------------------------------------------
  // split() on runs of whitespace

  /** A word of `split()`: non-empty and free of whitespace. */
  predicate IsWord(w: string) {
    w != [] && forall i :: 0 <= i < |w| ==> !IsSpace(w[i])
  }

  /** Length of the longest whitespace-free prefix of `s`. */
  function WordLength(s: string): (n: nat)
    ensures n <= |s|
    ensures forall i :: 0 <= i < n ==> !IsSpace(s[i])
    ensures n == |s| || IsSpace(s[n])
  {
    if s == [] || IsSpace(s[0]) then 0 else 1 + WordLength(s[1..])
  }

  /** `s.split()`: the maximal runs of non-whitespace, in order. */
  function Words(s: string): (r: seq<string>)
    ensures forall k :: 0 <= k < |r| ==> IsWord(r[k])
    decreases |s|
  {
    if s == [] then []
    else if IsSpace(s[0]) then Words(s[1..])
    else
      var n := WordLength(s);
      [s[..n]] + Words(s[n..])
  }

  /** Whitespace before the text is skipped. */
  lemma WordsSkipSpace(c: char, t: string)
    requires IsSpace(c)
    ensures Words([c] + t) == Words(t)
  {
    assert ([c] + t)[1..] == t;
  }

  /** Any run of whitespace before the text is skipped. */
  lemma {:induction false} WordsSkipBlank(sp: string, t: string)
    requires forall k :: 0 <= k < |sp| ==> IsSpace(sp[k])
    ensures Words(sp + t) == Words(t)
  {
    if sp != [] {
      assert sp + t == [sp[0]] + (sp[1..] + t);
      WordsSkipSpace(sp[0], sp[1..] + t);
      WordsSkipBlank(sp[1..], t);
    } else {
      assert sp + t == t;
    }
  }

  /** Appending text that starts with whitespace does not extend the first word. */
  lemma {:induction false} WordLengthAppend(a: string, t: string)
    requires t == [] || IsSpace(t[0])
    ensures WordLength(a + t) == WordLength(a)
  {
    if a == [] {
      assert a + t == t;
    } else if !IsSpace(a[0]) {
      assert (a + t)[1..] == a[1..] + t;
      WordLengthAppend(a[1..], t);
    }
  }

  /**
   * Splitting at a whitespace character: the words of `a`, then the words
   * of `b`; no word spans the whitespace.
   */
  lemma {:induction false} WordsAppendAtSpace(a: string, c: char, b: string)
    requires IsSpace(c)
    ensures Words(a + [c] + b) == Words(a) + Words(b)
    decreases |a|, 1
  {
    var s := a + [c] + b;
    if a == [] {
      assert s == [c] + b;
      WordsSkipSpace(c, b);
    } else if IsSpace(a[0]) {
      assert s[1..] == a[1..] + [c] + b;
      WordsAppendAtSpace(a[1..], c, b);
    } else {
      WordsAppendAfterWord(a, c, b);
    }
  }

  /** `split()` of a text that starts with a word: that word, then the words after it. */
  lemma WordsFirstWord(s: string)
    requires s != [] && !IsSpace(s[0])
    ensures Words(s) == [s[..WordLength(s)]] + Words(s[WordLength(s)..])
  {
  }

  /** The step of `WordsAppendAtSpace` where `a` starts with a word. */
  lemma {:induction false} WordsAppendAfterWord(a: string, c: char, b: string)
    requires IsSpace(c) && a != [] && !IsSpace(a[0])
    ensures Words(a + [c] + b) == Words(a) + Words(b)
    decreases |a|, 0
  {
    var n := WordLength(a);
    var w := [a[..n]];
    FirstWordBeforeSpace(a, c, b);
    WordsFirstWord(a);
    WordsAppendAtSpace(a[n..], c, b);
    assert w + (Words(a[n..]) + Words(b)) == (w + Words(a[n..])) + Words(b);
  }

  /** The first word of `a` is the first word of `a + [c] + b`. */
  lemma FirstWordBeforeSpace(a: string, c: char, b: string)
    requires IsSpace(c) && a != [] && !IsSpace(a[0])
    ensures Words(a + [c] + b) == [a[..WordLength(a)]] + Words(a[WordLength(a)..] + [c] + b)
  {
    var s := a + [c] + b;
    var n := WordLength(a);
    CutAfterPrefix(a, c, b, n);
    WordLengthAppend(a, [c] + b);
    WordsFirstWord(s);
  }

  /** Cutting `a + [c] + b` inside `a`. */
  lemma CutAfterPrefix(a: string, c: char, b: string, n: nat)
    requires n <= |a|
    ensures (a + [c] + b)[..n] == a[..n]
    ensures (a + [c] + b)[n..] == a[n..] + [c] + b
    ensures n > 0 ==> (a + [c] + b)[0] == a[0]
    ensures a + [c] + b == a + ([c] + b)
  {
  }

  /** A word on its own is its only word. */
  lemma WordsOfWord(w: string)
    requires IsWord(w)
    ensures Words(w) == [w]
  {
    WordLengthAppend(w, []);
    assert w + [] == w;
    WordLengthOfWord(w);
    assert w[..|w|] == w;
    assert w[|w|..] == [];
  }

  /** A whole word is its own whitespace-free prefix. */
  lemma {:induction false} WordLengthOfWord(w: string)
    requires IsWord(w)
    ensures WordLength(w) == |w|
  {
    if |w| > 1 {
      WordLengthOfWord(w[1..]);
    }
  }

  /** A word followed by any whitespace character is split off as the first word. */
  lemma WordsCons(w: string, c: char, t: string)
    requires IsWord(w) && IsSpace(c)
    ensures Words(w + [c] + t) == [w] + Words(t)
  {
    WordsAppendAtSpace(w, c, t);
    WordsOfWord(w);
  }

  /** Words joined by single spaces split back into the same words. */
  lemma {:induction false} WordsJoin(ws: seq<string>)
    requires forall k :: 0 <= k < |ws| ==> IsWord(ws[k])
    ensures Words(Join(ws, " ")) == ws
  {
    if |ws| == 1 {
      WordsOfWord(ws[0]);
    } else if |ws| > 1 {
      WordsJoin(ws[1..]);
      WordsCons(ws[0], ' ', Join(ws[1..], " "));
      assert [ws[0]] + ws[1..] == ws;
    }
  }

  // ---------------------------------------------------------------------------
  // int(text) and str(n)

  predicate IsDigit(c: char) {
    '0' <= c <= '9'
  }

  predicate AllDigits(s: string) {
    forall i :: 0 <= i < |s| ==> IsDigit(s[i])
  }

  /** The value of a string of decimal digits, most significant first. */
  function DigitsValue(s: string): nat
    requires AllDigits(s)
  {
    if s == [] then 0 else 10 * DigitsValue(s[..|s| - 1]) + (s[|s| - 1] as int - '0' as int)
  }

  /** `str(n)` for a natural number: decimal digits without leading zeros. */
  function NatToString(n: nat): (r: string)
    ensures r != [] && AllDigits(r)
  {
    if n < 10 then ['0' + n as char]
    else NatToString(n / 10) + ['0' + (n % 10) as char]
  }

  /** `str(i)` for an integer. */
  function IntToString(i: int): (r: string)
    ensures r != []
  {
    if i < 0 then "-" + NatToString(-i) else NatToString(i)
  }

  /**
   * `int(text)`: surrounding whitespace, an optional sign and at least one
   * ASCII digit; anything else raises `ValueError` (here `None`).
   */
  function ParseInt(text: string): (r: Option<int>)
    ensures r.Some? ==> Strip(text) != []
  {
    ParseNumeral(Strip(text))
  }

  /** `int` of an already stripped text. */
  function ParseNumeral(t: string): (r: Option<int>)
    ensures r.Some? ==> t != []
  {
    if t != [] && (t[0] == '-' || t[0] == '+') then
      var d := t[1..];
      if d != [] && AllDigits(d) then
        Some(if t[0] == '-' then 0 - DigitsValue(d) else DigitsValue(d) as int)
      else None
    else if t != [] && AllDigits(t) then Some(DigitsValue(t))
    else None
  }

  /** Position `k` of a stripped text is neither a digit nor a leading sign. */
  predicate NotNumeral(t: string, k: nat)
    requires k < |t|
  {
    !IsDigit(t[k]) && (k > 0 || (t[0] != '-' && t[0] != '+'))
  }

  /**
   * `int(text)` raises exactly when the stripped text is empty, a bare
   * sign, or holds a character that is neither a digit nor a leading sign.
   */
  lemma ParseIntFails(text: string)
    ensures var t := Strip(text);
      ParseInt(text).None? <==>
        t == [] || t == "-" || t == "+" || exists k: nat :: k < |t| && NotNumeral(t, k)
  {
    NumeralFails(Strip(text));
  }

  /** The failure cases of `ParseNumeral`. */
  lemma NumeralFails(t: string)
    ensures ParseNumeral(t).None? <==>
      t == [] || t == "-" || t == "+" || exists k: nat :: k < |t| && NotNumeral(t, k)
  {
    if t != [] && (t[0] == '-' || t[0] == '+') {
      var d := t[1..];
      if d == [] {
        assert t == [t[0]];
      } else if AllDigits(d) {
        assert t != "-" && t != "+" by { assert |t| > 1; }
        forall k: nat | k < |t|
          ensures !NotNumeral(t, k)
        {
          if k > 0 { assert t[k] == d[k - 1]; }
        }
      } else {
        var j :| 0 <= j < |d| && !IsDigit(d[j]);
        assert NotNumeral(t, j + 1);
      }
    } else if t != [] && !AllDigits(t) {
      var j :| 0 <= j < |t| && !IsDigit(t[j]);
      assert NotNumeral(t, j);
    } else if t != [] {
      assert t != "-" && t != "+" by { assert IsDigit(t[0]); }
      assert forall k: nat :: k < |t| ==> !NotNumeral(t, k);
    }
  }

  /** Reading back the digits of `str(n)` gives `n`. */
  lemma {:induction false} DigitsValueNatToString(n: nat)
    ensures DigitsValue(NatToString(n)) == n
  {
    if n >= 10 {
      var s := NatToString(n);
      assert s[..|s| - 1] == NatToString(n / 10);
      DigitsValueNatToString(n / 10);
    }
  }

  /** `int(str(i)) == i`. */
  lemma IntToStringParse(i: int)
    ensures ParseInt(IntToString(i)) == Some(i)
  {
    IntToStringClean(i);
    StripTrimmed(IntToString(i));
    if i < 0 {
      NegativeParse(-i);
    } else {
      DigitsValueNatToString(i);
      assert ParseInt(IntToString(i)) == Some(DigitsValue(NatToString(i)));
    }
  }

  /** A sign followed by the digits of `n` reads back as `-n`. */
  lemma NegativeParse(n: nat)
    requires n > 0
    requires Strip(IntToString(0 - n)) == IntToString(0 - n)
    ensures ParseInt(IntToString(0 - n)) == Some(0 - n)
  {
    var s := IntToString(0 - n);
    var d := NatToString(n);
    assert s == "-" + d && s[1..] == d;
    DigitsValueNatToString(n);
    assert ParseInt(s) == Some(0 - DigitsValue(d));
  }

  /** `str(i)` never contains a comma or whitespace. */
  lemma IntToStringClean(i: int)
    ensures ',' !in IntToString(i)
    ensures Trimmed(IntToString(i))
  {
    var s := IntToString(i);
    var d := if i < 0 then NatToString(-i) else NatToString(i);
    assert forall k :: 0 <= k < |d| ==> IsDigit(d[k]);
    assert i < 0 ==> s == "-" + d;
  }
}
