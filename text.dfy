/** The string operations of Python's `str` that the file reader relies on:
    `strip()`, `split()`, `lower()`, the `in` substring test, single-character
    `replace`, decimal formatting of integers and `os.path.basename`. */
module Text {

  /** Python's `str.isspace` for one character: the C0 separators
      U+0009..U+000D and U+001C..U+001F, the space, and the Unicode
      White_Space characters Python also treats as whitespace. */
  predicate IsSpace(c: char) {
    || ('\t' <= c <= '\r')
    || ('\U{1C}' <= c <= '\U{1F}')
    || c == ' '
    || c == '\U{85}'
    || c == '\U{A0}'
    || c == '\U{1680}'
    || ('\U{2000}' <= c <= '\U{200A}')
    || c == '\U{2028}'
    || c == '\U{2029}'
    || c == '\U{202F}'
    || c == '\U{205F}'
    || c == '\U{3000}'
  }

  /** No whitespace at either end: what `strip()` returns. */
  predicate IsStripped(s: string) {
    s == [] || (!IsSpace(s[0]) && !IsSpace(s[|s| - 1]))
  }

  /** Drops the leading whitespace of `s` (`lstrip()`). */
  function TrimStart(s: string): (r: string)
    ensures |r| <= |s| && r == s[|s| - |r|..]
    ensures forall i :: 0 <= i < |s| - |r| ==> IsSpace(s[i])
    ensures r == [] || !IsSpace(r[0])
    decreases |s|
  {
    if s != [] && IsSpace(s[0]) then TrimStart(s[1..]) else s
  }

  /** Drops the trailing whitespace of `s` (`rstrip()`). */
  function TrimEnd(s: string): (r: string)
    ensures |r| <= |s| && r == s[..|r|]
    ensures forall i :: |r| <= i < |s| ==> IsSpace(s[i])
    ensures r == [] || !IsSpace(r[|r| - 1])
    decreases |s|
  {
    if s != [] && IsSpace(s[|s| - 1]) then TrimEnd(s[..|s| - 1]) else s
  }

  /** Python's `s.strip()`: the result has no whitespace at either end, is
      left alone when already stripped, and keeps only characters of `s`. */
  function Strip(s: string): (r: string)
    ensures IsStripped(r)
    ensures IsStripped(s) ==> r == s
    ensures forall c :: c in r ==> c in s
  {
    TrimEnd(TrimStart(s))
  }

  /** `strip()` removes exactly the leading and the trailing whitespace:
      its result is the stretch of `s` between them. */
  lemma StripIsSpan(s: string)
    ensures var r := Strip(s);
            exists i :: && 0 <= i <= |s| - |r| && r == s[i..][..|r|]
                        && (forall k :: 0 <= k < i ==> IsSpace(s[k]))
                        && (forall k :: i + |r| <= k < |s| ==> IsSpace(s[k]))
  {
    var t := TrimStart(s);
    SpanOfTrims(s, t, TrimEnd(t));
  }

  lemma SpanOfTrims(s: string, t: string, r: string)
    requires t == TrimStart(s) && r == TrimEnd(t)
    ensures var i := |s| - |t|;
            && 0 <= i <= |s| - |r| && r == s[i..][..|r|]
            && (forall k :: 0 <= k < i ==> IsSpace(s[k]))
            && (forall k :: i + |r| <= k < |s| ==> IsSpace(s[k]))
  {
    var i := |s| - |t|;
    assert s[i..] == t;
    forall k | i + |r| <= k < |s|
      ensures IsSpace(s[k])
    {
      assert s[k] == t[k - i];
    }
  }

  /** A token of `split()`: non-empty and free of whitespace. */
  predicate IsToken(w: string) {
    w != [] && forall i :: 0 <= i < |w| ==> !IsSpace(w[i])
  }

  /** The longest prefix of `s` without whitespace. */
  function TakeToken(s: string): (w: string)
    ensures |w| <= |s| && w == s[..|w|]
    ensures forall i :: 0 <= i < |w| ==> !IsSpace(w[i])
    ensures |w| < |s| ==> IsSpace(s[|w|])
  {
    if s == [] || IsSpace(s[0]) then [] else [s[0]] + TakeToken(s[1..])
  }

  /** Python's `s.split()` with no separator: the maximal runs of
      non-whitespace characters, in order. */
  function Split(s: string): (r: seq<string>)
    ensures forall k :: 0 <= k < |r| ==> IsToken(r[k])
    decreases |s|
  {
    var t := TrimStart(s);
    if t == [] then []
    else
      var w := TakeToken(t);
      assert w != [] && IsToken(w) by { assert !IsSpace(t[0]); }
      [w] + Split(t[|w|..])
  }

  /** The characters of `s` that are not whitespace, in order. */
  function NonSpace(s: string): string {
    if s == [] then []
    else (if IsSpace(s[0]) then [] else [s[0]]) + NonSpace(s[1..])
  }

  /** The concatenation of a sequence of strings. */
  function Concat(ws: seq<string>): string {
    if ws == [] then [] else ws[0] + Concat(ws[1..])
  }

  lemma {:induction false} NonSpaceAppend(a: string, b: string)
    ensures NonSpace(a + b) == NonSpace(a) + NonSpace(b)
    decreases |a|
  {
    if a != [] {
      var head := if IsSpace(a[0]) then [] else [a[0]];
      assert (a + b)[0] == a[0];
      assert (a + b)[1..] == a[1..] + b;
      NonSpaceAppend(a[1..], b);
      calc {
        NonSpace(a + b);
        head + NonSpace(a[1..] + b);
        head + (NonSpace(a[1..]) + NonSpace(b));
        (head + NonSpace(a[1..])) + NonSpace(b);
        NonSpace(a) + NonSpace(b);
      }
    } else {
      assert a + b == b;
    }
  }

  lemma {:induction false} NonSpaceOfSpaces(s: string)
    requires forall i :: 0 <= i < |s| ==> IsSpace(s[i])
    ensures NonSpace(s) == []
    decreases |s|
  {
    if s != [] {
      NonSpaceOfSpaces(s[1..]);
    }
  }

  lemma {:induction false} NonSpaceOfWord(w: string)
    requires forall i :: 0 <= i < |w| ==> !IsSpace(w[i])
    ensures NonSpace(w) == w
    decreases |w|
  {
    if w != [] {
      NonSpaceOfWord(w[1..]);
    }
  }

  /** Leading whitespace contributes nothing to `NonSpace`. */
  lemma NonSpaceOfTrimStart(s: string)
    ensures NonSpace(TrimStart(s)) == NonSpace(s)
  {
    var t := TrimStart(s);
    var pre := s[..|s| - |t|];
    assert s == pre + t;
    NonSpaceOfSpaces(pre);
    NonSpaceAppend(pre, t);
  }

  /** `split()` loses exactly the whitespace: its tokens, put back together,
      are the non-whitespace characters of `s`. */
  lemma {:induction false} SplitKeepsNonSpace(s: string)
    ensures Concat(Split(s)) == NonSpace(s)
    decreases |s|
  {
    var t := TrimStart(s);
    if t == [] {
      NonSpaceOfTrimStart(s);
    } else {
      var w := TakeToken(t);
      var rest := t[|w|..];
      ConcatOfSplitStep(s);
      NonSpaceStep(s);
      SplitKeepsNonSpace(rest);
    }
  }

  /** The first token of `split()`, then the tokens of what follows it. */
  lemma ConcatOfSplitStep(s: string)
    requires TrimStart(s) != []
    ensures var t := TrimStart(s);
            var w := TakeToken(t);
            Concat(Split(s)) == w + Concat(Split(t[|w|..]))
  {
    var t := TrimStart(s);
    var w := TakeToken(t);
    var rest := Split(t[|w|..]);
    assert Split(s) == [w] + rest;
    assert ([w] + rest)[1..] == rest;
  }

  /** The non-whitespace characters: the first token, then those after it. */
  lemma NonSpaceStep(s: string)
    requires TrimStart(s) != []
    ensures var t := TrimStart(s);
            var w := TakeToken(t);
            NonSpace(s) == w + NonSpace(t[|w|..])
  {
    var t := TrimStart(s);
    var w := TakeToken(t);
    NonSpaceOfTrimStart(s);
    TakeTokenThenRest(t);
    NonSpaceOfWordThen(w, t[|w|..]);
  }

  lemma TakeTokenThenRest(t: string)
    ensures t == TakeToken(t) + t[|TakeToken(t)|..]
  {
    var w := TakeToken(t);
    assert w == t[..|w|];
  }

  /** A word keeps all its characters, ahead of those of what follows. */
  lemma NonSpaceOfWordThen(w: string, rest: string)
    requires forall i :: 0 <= i < |w| ==> !IsSpace(w[i])
    ensures NonSpace(w + rest) == w + NonSpace(rest)
  {
    NonSpaceAppend(w, rest);
    NonSpaceOfWord(w);
  }

  lemma {:induction false} ConcatOfTokensIsLonger(ws: seq<string>)
    requires forall k :: 0 <= k < |ws| ==> IsToken(ws[k])
    ensures |ws| <= |Concat(ws)|
    decreases |ws|
  {
    if ws != [] {
      ConcatOfTokensIsLonger(ws[1..]);
    }
  }

  lemma {:induction false} NonSpaceIsShorter(s: string)
    ensures |NonSpace(s)| <= |s|
    decreases |s|
  {
    if s != [] {
      NonSpaceIsShorter(s[1..]);
    }
  }

  /** A line never has more `split()` tokens than characters. */
  lemma TokensAtMostChars(s: string)
    ensures |Split(s)| <= |s|
  {
    SplitKeepsNonSpace(s);
    ConcatOfTokensIsLonger(Split(s));
    NonSpaceIsShorter(s);
  }

  /** A non-empty string without whitespace is a single token. */
  lemma SplitOfToken(w: string)
    requires IsToken(w)
    ensures Split(w) == [w]
  {
    SplitAfterToken(w, []);
    assert w + [] == w;
  }

  /** A token followed by whitespace, or by nothing, is the first token. */
  lemma SplitAfterToken(w: string, rest: string)
    requires IsToken(w)
    requires rest == [] || IsSpace(rest[0])
    ensures Split(w + rest) == [w] + Split(rest)
  {
    var s := w + rest;
    assert TrimStart(s) == s;
    TakeTokenOfTokenPrefix(w, rest);
    assert s[|w|..] == rest;
  }

  lemma {:induction false} TakeTokenOfTokenPrefix(w: string, rest: string)
    requires forall i :: 0 <= i < |w| ==> !IsSpace(w[i])
    requires rest == [] || IsSpace(rest[0])
    ensures TakeToken(w + rest) == w
    decreases |w|
  {
    if w != [] {
      assert (w + rest)[0] == w[0];
      assert (w + rest)[1..] == w[1..] + rest;
      TakeTokenOfTokenPrefix(w[1..], rest);
    } else {
      assert w + rest == rest;
    }
  }

  /** Leading whitespace does not change the tokens. */
  lemma SplitAfterSpace(c: char, rest: string)
    requires IsSpace(c)
    ensures Split([c] + rest) == Split(rest)
  {
    assert ([c] + rest)[1..] == rest;
    assert TrimStart([c] + rest) == TrimStart(rest);
  }

  /** Python's `str.lower()` restricted to ASCII letters. */
  function LowerChar(c: char): char {
    if 'A' <= c <= 'Z' then (c as int + 32) as char else c
  }

  function Lower(s: string): (r: string)
    ensures |r| == |s|
    ensures forall i :: 0 <= i < |s| ==> r[i] == LowerChar(s[i])
  {
    seq(|s|, i requires 0 <= i < |s| => LowerChar(s[i]))
  }

  /** Lower-casing twice is lower-casing once. */
  lemma LowerIdempotent(s: string)
    ensures Lower(Lower(s)) == Lower(s)
  {
    assert forall i :: 0 <= i < |s| ==> LowerChar(LowerChar(s[i])) == LowerChar(s[i]);
  }

  /** Python's `needle in hay` for strings. */
  function Contains(hay: string, needle: string): (r: bool)
    ensures needle <= hay ==> r
    ensures r ==> |needle| <= |hay|
    decreases |hay|
  {
    needle <= hay || (hay != [] && Contains(hay[1..], needle))
  }

  /** `needle` occurs in `hay` starting at index `i`. */
  predicate OccursAt(hay: string, needle: string, i: int) {
    0 <= i <= |hay| - |needle| && hay[i..i + |needle|] == needle
  }

  /** `Contains` holds exactly when `needle` occurs at some position of `hay`. */
  lemma {:induction false} ContainsIff(hay: string, needle: string)
    ensures Contains(hay, needle) <==> exists i :: OccursAt(hay, needle, i)
    decreases |hay|
  {
    OccursAtStart(hay, needle);
    if hay == [] {
      if exists i :: OccursAt(hay, needle, i) {
        var i :| OccursAt(hay, needle, i);
        assert i == 0;
      }
    } else {
      ContainsIff(hay[1..], needle);
      if exists i :: OccursAt(hay, needle, i) {
        var i :| OccursAt(hay, needle, i);
        if i > 0 {
          OccursShift(hay, needle, i);
        }
      }
      if Contains(hay[1..], needle) {
        var j :| OccursAt(hay[1..], needle, j);
        OccursShift(hay, needle, j + 1);
      }
    }
  }

  /** An occurrence at the start is a prefix. */
  lemma OccursAtStart(hay: string, needle: string)
    ensures OccursAt(hay, needle, 0) <==> needle <= hay
  {
  }

  /** An occurrence past the first character is an occurrence in the rest. */
  lemma OccursShift(hay: string, needle: string, i: int)
    requires hay != [] && i >= 1
    ensures OccursAt(hay, needle, i) <==> OccursAt(hay[1..], needle, i - 1)
  {
    if i <= |hay| - |needle| {
      assert hay[1..][i - 1..i - 1 + |needle|] == hay[i..i + |needle|];
    }
  }

  /** The empty string is in every string. */
  lemma ContainsEmpty(hay: string)
    ensures Contains(hay, "")
  {
  }

  /** Python's `s.replace(c, rep)` for a one-character `c`: every occurrence
      of `c`, left to right, becomes `rep`. */
  function ReplaceChar(s: string, c: char, rep: string): (r: string)
    ensures c !in s ==> r == s
    ensures c !in rep ==> c !in r
    decreases |s|
  {
    if s == [] then []
    else (if s[0] == c then rep else [s[0]]) + ReplaceChar(s[1..], c, rep)
  }

  /** Replacing commutes with concatenation. */
  lemma {:induction false} ReplaceCharAppend(a: string, b: string, c: char, rep: string)
    ensures ReplaceChar(a + b, c, rep) == ReplaceChar(a, c, rep) + ReplaceChar(b, c, rep)
    decreases |a|
  {
    if a != [] {
      var head := if a[0] == c then rep else [a[0]];
      assert (a + b)[0] == a[0];
      assert (a + b)[1..] == a[1..] + b;
      ReplaceCharAppend(a[1..], b, c, rep);
      assert ReplaceChar(a + b, c, rep) == head + ReplaceChar(a[1..] + b, c, rep);
      assert ReplaceChar(a, c, rep) == head + ReplaceChar(a[1..], c, rep);
    } else {
      assert a + b == b;
    }
  }

  function DigitChar(d: nat): (c: char)
    requires d < 10
    ensures '0' <= c <= '9' && c as int - '0' as int == d
  {
    "0123456789"[d]
  }

  predicate IsDigits(s: string) {
    forall i :: 0 <= i < |s| ==> '0' <= s[i] <= '9'
  }

  /** Python's `str(n)` / f-string formatting of a non-negative int: decimal
      digits with no leading zero. */
  function NatToString(n: nat): (r: string)
    ensures r != [] && IsDigits(r)
    ensures |r| > 1 ==> r[0] != '0'
  {
    if n < 10 then [DigitChar(n)] else NatToString(n / 10) + [DigitChar(n % 10)]
  }

  /** The value of a string of decimal digits, read most significant first. */
  function DigitsValue(s: string): nat
    requires IsDigits(s)
  {
    if s == [] then 0
    else DigitsValue(s[..|s| - 1]) * 10 + (s[|s| - 1] as int - '0' as int)
  }

  /** Reading back the formatted number gives the number. */
  lemma {:induction false} NatToStringRoundTrip(n: nat)
    ensures DigitsValue(NatToString(n)) == n
  {
    if n >= 10 {
      var r := NatToString(n);
      assert r[..|r| - 1] == NatToString(n / 10);
      NatToStringRoundTrip(n / 10);
    }
  }

  /** Different numbers format differently. */
  lemma NatToStringInjective(m: nat, n: nat)
    requires NatToString(m) == NatToString(n)
    ensures m == n
  {
    NatToStringRoundTrip(m);
    NatToStringRoundTrip(n);
  }

  /** `os.path.basename` on POSIX: everything after the last '/'. */
  function Basename(p: string): (r: string)
    ensures |r| <= |p| && r == p[|p| - |r|..]
    ensures '/' !in r
    ensures |r| < |p| ==> p[|p| - |r| - 1] == '/'
    ensures '/' !in p ==> r == p
    decreases |p|
  {
    if p == [] || p[|p| - 1] == '/' then [] else Basename(p[..|p| - 1]) + [p[|p| - 1]]
  }
}
