/** String primitives of Python and JavaScript that the recorder and the in-page
    script rely on: prefix and substring tests, `replace`, `strip`, `trim`, splitting on
    white space, ASCII lower-casing and decimal formatting. */
module Strings {

  function Min(a: int, b: int): int { if a <= b then a else b }

  /** Python `s.startswith(p)`, JavaScript `s.startsWith(p)`. */
  predicate StartsWith(s: string, p: string) {
    |p| <= |s| && s[..|p|] == p
  }

  /** `x` occurs somewhere in `s` (Python `x in s`). */
  predicate Contains(s: string, x: string)
    decreases |s|
  {
    StartsWith(s, x) || (|s| > 0 && Contains(s[1..], x))
  }

  /** A string occurs in any string built around it. */
  lemma {:induction false} ContainsInfix(p: string, x: string, q: string)
    ensures Contains(p + x + q, x)
    decreases |p|
  {
    if p == [] {
      assert p + x + q == x + q;
      assert (x + q)[..|x|] == x;
    } else {
      assert (p + x + q)[1..] == p[1..] + x + q;
      ContainsInfix(p[1..], x, q);
    }
  }

  /** Python slice `s[:n]` for a non-negative `n`. */
  function Take(s: string, n: nat): (r: string)
    ensures |r| == Min(n, |s|) && r == s[..|r|]
  {
    if n <= |s| then s[..n] else s
  }

  function Repeat(c: char, n: nat): (r: string)
    ensures |r| == n && forall i :: 0 <= i < n ==> r[i] == c
  {
    seq(n, _ => c)
  }

  // ---------------------------------------------------------------------------
  // Python str.replace and str.strip
  // ---------------------------------------------------------------------------

  /** Python `s.replace(pat, rep)`: scan from the left and replace every
      non-overlapping occurrence of the non-empty `pat`. */
  function ReplaceAll(s: string, pat: string, rep: string): string
    requires |pat| > 0
    decreases |s|
  {
    if |s| < |pat| then s
    else if s[..|pat|] == pat then rep + ReplaceAll(s[|pat|..], pat, rep)
    else [s[0]] + ReplaceAll(s[1..], pat, rep)
  }

  /** A string without an occurrence of the pattern is left as it is. */
  lemma {:induction false} ReplaceAllAbsent(s: string, pat: string, rep: string)
    requires |pat| > 0 && !Contains(s, pat)
    ensures ReplaceAll(s, pat, rep) == s
    decreases |s|
  {
    if |s| >= |pat| {
      assert s[..|pat|] != pat;
      ReplaceAllAbsent(s[1..], pat, rep);
      assert [s[0]] + s[1..] == s;
    }
  }

  /** Replacing one character by a different one keeps the length and leaves no
      occurrence of the replaced character. */
  lemma {:induction false} ReplaceCharRemoves(s: string, c: char, d: char)
    requires c != d
    ensures |ReplaceAll(s, [c], [d])| == |s|
    ensures forall i :: 0 <= i < |s| ==> ReplaceAll(s, [c], [d])[i] == (if s[i] == c then d else s[i])
    ensures c !in ReplaceAll(s, [c], [d])
    decreases |s|
  {
    if |s| >= 1 {
      ReplaceCharRemoves(s[1..], c, d);
      var r := ReplaceAll(s, [c], [d]);
      var t := ReplaceAll(s[1..], [c], [d]);
      assert r == [if s[0] == c then d else s[0]] + t;
      forall i | 0 <= i < |s|
        ensures r[i] == (if s[i] == c then d else s[i])
      {
        if i > 0 { assert r[i] == t[i - 1] && s[i] == s[1..][i - 1]; }
      }
    }
  }

  /** A character found neither in the string nor in the replacement is not in the
      result. */
  lemma {:induction false} ReplaceAllKeepsOut(s: string, pat: string, rep: string, c: char)
    requires |pat| > 0 && c !in s && c !in rep
    ensures c !in ReplaceAll(s, pat, rep)
    decreases |s|
  {
    if |s| >= |pat| {
      if s[..|pat|] == pat {
        ReplaceAllKeepsOut(s[|pat|..], pat, rep, c);
      } else {
        ReplaceAllKeepsOut(s[1..], pat, rep, c);
      }
    }
  }

  /** Python `s.find(c)`: the first index of `c`, or -1. */
  function Find(s: string, c: char): (r: int)
    ensures -1 <= r < |s|
    ensures r == -1 <==> c !in s
    ensures r >= 0 ==> s[r] == c && c !in s[..r]
    decreases |s|
  {
    if s == [] then -1
    else if s[0] == c then 0
    else
      var k := Find(s[1..], c);
      if k < 0 then -1
      else
        assert s[..k + 1] == [s[0]] + s[1..][..k];
        k + 1
  }

  /** Python `s.lstrip(c)` for one character. */
  function StripLeft(s: string, c: char): (r: string)
    ensures |r| <= |s|
    decreases |s|
  {
    if |s| > 0 && s[0] == c then StripLeft(s[1..], c) else s
  }

  /** Python `s.rstrip(c)` for one character. */
  function StripRight(s: string, c: char): (r: string)
    ensures |r| <= |s|
    decreases |s|
  {
    if |s| > 0 && s[|s| - 1] == c then StripRight(s[..|s| - 1], c) else s
  }

  /** Python `s.strip(c)` for one character. */
  function Strip(s: string, c: char): string {
    StripRight(StripLeft(s, c), c)
  }

  lemma {:induction false} StripLeftShape(s: string, c: char)
    ensures StripLeft(s, c) == s[|s| - |StripLeft(s, c)|..]
    ensures StripLeft(s, c) != [] ==> StripLeft(s, c)[0] != c
    ensures forall i :: 0 <= i < |s| - |StripLeft(s, c)| ==> s[i] == c
    decreases |s|
  {
    if |s| > 0 && s[0] == c {
      StripLeftShape(s[1..], c);
    }
  }

  lemma {:induction false} StripRightShape(s: string, c: char)
    ensures StripRight(s, c) == s[..|StripRight(s, c)|]
    ensures StripRight(s, c) != [] ==> StripRight(s, c)[|StripRight(s, c)| - 1] != c
    ensures forall i :: |StripRight(s, c)| <= i < |s| ==> s[i] == c
    decreases |s|
  {
    if |s| > 0 && s[|s| - 1] == c {
      StripRightShape(s[..|s| - 1], c);
    }
  }

  /** `strip` removes exactly the leading and trailing copies of `c`: what is left is the
      slice of the input starting at `k`, the number of leading copies, it neither starts
      nor ends with `c`, and everything cut off on either side is `c`. */
  lemma StripShape(s: string, c: char)
    ensures var r, k := Strip(s, c), |s| - |StripLeft(s, c)|;
      && (r != [] ==> r[0] != c && r[|r| - 1] != c)
      && k + |r| <= |s| && r == s[k..k + |r|]
      && (forall i :: 0 <= i < k ==> s[i] == c)
      && (forall i :: k + |r| <= i < |s| ==> s[i] == c)
  {
    var l := StripLeft(s, c);
    StripLeftShape(s, c);
    StripRightShape(l, c);
    var r := StripRight(l, c);
    var k := |s| - |l|;
    assert l == s[k..];
    assert r == l[..|r|];
    assert r == s[k..k + |r|];
    forall i | k + |r| <= i < |s|
      ensures s[i] == c
    {
      assert s[i] == l[i - k];
    }
  }

  // ---------------------------------------------------------------------------
  // JavaScript white space, trim and split
  // ---------------------------------------------------------------------------

  /** A character of ECMAScript's WhiteSpace or LineTerminator, the set that `\s`
      and `String.prototype.trim` use. */
  predicate IsJsSpace(ch: char) {
    ch == '\t' || ch == '\n' || ch == '\U{000B}' || ch == '\U{000C}' || ch == '\r'
    || ch == ' ' || ch == '\U{00A0}' || ch == '\U{1680}'
    || ('\U{2000}' <= ch <= '\U{200A}')
    || ch == '\U{2028}' || ch == '\U{2029}' || ch == '\U{202F}' || ch == '\U{205F}'
    || ch == '\U{3000}' || ch == '\U{FEFF}'
  }

  function TrimStart(s: string): (r: string)
    decreases |s|
  {
    if |s| > 0 && IsJsSpace(s[0]) then TrimStart(s[1..]) else s
  }

  function TrimEnd(s: string): (r: string)
    decreases |s|
  {
    if |s| > 0 && IsJsSpace(s[|s| - 1]) then TrimEnd(s[..|s| - 1]) else s
  }

  /** JavaScript `s.trim()`. */
  function Trim(s: string): string {
    TrimEnd(TrimStart(s))
  }

  lemma {:induction false} TrimEndShorter(s: string)
    ensures |TrimEnd(s)| <= |s|
    decreases |s|
  {
    if |s| > 0 && IsJsSpace(s[|s| - 1]) { TrimEndShorter(s[..|s| - 1]); }
  }

  lemma {:induction false} TrimStartShorter(s: string)
    ensures |TrimStart(s)| <= |s|
    decreases |s|
  {
    if |s| > 0 && IsJsSpace(s[0]) { TrimStartShorter(s[1..]); }
  }

  lemma TrimShorter(s: string)
    ensures |Trim(s)| <= |s|
  {
    TrimStartShorter(s);
    TrimEndShorter(TrimStart(s));
  }

  /** Length of the run of non-space characters at the start of `s`. */
  function RunLength(s: string): (n: nat)
    ensures n <= |s|
    ensures forall i :: 0 <= i < n ==> !IsJsSpace(s[i])
    ensures n < |s| ==> IsJsSpace(s[n])
    decreases |s|
  {
    if s == [] || IsJsSpace(s[0]) then 0 else 1 + RunLength(s[1..])
  }

  predicate IsWord(w: string) {
    |w| > 0 && forall i :: 0 <= i < |w| ==> !IsJsSpace(w[i])
  }

  /** JavaScript `s.trim().split(/\s+/).filter(c => c.length > 0)`: the maximal runs
      of non-space characters, in order. Every piece is a non-empty word. */
  function Words(s: string): (ws: seq<string>)
    ensures forall k :: 0 <= k < |ws| ==> IsWord(ws[k])
    decreases |s|
  {
    if s == [] then []
    else if IsJsSpace(s[0]) then Words(s[1..])
    else
      var n := RunLength(s);
      [s[..n]] + Words(s[n..])
  }

  /** A non-empty string without white space is its own trim and its only word. */
  lemma WordsOfOneWord(s: string)
    requires s != [] && forall i :: 0 <= i < |s| ==> !IsJsSpace(s[i])
    ensures Trim(s) == s && Words(s) == [s]
  {
    assert RunLength(s) == |s|;
    assert s[..|s|] == s && s[|s|..] == [];
  }

  /** JavaScript `parts.join(sep)`. */
  function Join(parts: seq<string>, sep: string): string
    decreases |parts|
  {
    if |parts| == 0 then ""
    else if |parts| == 1 then parts[0]
    else parts[0] + sep + Join(parts[1..], sep)
  }

  // ---------------------------------------------------------------------------
  // Characters
  // ---------------------------------------------------------------------------

  predicate IsAsciiDigit(c: char) { '0' <= c <= '9' }

  /** ASCII letters and digits (the ASCII part of Python's `str.isalnum`). */
  predicate IsAsciiAlnum(c: char) {
    ('a' <= c <= 'z') || ('A' <= c <= 'Z') || IsAsciiDigit(c)
  }

  function LowerChar(c: char): char {
    if 'A' <= c <= 'Z' then (c as int + 32) as char else c
  }

  /** `toLowerCase()` restricted to ASCII letters. */
  function ToLower(s: string): (r: string)
    ensures |r| == |s|
  {
    seq(|s|, i requires 0 <= i < |s| => LowerChar(s[i]))
  }

  // ---------------------------------------------------------------------------
  // Decimal numerals
  // ---------------------------------------------------------------------------

  predicate AllDigits(s: string) {
    forall i :: 0 <= i < |s| ==> IsAsciiDigit(s[i])
  }

  function DigitChar(d: nat): char
    requires d < 10
  {
    ('0' as int + d) as char
  }

  /** The shortest decimal numeral of `n` (Python `str(n)`, JavaScript `String(n)`):
      non-empty, all digits, and without a leading zero unless it is "0". */
  function Dec(n: nat): (s: string)
    ensures |s| > 0 && AllDigits(s)
    ensures |s| > 1 ==> s[0] != '0'
    decreases n
  {
    if n < 10 then [DigitChar(n)] else Dec(n / 10) + [DigitChar(n % 10)]
  }

  /** The value a string of digits denotes. */
  function DecValue(s: string): nat
    requires AllDigits(s)
    decreases |s|
  {
    if s == [] then 0 else DecValue(s[..|s| - 1]) * 10 + (s[|s| - 1] as int - '0' as int)
  }

  /** Reading back the numeral gives the number: `Dec` is injective. */
  lemma {:induction false} DecRoundTrip(n: nat)
    ensures DecValue(Dec(n)) == n
    decreases n
  {
    if n >= 10 {
      var s := Dec(n);
      assert s[..|s| - 1] == Dec(n / 10);
      DecRoundTrip(n / 10);
    }
  }

  /** Python `str(i)` for any integer. */
  function IntStr(i: int): string {
    if i < 0 then "-" + Dec(-i) else Dec(i)
  }

  /** Left-pad a numeral with zeros to at least `w` characters. */
  function ZeroPad(s: string, w: nat): (r: string)
    ensures |r| == if |s| < w then w else |s|
  {
    if |s| < w then Repeat('0', w - |s|) + s else s
  }

  /** Python `format(n, "03d")`: at least three characters, zero padding placed
      after the sign ("007", "042", "123", "1000", "-05", "-123"). */
  function Format03(n: int): (r: string)
    ensures |r| >= 3
    ensures n >= 0 ==> AllDigits(r) && DecValue(r) == n
    ensures n < 0 ==> r[0] == '-' && AllDigits(r[1..]) && DecValue(r[1..]) == -n
  {
    if n >= 0 then
      DecRoundTrip(n);
      PaddedValue(Dec(n), 3);
      ZeroPad(Dec(n), 3)
    else
      DecRoundTrip(-n);
      PaddedValue(Dec(-n), 2);
      assert ("-" + ZeroPad(Dec(-n), 2))[1..] == ZeroPad(Dec(-n), 2);
      "-" + ZeroPad(Dec(-n), 2)
  }

  /** Leading zeros do not change the value of a numeral. */
  lemma {:induction false} ZerosThenValue(k: nat, s: string)
    requires AllDigits(s)
    ensures AllDigits(Repeat('0', k) + s) && DecValue(Repeat('0', k) + s) == DecValue(s)
    decreases |s|
  {
    var t := Repeat('0', k) + s;
    if s == [] {
      assert t == Repeat('0', k);
      ZerosValue(k);
    } else {
      var s' := s[..|s| - 1];
      assert t[..|t| - 1] == Repeat('0', k) + s';
      ZerosThenValue(k, s');
    }
  }

  lemma {:induction false} ZerosValue(k: nat)
    ensures DecValue(Repeat('0', k)) == 0
    decreases k
  {
    if k > 0 {
      assert Repeat('0', k)[..k - 1] == Repeat('0', k - 1);
      ZerosValue(k - 1);
    }
  }

  lemma PaddedValue(s: string, w: nat)
    requires AllDigits(s)
    ensures AllDigits(ZeroPad(s, w)) && DecValue(ZeroPad(s, w)) == DecValue(s)
  {
    if |s| < w { ZerosThenValue(w - |s|, s); }
  }

  /** Distinct integers give distinct `03d` renderings. */
  lemma Format03Injective(a: int, b: int)
    requires Format03(a) == Format03(b)
    ensures a == b
  {
    var ra, rb := Format03(a), Format03(b);
    if a < 0 && b < 0 {
      assert ra[1..] == rb[1..];
    }
  }
}
