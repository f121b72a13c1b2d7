/** The handful of Python string operations the pipeline relies on, modelled on
    `string` (= `seq<char>`, one element per Unicode scalar value, which is what
    Python's `len` counts). */
module Text {
  import opened Wrappers

  /** Python's `str.isspace()` for the characters `str.strip()` and `str.split()`
      treat as whitespace. */
  predicate IsSpace(c: char) {
    c == ' ' || ('\t' <= c <= '\r') || ('\U{1C}' <= c <= '\U{1F}')
    || c == '\U{85}' || c == '\U{A0}' || c == '\U{1680}'
    || ('\U{2000}' <= c <= '\U{200A}') || c == '\U{2028}' || c == '\U{2029}'
    || c == '\U{202F}' || c == '\U{205F}' || c == '\U{3000}'
  }

  predicate IsDigit(c: char) {
    '0' <= c <= '9'
  }

  // ---------------------------------------------------------------------------
  // strip

  /** `s.lstrip()`: drops the leading whitespace and nothing else. */
  function TrimLeft(s: string): (r: string)
    ensures |r| <= |s| && r == s[|s| - |r|..]
    ensures forall k :: 0 <= k < |s| - |r| ==> IsSpace(s[k])
    ensures r == [] || !IsSpace(r[0])
  {
    if s != [] && IsSpace(s[0]) then TrimLeft(s[1..]) else s
  }

  /** `s.rstrip()`: drops the trailing whitespace and nothing else. */
  function TrimRight(s: string): (r: string)
    ensures |r| <= |s| && r == s[..|r|]
    ensures forall k :: |r| <= k < |s| ==> IsSpace(s[k])
    ensures r == [] || !IsSpace(r[|r| - 1])
  {
    if s != [] && IsSpace(s[|s| - 1]) then TrimRight(s[..|s| - 1]) else s
  }

  /** `s.strip()`. */
  function Strip(s: string): (r: string)
    ensures |r| <= |s|
    ensures r == [] || (!IsSpace(r[0]) && !IsSpace(r[|r| - 1]))
  {
    TrimRight(TrimLeft(s))
  }

  /** Stripping never removes a character that lies between two non-blank ones. */
  lemma StripLengthBound(s: string, i: nat, j: nat)
    requires i <= j < |s|
    requires !IsSpace(s[i]) && !IsSpace(s[j])
    ensures |Strip(s)| >= j - i + 1
  {
    var l := TrimLeft(s);
    var off := |s| - |l|;
    assert i >= off;
    assert l[j - off] == s[j];
    var r := TrimRight(l);
    assert j - off < |r|;
  }

  // ---------------------------------------------------------------------------
  // substrings and concatenation

  /** `t` occurs in `s` starting at index `k`. */
  predicate OccursAt(s: string, t: string, k: nat) {
    k + |t| <= |s| && s[k..k + |t|] == t
  }

  /** `t in s` for strings: `t` occurs as a contiguous substring of `s`. */
  predicate Contains(s: string, t: string) {
    exists k: nat | k <= |s| :: OccursAt(s, t, k)
  }

  lemma ContainsSelf(s: string)
    ensures Contains(s, s)
  {
    assert OccursAt(s, s, 0);
  }

  lemma ContainsPrefix(a: string, b: string)
    ensures Contains(a + b, a)
  {
    assert OccursAt(a + b, a, 0);
  }

  lemma ContainsExtend(a: string, s: string, b: string, t: string)
    requires Contains(s, t)
    ensures Contains(a + s + b, t)
  {
    var k: nat :| k <= |s| && OccursAt(s, t, k);
    assert (a + s + b)[|a| + k..|a| + k + |t|] == s[k..k + |t|];
    assert OccursAt(a + s + b, t, |a| + k);
  }

  /** Contiguous substrings compose. */
  lemma ContainsMiddle(a: string, s: string, b: string)
    ensures Contains(a + s + b, s)
  {
    ContainsSelf(s);
    ContainsExtend(a, s, b, s);
  }

  /** Both holes of a two-hole template `a{x}b{y}c` occur in the filled text. */
  lemma Carries(a: string, x: string, b: string, y: string, c: string)
    ensures Contains(a + x + b + y + c, x) && Contains(a + x + b + y + c, y)
  {
    ContainsMiddle(a, x, b + y + c);
    ContainsMiddle(a + x + b, y, c);
    assert a + x + b + y + c == a + x + (b + y + c);
  }

  lemma StartsWithContains(s: string, p: string)
    requires StartsWith(s, p)
    ensures Contains(s, p)
  {
    assert OccursAt(s, p, 0);
  }

  lemma ContainsTrans(s: string, t: string, u: string)
    requires Contains(s, t) && Contains(t, u)
    ensures Contains(s, u)
  {
    var k: nat :| k <= |s| && OccursAt(s, t, k);
    var m: nat :| m <= |t| && OccursAt(t, u, m);
    forall i | 0 <= i < |u|
      ensures s[k + m + i] == u[i]
    {
      assert u[i] == t[m + i] == s[k + m + i];
    }
    assert s[k + m..k + m + |u|] == u;
    assert OccursAt(s, u, k + m);
  }

  function Concat(ps: seq<string>): string {
    if ps == [] then "" else ps[0] + Concat(ps[1..])
  }

  /** Every piece of a concatenation occurs in it. */
  lemma {:induction false} ConcatContains(ps: seq<string>, k: nat)
    requires k < |ps|
    ensures Contains(Concat(ps), ps[k])
  {
    if k == 0 {
      ContainsPrefix(ps[0], Concat(ps[1..]));
    } else {
      ConcatContains(ps[1..], k - 1);
      ContainsExtend(ps[0], Concat(ps[1..]), "", ps[k]);
      assert ps[0] + Concat(ps[1..]) + "" == Concat(ps);
    }
  }

  lemma {:induction false} ConcatAppend(ps: seq<string>, p: string)
    ensures Concat(ps + [p]) == Concat(ps) + p
  {
    if ps != [] {
      assert (ps + [p])[1..] == ps[1..] + [p];
      ConcatAppend(ps[1..], p);
    }
  }

  lemma {:induction false} ConcatJoin(ps: seq<string>, qs: seq<string>)
    ensures Concat(ps + qs) == Concat(ps) + Concat(qs)
  {
    if ps == [] {
      assert ps + qs == qs;
    } else {
      assert (ps + qs)[1..] == ps[1..] + qs;
      ConcatJoin(ps[1..], qs);
      assert Concat(ps + qs) == ps[0] + (Concat(ps[1..]) + Concat(qs));
    }
  }

  lemma {:induction false} ConcatLength(ps: seq<string>, k: nat)
    requires k < |ps|
    ensures |Concat(ps)| >= |ps[k]|
  {
    ConcatContains(ps, k);
  }

  /** A string holding a piece that begins and ends with a non-blank character
      strips to at least that piece's length. */
  lemma StripKeepsPiece(s: string, t: string)
    requires Contains(s, t) && |t| > 0
    requires !IsSpace(t[0]) && !IsSpace(t[|t| - 1])
    ensures |Strip(s)| >= |t|
  {
    var k: nat :| k <= |s| && OccursAt(s, t, k);
    assert s[k] == t[0];
    assert s[k + |t| - 1] == t[|t| - 1];
    StripLengthBound(s, k, k + |t| - 1);
  }

  predicate StartsWith(s: string, p: string) {
    |p| <= |s| && s[..|p|] == p
  }

  predicate EndsWith(s: string, p: string) {
    |p| <= |s| && s[|s| - |p|..] == p
  }

  /** `s[:n]` for a non-negative `n`. */
  function Take<T>(s: seq<T>, n: nat): (r: seq<T>)
    ensures |r| == if |s| < n then |s| else n
    ensures r == s[..|r|]
  {
    if |s| <= n then s else s[..n]
  }

  /** The bounds of `Take`, without the case split. */
  lemma TakeWithin<T>(s: seq<T>, n: nat)
    ensures |Take(s, n)| <= |s| && |Take(s, n)| <= n
  {
  }

  /** Python's `s[a:b]` for non-negative bounds: empty when `b <= a`. */
  function PySlice(s: string, a: nat, b: nat): (r: string)
    ensures a < b <= |s| ==> r == s[a..b]
    ensures b <= a ==> r == []
  {
    var lo := if a < |s| then a else |s|;
    var hi := if b < |s| then b else |s|;
    if hi <= lo then [] else s[lo..hi]
  }

  /** `s.find(c)`: the first index of `c`, or -1. */
  function FindChar(s: string, c: char): (r: int)
    ensures -1 <= r < |s|
    ensures r == -1 <==> c !in s
    ensures r >= 0 ==> s[r] == c && c !in s[..r]
  {
    if s == [] then -1
    else if s[0] == c then 0
    else
      var r := FindChar(s[1..], c);
      if r == -1 then -1
      else
        assert s[..r + 1] == [s[0]] + s[1..][..r];
        r + 1
  }

  /** `s.rfind(c)`: the last index of `c`, or -1. */
  function RFindChar(s: string, c: char): (r: int)
    ensures -1 <= r < |s|
    ensures r == -1 <==> c !in s
    ensures r >= 0 ==> s[r] == c && c !in s[r + 1..]
  {
    if s == [] then -1
    else if s[|s| - 1] == c then |s| - 1
    else
      var r := RFindChar(s[..|s| - 1], c);
      assert s == s[..|s| - 1] + [s[|s| - 1]];
      assert r >= 0 ==> s[r + 1..] == s[..|s| - 1][r + 1..] + [s[|s| - 1]];
      r
  }

  // ---------------------------------------------------------------------------
  // character maps

  /** `str.lower()` on one character: ASCII and Latin-1 capitals. */
  function LowerChar(c: char): char {
    if 'A' <= c <= 'Z' || ('\U{C0}' <= c <= '\U{DE}' && c != '\U{D7}') then (c as int + 32) as char else c
  }

  /** `str.upper()` on one character: ASCII and Latin-1 small letters. */
  function UpperChar(c: char): char {
    if 'a' <= c <= 'z' || ('\U{E0}' <= c <= '\U{FE}' && c != '\U{F7}') then (c as int - 32) as char else c
  }

  predicate IsLetter(c: char) {
    LowerChar(c) != c || UpperChar(c) != c
  }

  function Lower(s: string): (r: string)
    ensures |r| == |s|
    ensures forall i :: 0 <= i < |s| ==> r[i] == LowerChar(s[i])
  {
    if s == [] then [] else [LowerChar(s[0])] + Lower(s[1..])
  }

  /** `s.title()`: a letter is upper-cased after a non-letter, lower-cased after a letter. */
  function TitleCase(s: string): (r: string)
    ensures |r| == |s|
  {
    TitleFrom(false, s)
  }

  /** Title-casing `s` when the character before it is a letter iff `afterLetter`. */
  function TitleFrom(afterLetter: bool, s: string): (r: string)
    ensures |r| == |s|
    decreases s
  {
    if s == [] then []
    else [if afterLetter then LowerChar(s[0]) else UpperChar(s[0])] + TitleFrom(IsLetter(s[0]), s[1..])
  }

  /** `s.replace(a, b)` for single characters. */
  function ReplaceChar(s: string, a: char, b: char): (r: string)
    ensures |r| == |s|
    ensures forall i :: 0 <= i < |s| ==> r[i] == (if s[i] == a then b else s[i])
  {
    if s == [] then [] else [if s[0] == a then b else s[0]] + ReplaceChar(s[1..], a, b)
  }

  /** `s.replace(c, '')`. */
  function RemoveChar(s: string, c: char): (r: string)
    ensures forall x :: x in r <==> x in s && x != c
    ensures |r| <= |s|
    ensures c !in s ==> r == s
  {
    if s == [] then [] else (if s[0] == c then [] else [s[0]]) + RemoveChar(s[1..], c)
  }

  /** Removal works piece by piece: the characters other than `c` keep their order. */
  lemma {:induction false} RemoveCharConcat(s: string, t: string, c: char)
    ensures RemoveChar(s + t, c) == RemoveChar(s, c) + RemoveChar(t, c)
    decreases |s|
  {
    if s != [] {
      assert (s + t)[1..] == s[1..] + t;
      RemoveCharConcat(s[1..], t, c);
    } else {
      assert s + t == t;
    }
  }

  /** One character: removed when it is `c`, kept otherwise. */
  lemma RemoveCharSingle(x: char, c: char)
    ensures RemoveChar([x], c) == if x == c then [] else [x]
  {
    assert [x][1..] == [];
  }

  // ---------------------------------------------------------------------------
  // numbers

  function DigitChar(d: nat): (c: char)
    requires d < 10
    ensures IsDigit(c) && c as int - '0' as int == d
  {
    ('0' as int + d) as char
  }

  predicate AllDigits(s: string) {
    forall i :: 0 <= i < |s| ==> IsDigit(s[i])
  }

  /** `str(n)` for a natural number. */
  function NatToString(n: nat): (r: string)
    ensures |r| >= 1 && AllDigits(r)
    ensures r[0] == '0' ==> n == 0
    decreases n
  {
    if n < 10 then [DigitChar(n)] else NatToString(n / 10) + [DigitChar(n % 10)]
  }

  /** `str(i)` for an integer. */
  function IntToString(i: int): (r: string)
    ensures |r| >= 1
  {
    if i < 0 then "-" + NatToString(-i) else NatToString(i)
  }

  /** The value of a string of decimal digits (0 for the empty string). */
  function DigitsValue(s: string): nat
    requires AllDigits(s)
  {
    if s == [] then 0 else DigitsValue(s[..|s| - 1]) * 10 + (s[|s| - 1] as int - '0' as int)
  }

  /** Reading back what `NatToString` printed gives the number. */
  lemma {:induction false} NatToStringRoundTrip(n: nat)
    ensures DigitsValue(NatToString(n)) == n
    decreases n
  {
    if n >= 10 {
      NatToStringRoundTrip(n / 10);
      var s := NatToString(n);
      assert s[..|s| - 1] == NatToString(n / 10);
    }
  }

  function Pow10(k: nat): (p: nat)
    ensures p >= 1
  {
    if k == 0 then 1 else 10 * Pow10(k - 1)
  }

  /** A number below 10^k prints in at most k digits. */
  lemma {:induction false} NatToStringLength(n: nat, k: nat)
    requires 1 <= k && n < Pow10(k)
    ensures |NatToString(n)| <= k
    decreases n
  {
    if n >= 10 {
      NatToStringLength(n / 10, k - 1);
    }
  }

  function Zeros(k: nat): (r: string)
    ensures |r| == k && AllDigits(r)
    ensures forall i :: 0 <= i < k ==> r[i] == '0'
  {
    if k == 0 then "" else "0" + Zeros(k - 1)
  }

  /** `f"{n:0{width}d}"` for a natural number. */
  function ZeroPad(n: nat, width: nat): (r: string)
    ensures |r| == if |NatToString(n)| < width then width else |NatToString(n)|
    ensures AllDigits(r)
  {
    var d := NatToString(n);
    if |d| >= width then d else Zeros(width - |d|) + d
  }

  lemma {:induction false} LeadingZeros(k: nat, d: string)
    requires AllDigits(d)
    ensures AllDigits(Zeros(k) + d) && DigitsValue(Zeros(k) + d) == DigitsValue(d)
    decreases |d|, k
  {
    var z := Zeros(k);
    if d == [] {
      assert z + d == z;
      if k > 0 {
        assert z[..|z| - 1] == Zeros(k - 1);
        LeadingZeros(k - 1, []);
        assert Zeros(k - 1) + [] == Zeros(k - 1);
      }
    } else {
      var init := d[..|d| - 1];
      LeadingZeros(k, init);
      assert (z + d)[..|z + d| - 1] == z + init;
    }
  }

  /** Padding with zeros never changes the value that is read back. */
  lemma ZeroPadRoundTrip(n: nat, width: nat)
    ensures DigitsValue(ZeroPad(n, width)) == n
  {
    var d := NatToString(n);
    NatToStringRoundTrip(n);
    if |d| < width {
      var z := Zeros(width - |d|);
      assert ZeroPad(n, width) == z + d;
      LeadingZeros(width - |d|, d);
    } else {
      assert ZeroPad(n, width) == d;
    }
  }

  /** Decimal digits with single underscores between them, as Python's `int` accepts. */
  predicate IsNumeral(s: string)
    decreases |s|
  {
    |s| > 0 && IsDigit(s[0])
    && (|s| == 1 || IsNumeral(s[1..]) || (s[1] == '_' && IsNumeral(s[2..])))
  }

  /** The value of a numeral: its digits, the underscores dropped. */
  function NumeralValue(s: string): nat
    requires IsNumeral(s)
  {
    NumeralDigits(s);
    DigitsValue(RemoveChar(s, '_'))
  }

  lemma {:induction false} NumeralDigits(s: string)
    requires IsNumeral(s)
    ensures AllDigits(RemoveChar(s, '_'))
    decreases |s|
  {
    if |s| > 1 {
      if IsNumeral(s[1..]) {
        NumeralDigits(s[1..]);
      } else {
        NumeralDigits(s[2..]);
        assert s[1..][1..] == s[2..];
      }
    }
  }

  /** Plain digits are a numeral with the value they spell. */
  lemma {:induction false} DigitsNumeral(d: string)
    requires |d| > 0 && AllDigits(d)
    ensures IsNumeral(d) && NumeralValue(d) == DigitsValue(d)
    decreases |d|
  {
    if |d| > 1 {
      DigitsNumeral(d[1..]);
    }
    assert '_' !in d;
  }

  /** `int(s)`: surrounding whitespace, then `SignedValue`; `None` where Python raises. */
  function ParseInt(s: string): Option<int>
  {
    SignedValue(Strip(s))
  }

  /** An optional sign followed by a numeral, and nothing else. */
  function SignedValue(t: string): Option<int>
  {
    if |t| > 0 && (t[0] == '-' || t[0] == '+') && IsNumeral(t[1..]) then
      var v: int := NumeralValue(t[1..]);
      Some(if t[0] == '-' then -v else v)
    else if IsNumeral(t) then Some(NumeralValue(t))
    else None
  }

  /** Parsing what `IntToString` printed gives the number back. */
  lemma IntRoundTrip(i: int)
    ensures ParseInt(IntToString(i)) == Some(i)
  {
    var d := IntToString(i);
    StripUnpadded(d);
    SignedRoundTrip(i);
  }

  lemma SignedRoundTrip(i: int)
    ensures SignedValue(IntToString(i)) == Some(i)
  {
    var d := IntToString(i);
    if i < 0 {
      var n := NatToString(-i);
      NatToStringRoundTrip(-i);
      DigitsNumeral(n);
      assert d[1..] == n;
    } else {
      NatToStringRoundTrip(i);
      DigitsNumeral(d);
    }
  }

  /** `int` ignores whitespace around the number. */
  lemma ParseIntPadded(before: string, i: int, after: string)
    requires forall k :: 0 <= k < |before| ==> IsSpace(before[k])
    requires forall k :: 0 <= k < |after| ==> IsSpace(after[k])
    ensures ParseInt(before + IntToString(i) + after) == Some(i)
  {
    StripPadded(before, IntToString(i), after);
    SignedRoundTrip(i);
  }

  lemma StripPadded(before: string, s: string, after: string)
    requires forall k :: 0 <= k < |before| ==> IsSpace(before[k])
    requires forall k :: 0 <= k < |after| ==> IsSpace(after[k])
    requires s != [] && !IsSpace(s[0]) && !IsSpace(s[|s| - 1])
    ensures Strip(before + s + after) == s
  {
    TrimLeftSpace(before, s + after);
    assert before + s + after == before + (s + after);
    assert TrimLeft(s + after) == s + after;
    TrimRightSpace(s, after);
  }

  /** `int` reads digits split by one underscore as the digits run together. */
  lemma ParseIntGrouped(a: string, b: string)
    requires |a| > 0 && AllDigits(a) && |b| > 0 && AllDigits(b)
    ensures ParseInt(a + "_" + b) == ParseInt(a + b) == Some(DigitsValue(a + b))
  {
    assert AllDigits(a + b);
    ParseDigits(a + b);
    ParseGrouped(a, b);
  }

  lemma ParseDigits(d: string)
    requires |d| > 0 && AllDigits(d)
    ensures ParseInt(d) == Some(DigitsValue(d))
  {
    DigitsNumeral(d);
    NumeralSigned(d);
    StripUnpadded(d);
  }

  lemma ParseGrouped(a: string, b: string)
    requires |a| > 0 && AllDigits(a) && |b| > 0 && AllDigits(b)
    ensures ParseInt(a + "_" + b) == Some(DigitsValue(a + b))
  {
    GroupedSigned(a, b);
    StripUnpadded(a + "_" + b);
  }

  lemma GroupedSigned(a: string, b: string)
    requires |a| > 0 && AllDigits(a) && |b| > 0 && AllDigits(b)
    ensures SignedValue(a + "_" + b) == Some(DigitsValue(a + b))
  {
    GroupedNumeral(a, b);
    UnderscoreRemoved(a, b);
    NumeralSigned(a + "_" + b);
  }

  lemma NumeralSigned(t: string)
    requires IsNumeral(t)
    ensures SignedValue(t) == Some(NumeralValue(t))
  {
  }

  lemma UnderscoreRemoved(a: string, b: string)
    requires AllDigits(a) && AllDigits(b)
    ensures RemoveChar(a + "_" + b, '_') == a + b
  {
    assert '_' !in a && '_' !in b;
    RemoveCharSingle('_', '_');
    RemoveCharConcat(a, "_", '_');
    assert RemoveChar(a + "_", '_') == a;
    RemoveCharConcat(a + "_", b, '_');
  }

  lemma {:induction false} GroupedNumeral(a: string, b: string)
    requires |a| > 0 && AllDigits(a) && |b| > 0 && AllDigits(b)
    ensures IsNumeral(a + "_" + b)
    decreases |a|
  {
    DigitsNumeral(b);
    if |a| > 1 {
      GroupedNumeral(a[1..], b);
      assert (a + "_" + b)[1..] == a[1..] + "_" + b;
    } else {
      assert (a + "_" + b)[2..] == b;
    }
  }

  /** Whitespace in front is what `lstrip` removes. */
  lemma {:induction false} TrimLeftSpace(sp: string, s: string)
    requires forall k :: 0 <= k < |sp| ==> IsSpace(sp[k])
    ensures TrimLeft(sp + s) == TrimLeft(s)
    decreases |sp|
  {
    if sp != [] {
      assert (sp + s)[1..] == sp[1..] + s;
      TrimLeftSpace(sp[1..], s);
    } else {
      assert sp + s == s;
    }
  }

  /** Whitespace at the end is what `rstrip` removes. */
  lemma {:induction false} TrimRightSpace(s: string, sp: string)
    requires forall k :: 0 <= k < |sp| ==> IsSpace(sp[k])
    ensures TrimRight(s + sp) == TrimRight(s)
    decreases |sp|
  {
    if sp != [] {
      assert (s + sp)[..|s + sp| - 1] == s + sp[..|sp| - 1];
      TrimRightSpace(s, sp[..|sp| - 1]);
    } else {
      assert s + sp == s;
    }
  }

  lemma StripUnpadded(s: string)
    requires s != [] && !IsSpace(s[0]) && !IsSpace(s[|s| - 1])
    ensures Strip(s) == s
  {
  }

  // ---------------------------------------------------------------------------
  // splitting

  /** A word of `str.split()`: non-empty, no whitespace. */
  predicate IsWord(w: string) {
    |w| > 0 && forall i :: 0 <= i < |w| ==> !IsSpace(w[i])
  }

  function WordPrefixLength(s: string): (k: nat)
    ensures k <= |s|
    ensures forall i :: 0 <= i < k ==> !IsSpace(s[i])
    ensures k < |s| ==> IsSpace(s[k])
  {
    if s == [] || IsSpace(s[0]) then 0 else 1 + WordPrefixLength(s[1..])
  }

  /** `s.split()`: the maximal runs of non-whitespace, in order. */
  function Words(s: string): (ws: seq<string>)
    ensures forall i :: 0 <= i < |ws| ==> IsWord(ws[i])
    decreases |s|
  {
    var t := TrimLeft(s);
    if t == [] then []
    else
      var k := WordPrefixLength(t);
      FirstWord(t);
      var w, rest := t[..k], Words(t[k..]);
      PrependWord(w, rest);
      [w] + rest
  }

  /** `s.split()` is empty exactly when `s` is all whitespace. */
  lemma WordsBlank(s: string)
    ensures Words(s) == [] <==> forall k :: 0 <= k < |s| ==> IsSpace(s[k])
  {
    var t := TrimLeft(s);
    if t != [] {
      assert !IsSpace(s[|s| - |t|]);
    }
  }

  /** Whitespace before the text adds no word. */
  lemma WordsAfterSpace(sp: string, s: string)
    requires forall k :: 0 <= k < |sp| ==> IsSpace(sp[k])
    ensures Words(sp + s) == Words(s)
  {
    TrimLeftSpace(sp, s);
  }

  /** A run of non-whitespace that ends at whitespace (or at the end) is one whole
      word, followed by the words of the rest: runs are neither split nor merged. */
  lemma WordsFirstRun(w: string, rest: string)
    requires IsWord(w)
    requires rest == [] || IsSpace(rest[0])
    ensures Words(w + rest) == [w] + Words(rest)
  {
    var t := w + rest;
    assert TrimLeft(t) == t;
    RunLength(w, rest);
    assert t[..|w|] == w && t[|w|..] == rest;
  }

  lemma {:induction false} RunLength(w: string, rest: string)
    requires forall i :: 0 <= i < |w| ==> !IsSpace(w[i])
    requires rest == [] || IsSpace(rest[0])
    ensures WordPrefixLength(w + rest) == |w|
    decreases |w|
  {
    if w == [] {
      assert w + rest == rest;
    } else {
      assert (w + rest)[1..] == w[1..] + rest;
      RunLength(w[1..], rest);
    }
  }

  lemma FirstWord(t: string)
    requires t != [] && !IsSpace(t[0])
    ensures 0 < WordPrefixLength(t) && IsWord(t[..WordPrefixLength(t)])
  {
    var k := WordPrefixLength(t);
    assert forall i :: 0 <= i < k ==> t[..k][i] == t[i];
  }

  lemma PrependWord(w: string, rest: seq<string>)
    requires IsWord(w) && forall i :: 0 <= i < |rest| ==> IsWord(rest[i])
    ensures forall i :: 0 <= i < |[w] + rest| ==> IsWord(([w] + rest)[i])
  {
    forall i | 0 <= i < |[w] + rest|
      ensures IsWord(([w] + rest)[i])
    {
      if i > 0 {
        assert ([w] + rest)[i] == rest[i - 1];
      }
    }
  }

  /** Every character of `s` has property `p`, stated one character at a time. */
  ghost predicate Every(s: string, p: char -> bool)
    decreases |s|
  {
    s == [] || (p(s[0]) && Every(s[1..], p))
  }

  lemma {:induction false} EveryAt(s: string, p: char -> bool, m: nat)
    requires Every(s, p) && m < |s|
    ensures p(s[m])
    decreases m
  {
    if m > 0 {
      EveryAt(s[1..], p, m - 1);
    }
  }

  lemma {:induction false} EveryOfAll(s: string, p: char -> bool)
    requires forall m :: 0 <= m < |s| ==> p(s[m])
    ensures Every(s, p)
    decreases |s|
  {
    if s != [] {
      EveryOfAll(s[1..], p);
    }
  }

  /** Every string of `ws` satisfies `Every(_, p)`. */
  ghost predicate EveryWord(ws: seq<string>, p: char -> bool)
    decreases |ws|
  {
    ws == [] || (Every(ws[0], p) && EveryWord(ws[1..], p))
  }

  lemma {:induction false} EveryWordAt(ws: seq<string>, p: char -> bool, i: nat)
    requires EveryWord(ws, p) && i < |ws|
    ensures Every(ws[i], p)
    decreases i
  {
    if i > 0 {
      EveryWordAt(ws[1..], p, i - 1);
    }
  }

  /** Splitting keeps characters: a property of every character of `s` holds in every word. */
  lemma {:induction false} WordsKeep(s: string, p: char -> bool)
    requires Every(s, p)
    ensures EveryWord(Words(s), p)
    decreases |s|
  {
    if Words(s) != [] {
      FirstWordKeeps(s, p);
      var u := LaterWordsKeep(s, p);
      WordsKeep(u, p);
    }
  }

  /** A property of every character of `s` holds of every character of each word. */
  lemma WordKeeps(s: string, p: char -> bool, j: nat)
    requires forall m :: 0 <= m < |s| ==> p(s[m])
    requires j < |Words(s)|
    ensures forall n :: 0 <= n < |Words(s)[j]| ==> p(Words(s)[j][n])
  {
    EveryOfAll(s, p);
    WordsKeep(s, p);
    EveryWordAt(Words(s), p, j);
    forall n | 0 <= n < |Words(s)[j]| ensures p(Words(s)[j][n]) {
      EveryAt(Words(s)[j], p, n);
    }
  }

  lemma FirstWordKeeps(s: string, p: char -> bool)
    requires Every(s, p) && Words(s) != []
    ensures Every(Words(s)[0], p)
  {
    var t := TrimLeft(s);
    WordsStep(s);
    EverySlice(s, p, |s| - |t|, 0);
    EverySlice(t, p, 0, WordPrefixLength(t));
  }

  /** The words after the first are those of a shorter suffix of `s`. */
  lemma LaterWordsKeep(s: string, p: char -> bool) returns (u: string)
    requires Every(s, p) && Words(s) != []
    ensures |u| < |s| && Every(u, p) && Words(s)[1..] == Words(u)
  {
    var t := TrimLeft(s);
    var k := WordPrefixLength(t);
    WordsStep(s);
    EverySlice(s, p, |s| - |t|, 0);
    EverySlice(t, p, k, k);
    u := t[k..];
    assert Words(s) == [t[..k]] + Words(u);
  }

  lemma {:induction false} EverySlice(s: string, p: char -> bool, a: nat, b: nat)
    requires Every(s, p) && a <= |s| && b <= |s|
    ensures Every(s[a..], p) && Every(s[..b], p)
    decreases |s|
  {
    if s != [] {
      EverySlice(s[1..], p, if a > 0 then a - 1 else 0, if b > 0 then b - 1 else 0);
      if a > 0 {
        assert s[a..] == s[1..][a - 1..];
      }
      if b > 0 {
        assert s[..b][1..] == s[1..][..b - 1];
      }
    }
  }

  lemma WordsStep(s: string)
    requires Words(s) != []
    ensures var t := TrimLeft(s); var k := WordPrefixLength(t);
      0 < k <= |t| && forall i {:trigger Words(s)[i]} :: 0 < i < |Words(s)| ==> Words(s)[i] == Words(t[k..])[i - 1]
    ensures Words(s)[0] == TrimLeft(s)[..WordPrefixLength(TrimLeft(s))]
  {
    var t := TrimLeft(s);
    FirstWord(t);
  }

  lemma CharOfSlice(s: string, a: nat, b: nat, c: char)
    requires a <= b <= |s| && c in s[a..b]
    ensures c in s
  {
    var m :| 0 <= m < b - a && s[a..b][m] == c;
    assert s[a + m] == c;
  }

  /** `sep.join(ps)`. */
  function Join(ps: seq<string>, sep: string): string {
    if ps == [] then "" else if |ps| == 1 then ps[0] else ps[0] + sep + Join(ps[1..], sep)
  }

  /** `s.split(c)` for a single-character separator: always at least one part. */
  function SplitOn(s: string, c: char): (parts: seq<string>)
    ensures |parts| >= 1
    ensures forall i :: 0 <= i < |parts| ==> c !in parts[i]
  {
    if s == [] then [""]
    else
      var rest := SplitOn(s[1..], c);
      if s[0] == c then [""] + rest else [[s[0]] + rest[0]] + rest[1..]
  }

  /** Splitting on a character and joining with it again gives the original string. */
  lemma {:induction false} SplitJoinRoundTrip(s: string, c: char)
    ensures Join(SplitOn(s, c), [c]) == s
  {
    if s != [] {
      var rest := SplitOn(s[1..], c);
      SplitJoinRoundTrip(s[1..], c);
      if s[0] == c {
        assert SplitOn(s, c) == [""] + rest;
        assert ([""] + rest)[1..] == rest;
      } else {
        var parts := [[s[0]] + rest[0]] + rest[1..];
        assert parts[1..] == rest[1..];
        if |rest| == 1 {
          assert [s[0]] + rest[0] == [s[0]] + s[1..];
        } else {
          assert Join(rest, [c]) == rest[0] + [c] + Join(rest[1..], [c]);
        }
      }
    }
  }
}
