/** The few Python string operations the modelled code relies on, over
    `string` (= seq<char>): whitespace tests as `str.isspace` answers them
    for ASCII, `strip`, `split()`, `split("\n")`, "\n".join, prefix and
    substring tests, and decimal rendering of integers as `str(n)` and
    f"{n:02d}" produce it. Non-ASCII whitespace and digits are not modelled. */
module Text {
  import opened Outcomes

  /** The ASCII characters Python's str.isspace() accepts: the space, the
      tab, line feed, vertical tab, form feed and carriage return (9 to 13),
      and the four separators 28 to 31. */
  predicate IsSpace(c: char)
  {
    c == ' ' || '\t' <= c <= '\r' || '\U{001C}' <= c <= '\U{001F}'
  }

  predicate IsDigit(c: char)
  {
    '0' <= c <= '9'
  }

  predicate IsLowerAlpha(c: char)
  {
    'a' <= c <= 'z'
  }

  predicate IsUpperAlpha(c: char)
  {
    'A' <= c <= 'Z'
  }

  /** `not s.strip()`: the string is empty or made of whitespace only. */
  predicate IsBlank(s: string)
  {
    forall i :: 0 <= i < |s| ==> IsSpace(s[i])
  }

  predicate StartsWith(s: string, prefix: string)
  {
    |prefix| <= |s| && s[..|prefix|] == prefix
  }

  /** Python's `sub in s`. */
  predicate Contains(s: string, sub: string)
    decreases |s|
  {
    StartsWith(s, sub) || (|s| > 0 && Contains(s[1..], sub))
  }

  /** `sub` occurs in `s` starting at index `i`. */
  predicate OccursAt(s: string, sub: string, i: int)
  {
    0 <= i && i + |sub| <= |s| && s[i..i + |sub|] == sub
  }

  /** `sub in s` names a position where `sub` occurs. */
  lemma {:induction false} ContainsWitness(s: string, sub: string)
    requires Contains(s, sub)
    ensures exists i :: OccursAt(s, sub, i)
    decreases |s|
  {
    if StartsWith(s, sub) {
      assert OccursAt(s, sub, 0);
    } else {
      ContainsWitness(s[1..], sub);
      var i :| OccursAt(s[1..], sub, i);
      assert s[i + 1..i + 1 + |sub|] == s[1..][i..i + |sub|];
      assert OccursAt(s, sub, i + 1);
    }
  }

  lemma {:induction false} ContainsAt(s: string, sub: string, i: nat)
    requires i + |sub| <= |s| && s[i..i + |sub|] == sub
    ensures Contains(s, sub)
    decreases i
  {
    if i == 0 {
      assert s[..|sub|] == s[i..i + |sub|];
    } else {
      assert s[1..][i - 1..i - 1 + |sub|] == s[i..i + |sub|];
      ContainsAt(s[1..], sub, i - 1);
    }
  }

  function DigitChar(d: nat): (c: char)
    requires d < 10
    ensures IsDigit(c) && c as int == '0' as int + d
  {
    ('0' as int + d) as char
  }

  function DigitValue(c: char): nat
    requires IsDigit(c)
  {
    (c as int - '0' as int) as nat
  }

  /** `str(n)` for a non-negative integer. */
  function Decimal(n: nat): (s: string)
    ensures 1 <= |s|
    ensures forall i :: 0 <= i < |s| ==> IsDigit(s[i])
    ensures n < 10 ==> |s| == 1
    ensures n < 100 ==> |s| <= 2
    ensures n < 10000 ==> |s| <= 4
  {
    if n < 10 then [DigitChar(n)] else Decimal(n / 10) + [DigitChar(n % 10)]
  }

  /** Reads a non-empty run of decimal digits back as a number. */
  function ParseDecimal(s: string): nat
    requires forall i :: 0 <= i < |s| ==> IsDigit(s[i])
  {
    if |s| == 0 then 0 else 10 * ParseDecimal(s[..|s| - 1]) + DigitValue(s[|s| - 1])
  }

  /** Rendering then reading a number gives the number back, so distinct
      numbers render as distinct strings. */
  lemma {:induction false} DecimalRoundTrip(n: nat)
    ensures ParseDecimal(Decimal(n)) == n
  {
    if n >= 10 {
      DecimalRoundTrip(n / 10);
      var s := Decimal(n);
      assert s[..|s| - 1] == Decimal(n / 10);
    }
  }

  /** A leading zero does not change the value read back. */
  lemma {:induction false} LeadingZero(s: string)
    requires forall i :: 0 <= i < |s| ==> IsDigit(s[i])
    ensures ParseDecimal("0" + s) == ParseDecimal(s)
    decreases |s|
  {
    if s != [] {
      var z := "0" + s;
      assert z[..|z| - 1] == "0" + s[..|s| - 1];
      LeadingZero(s[..|s| - 1]);
    }
  }

  /** Zero padding does not change the value read back either, so
      f"{n:02d}" tells numbers apart just as `str(n)` does. */
  lemma {:induction false} PaddedRoundTrip(n: nat, width: nat)
    ensures ParseDecimal(ZeroPad(Decimal(n), width)) == n
  {
    PaddedDigits(n, width);
    PaddedRoundTripFrom(Decimal(n), width);
    DecimalRoundTrip(n);
  }

  lemma {:induction false} PaddedRoundTripFrom(s: string, width: nat)
    requires forall i :: 0 <= i < |s| ==> IsDigit(s[i])
    ensures ParseDecimal(ZeroPad(s, width)) == ParseDecimal(s)
  {
    if |s| < width {
      LeadingZeros(width - |s|, s);
    }
  }

  /** Zeros followed by digits are digits. */
  lemma ZerosThenDigits(k: nat, s: string)
    requires forall i :: 0 <= i < |s| ==> IsDigit(s[i])
    ensures forall i :: 0 <= i < |Zeros(k) + s| ==> IsDigit((Zeros(k) + s)[i])
  {
    var z := Zeros(k) + s;
    forall i | 0 <= i < |z|
      ensures IsDigit(z[i])
    {
      if i >= k {
        assert z[i] == s[i - k];
      }
    }
  }

  lemma {:induction false} LeadingZeros(k: nat, s: string)
    requires forall i :: 0 <= i < |s| ==> IsDigit(s[i])
    ensures ParseDecimal(Zeros(k) + s) == ParseDecimal(s)
  {
    if k > 0 {
      LeadingZeros(k - 1, s);
      var rest := Zeros(k - 1) + s;
      ZerosThenDigits(k - 1, s);
      assert Zeros(k) + s == "0" + rest;
      LeadingZero(rest);
    } else {
      assert Zeros(k) + s == s;
    }
  }

  lemma DecimalInjective(m: nat, n: nat)
    requires Decimal(m) == Decimal(n)
    ensures m == n
  {
    DecimalRoundTrip(m);
    DecimalRoundTrip(n);
  }

  lemma PaddedInjective(m: nat, n: nat, width: nat)
    requires ZeroPad(Decimal(m), width) == ZeroPad(Decimal(n), width)
    ensures m == n
  {
    PaddedRoundTrip(m, width);
    PaddedRoundTrip(n, width);
  }

  lemma DigitCharInjective(m: nat, n: nat)
    requires m < 10 && n < 10 && DigitChar(m) == DigitChar(n)
    ensures m == n
  {
    assert Decimal(m) == [DigitChar(m)] && Decimal(n) == [DigitChar(n)];
    DecimalInjective(m, n);
  }

  /** `str(i)` for any integer. */
  function IntToString(i: int): (s: string)
    ensures 1 <= |s|
    ensures i >= 0 ==> s == Decimal(i)
  {
    if i < 0 then "-" + Decimal(-i) else Decimal(i)
  }

  lemma NatToString(n: nat)
    ensures IntToString(n) == Decimal(n)
  {
  }

  lemma OneDigitToString(n: nat)
    requires n < 10
    ensures IntToString(n) == [DigitChar(n)]
  {
  }

  function Zeros(k: nat): (z: string)
    ensures |z| == k && forall i :: 0 <= i < k ==> z[i] == '0'
  {
    if k == 0 then "" else "0" + Zeros(k - 1)
  }

  /** f"{n:0<width>d}" for a non-negative integer: left-pad with zeros. */
  function ZeroPad(s: string, width: nat): (r: string)
    ensures |r| == if |s| < width then width else |s|
  {
    if |s| < width then Zeros(width - |s|) + s else s
  }

  /** A zero-padded rendering is all digits. */
  lemma PaddedDigits(n: nat, width: nat)
    ensures forall i :: 0 <= i < |ZeroPad(Decimal(n), width)| ==> IsDigit(ZeroPad(Decimal(n), width)[i])
  {
    var s := Decimal(n);
    var r := ZeroPad(s, width);
    forall i | 0 <= i < |r|
      ensures IsDigit(r[i])
    {
      if i >= |r| - |s| {
        assert r[i] == r[|r| - |s|..][i - (|r| - |s|)];
      }
    }
  }

  function LStrip(s: string): (r: string)
    ensures |r| <= |s| && r == s[|s| - |r|..]
    ensures IsBlank(s[..|s| - |r|])
    ensures r == [] || !IsSpace(r[0])
  {
    if |s| > 0 && IsSpace(s[0]) then
      var r := LStrip(s[1..]);
      assert s[..|s| - |r|] == [s[0]] + s[1..][..|s| - 1 - |r|];
      r
    else s
  }

  function RStrip(s: string): (r: string)
    ensures |r| <= |s| && r == s[..|r|]
    ensures IsBlank(s[|r|..])
    ensures r == [] || !IsSpace(r[|r| - 1])
  {
    if |s| > 0 && IsSpace(s[|s| - 1]) then
      var r := RStrip(s[..|s| - 1]);
      assert s[|r|..] == s[..|s| - 1][|r|..] + [s[|s| - 1]];
      r
    else s
  }

  /** `s.strip()`: a slice of `s` that neither starts nor ends with whitespace
      and leaves only whitespace on either side. */
  function Strip(s: string): (r: string)
    ensures |r| <= |s|
    ensures r == [] || (!IsSpace(r[0]) && !IsSpace(r[|r| - 1]))
    ensures r == [] <==> IsBlank(s)
  {
    var l := LStrip(s);
    var r := RStrip(l);
    StripEmpty(s, l, r);
    StripEnds(l, r);
    r
  }

  /** The stripped string is the slice of `s` between two bounds with only
      whitespace outside them. */
  lemma StripBounds(s: string) returns (a: nat, b: nat)
    ensures a <= b <= |s| && Strip(s) == s[a..b] && IsBlank(s[..a]) && IsBlank(s[b..])
  {
    var l := LStrip(s);
    var r := RStrip(l);
    a, b := |s| - |l|, |s| - |l| + |r|;
    StripSlice(s, l, r, a, b);
  }

  /** The stripped slice of a suffix, in the positions of the whole. */
  lemma StripSuffixBounds(s: string, n: nat) returns (a: nat, b: nat)
    requires n <= |s|
    ensures n <= a <= b <= |s| && Strip(s[n..]) == s[a..b] && IsBlank(s[n..a]) && IsBlank(s[b..])
  {
    var i, j := StripBounds(s[n..]);
    a, b := n + i, n + j;
    SuffixSlice(s, n, Strip(s[n..]), i, j, a, b);
  }

  /** A piece of a suffix, with blanks around it, is the piece of the whole
      shifted by the suffix's start, with the same blanks around it. */
  lemma SuffixSlice(s: string, n: nat, t: string, i: nat, j: nat, a: nat, b: nat)
    requires n <= |s| && i <= j <= |s| - n && a == n + i && b == n + j
    requires t == s[n..][i..j] && IsBlank(s[n..][..i]) && IsBlank(s[n..][j..])
    ensures t == s[a..b] && IsBlank(s[n..a]) && IsBlank(s[b..])
  {
    assert s[n..][..i] == s[n..a];
    assert s[n..][j..] == s[b..];
  }

  lemma StripSlice(s: string, l: string, r: string, a: nat, b: nat)
    requires |l| <= |s| && l == s[|s| - |l|..] && IsBlank(s[..|s| - |l|])
    requires |r| <= |l| && r == l[..|r|] && IsBlank(l[|r|..])
    requires a == |s| - |l| && b == a + |r|
    ensures r == s[a..b] && IsBlank(s[..a]) && IsBlank(s[b..])
  {
    assert s[b..] == l[|r|..];
  }

  lemma StripEnds(l: string, r: string)
    requires |r| <= |l| && r == l[..|r|]
    requires l == [] || !IsSpace(l[0])
    requires r == [] || !IsSpace(r[|r| - 1])
    ensures r == [] || (!IsSpace(r[0]) && !IsSpace(r[|r| - 1]))
  {
    if r != [] {
      assert r[0] == l[0];
    }
  }

  lemma StripEmpty(s: string, l: string, r: string)
    requires |l| <= |s| && l == s[|s| - |l|..] && IsBlank(s[..|s| - |l|])
    requires l == [] || !IsSpace(l[0])
    requires |r| <= |l| && r == l[..|r|] && IsBlank(l[|r|..])
    ensures r == [] <==> IsBlank(s)
  {
    var a := |s| - |l|;
    if r == [] {
      assert l[|r|..] == l;
      assert l == [];
      assert s[..a] == s;
    }
    if l != [] {
      assert l[0] == s[a];
    }
  }

  /** `s[:n]`: the first `n` characters (all of them when there are fewer);
      a negative `n` drops that many characters from the end. */
  function Take(s: string, n: int): (r: string)
    ensures |r| <= |s| && r == s[..|r|]
    ensures 0 <= n <= |s| ==> |r| == n
    ensures n >= |s| ==> r == s
    ensures n < 0 ==> |r| == if |s| + n > 0 then |s| + n else 0
  {
    if n >= |s| then s
    else if n >= 0 then s[..n]
    else if |s| + n > 0 then s[..|s| + n]
    else ""
  }

  /** `str(x or "")`. */
  function TextOrEmpty(x: Option<string>): string
  {
    if x.Some? then x.value else ""
  }

  /** `s or "unknown"` for a stripped string. */
  function OrUnknown(stripped: string): (r: string)
    requires stripped == [] || !IsSpace(stripped[0])
    ensures r != [] && !IsSpace(r[0])
  {
    if stripped == [] then "unknown" else stripped
  }

  /** Concatenation of a list of strings. */
  function Concat(parts: seq<string>): string
  {
    if parts == [] then "" else parts[0] + Concat(parts[1..])
  }

  /** The non-whitespace characters of `s`, in order. */
  function NonSpace(s: string): string
  {
    if s == [] then ""
    else if IsSpace(s[0]) then NonSpace(s[1..])
    else [s[0]] + NonSpace(s[1..])
  }

  /** The longest whitespace-free prefix of `s`. */
  function WordPrefix(s: string): (w: string)
    ensures |w| <= |s| && w == s[..|w|]
    ensures forall i :: 0 <= i < |w| ==> !IsSpace(w[i])
    ensures |w| == |s| || IsSpace(s[|w|])
  {
    if s == [] || IsSpace(s[0]) then "" else [s[0]] + WordPrefix(s[1..])
  }

  lemma {:induction false} NonSpaceOfWord(w: string, rest: string)
    requires forall i :: 0 <= i < |w| ==> !IsSpace(w[i])
    ensures NonSpace(w + rest) == w + NonSpace(rest)
    decreases |w|
  {
    if w != [] {
      assert (w + rest)[1..] == w[1..] + rest;
      NonSpaceOfWord(w[1..], rest);
    } else {
      assert w + rest == rest;
    }
  }

  /** `s.split()` with no argument: the maximal runs of non-whitespace. */
  function Words(s: string): (ws: seq<string>)
    ensures forall i :: 0 <= i < |ws| ==> ws[i] != [] && forall j :: 0 <= j < |ws[i]| ==> !IsSpace(ws[i][j])
    decreases |s|
  {
    if s == [] then []
    else if IsSpace(s[0]) then Words(s[1..])
    else
      var w := WordPrefix(s);
      [w] + Words(s[|w|..])
  }

  /** The words, put back together, hold exactly the non-whitespace
      characters of the input: `split()` loses only whitespace. */
  lemma {:induction false} WordsKeepNonSpace(s: string)
    ensures Concat(Words(s)) == NonSpace(s)
    decreases |s|
  {
    if s == [] {
    } else if IsSpace(s[0]) {
      WordsKeepNonSpace(s[1..]);
    } else {
      var w := WordPrefix(s);
      WordsKeepNonSpace(s[|w|..]);
      assert s == w + s[|w|..];
      NonSpaceOfWord(w, s[|w|..]);
      assert Words(s)[1..] == Words(s[|w|..]);
    }
  }

  /** A string that starts with a non-whitespace character splits into at
      least one word, and the first word starts with that character. */
  lemma FirstWord(s: string)
    requires s != [] && !IsSpace(s[0])
    ensures Words(s) != [] && Words(s)[0] == WordPrefix(s) && Words(s)[0][0] == s[0]
  {
  }

  /** `sep.join(parts)` for a one-character separator. */
  function JoinWith(parts: seq<string>, sep: char): string
  {
    if |parts| == 0 then ""
    else if |parts| == 1 then parts[0]
    else parts[0] + [sep] + JoinWith(parts[1..], sep)
  }

  /** `s.split(sep)` for a one-character separator: never empty, pieces hold
      no separator. */
  function SplitOn(s: string, sep: char): (parts: seq<string>)
    ensures |parts| >= 1
    ensures forall i :: 0 <= i < |parts| ==> sep !in parts[i]
    decreases |s|
  {
    if |s| == 0 then [""]
    else
      var rest := SplitOn(s[1..], sep);
      if s[0] == sep then [""] + rest
      else [[s[0]] + rest[0]] + rest[1..]
  }

  /** A string of separators only splits into empty parts. */
  lemma {:induction false} SplitOnSeparatorsOnly(s: string, sep: char)
    requires forall i :: 0 <= i < |s| ==> s[i] == sep
    ensures forall i :: 0 <= i < |SplitOn(s, sep)| ==> SplitOn(s, sep)[i] == ""
    decreases |s|
  {
    if |s| > 0 {
      SplitOnSeparatorsOnly(s[1..], sep);
    }
  }

  lemma {:induction false} JoinWithConsChar(c: char, parts: seq<string>, sep: char)
    requires |parts| >= 1
    ensures JoinWith([[c] + parts[0]] + parts[1..], sep) == [c] + JoinWith(parts, sep)
  {
    var ps := [[c] + parts[0]] + parts[1..];
    if |parts| > 1 {
      assert ps[1..] == parts[1..];
    }
  }

  /** Splitting on a separator and joining with it gives the input back. */
  lemma {:induction false} SplitJoin(s: string, sep: char)
    ensures JoinWith(SplitOn(s, sep), sep) == s
    decreases |s|
  {
    if |s| > 0 {
      var rest := SplitOn(s[1..], sep);
      SplitJoin(s[1..], sep);
      if s[0] == sep {
        var ps := [""] + rest;
        assert ps[1..] == rest;
        assert JoinWith(ps, sep) == "" + [sep] + JoinWith(rest, sep);
      } else {
        JoinWithConsChar(s[0], rest, sep);
      }
    }
  }
}
