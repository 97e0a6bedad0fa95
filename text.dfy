/** String helpers the .NET runtime gives the source for free: ASCII lower-casing,
    `char.IsWhiteSpace`, decimal rendering of integers, `String.Replace` and the
    "dd-MM-yyyy" date format. Each comes with the inverse or reference definition
    that pins down what it computes. */
module Text {

  /** The C# `int` range; fields declared `int` in the settings records use it. */
  newtype int32 = x: int | -0x8000_0000 <= x < 0x8000_0000

  /** Two's-complement wrap-around of an unchecked C# `int` operation. */
  function Wrap32(x: int): (r: int32)
    ensures r as int % 0x1_0000_0000 == x % 0x1_0000_0000
    ensures -0x8000_0000 <= x < 0x8000_0000 ==> r as int == x
  {
    var m := x % 0x1_0000_0000;
    if m < 0x8000_0000 then m as int32 else (m - 0x1_0000_0000) as int32
  }

  // ---------------------------------------------------------------------------
  // Letter case

  predicate IsUpper(c: char) { 'A' <= c <= 'Z' }

  function LowerChar(c: char): (r: char)
    ensures !IsUpper(r)
    ensures IsUpper(c) || r == c
  {
    if IsUpper(c) then (c as int + 32) as char else c
  }

  /** `String.ToLower()`, restricted to the ASCII letters. */
  function ToLower(s: string): (r: string)
    ensures |r| == |s|
    ensures forall i :: 0 <= i < |s| ==> r[i] == LowerChar(s[i])
  {
    seq(|s|, i requires 0 <= i < |s| => LowerChar(s[i]))
  }

  /** Lower-casing twice is lower-casing once, so a lower-case name matches itself. */
  lemma ToLowerIdempotent(s: string)
    ensures ToLower(ToLower(s)) == ToLower(s)
  {
    assert forall i :: 0 <= i < |s| ==> LowerChar(LowerChar(s[i])) == LowerChar(s[i]);
  }

  /** Strings without upper-case letters are their own lower-case form. */
  lemma ToLowerOfLower(s: string)
    requires forall i :: 0 <= i < |s| ==> !IsUpper(s[i])
    ensures ToLower(s) == s
  {
  }

  /** Two strings that differ only in the case of ASCII letters, in either
      direction and at any positions, lower-case alike. */
  lemma ToLowerUpperLower(s: string, t: string)
    requires |s| == |t|
    requires forall i :: 0 <= i < |s| ==> LowerChar(s[i]) == LowerChar(t[i])
    ensures ToLower(s) == ToLower(t)
  {
  }

  // ---------------------------------------------------------------------------
  // White space

  /** `char.IsWhiteSpace`: the Unicode space separators, line and paragraph
      separators, and the control characters U+0009 to U+000D and U+0085. */
  predicate IsWhiteSpace(c: char)
  {
    || c == ' ' || ('\t' <= c <= '\r') || c == '\U{85}' || c == '\U{A0}'
    || c == '\U{1680}' || ('\U{2000}' <= c <= '\U{200A}')
    || c == '\U{2028}' || c == '\U{2029}' || c == '\U{202F}' || c == '\U{205F}'
    || c == '\U{3000}'
  }

  /** `string.IsNullOrWhiteSpace` on a non-null string: empty or all white space. */
  predicate IsBlank(s: string)
  {
    forall i :: 0 <= i < |s| ==> IsWhiteSpace(s[i])
  }

  // ---------------------------------------------------------------------------
  // Decimal numbers

  predicate IsDigit(c: char) { '0' <= c <= '9' }

  function Digit(d: nat): (c: char)
    requires d < 10
    ensures IsDigit(c) && c as int - '0' as int == d
  {
    ('0' as int + d) as char
  }

  function DigitValue(c: char): (d: nat)
    requires IsDigit(c)
    ensures d < 10 && Digit(d) == c
  {
    assert '0' as int <= c as int;
    c as int - '0' as int
  }

  predicate AllDigits(s: string)
  {
    forall i :: 0 <= i < |s| ==> IsDigit(s[i])
  }

  /** Decimal digits of `n`, most significant first, without leading zeros. */
  function NatToString(n: nat): (r: string)
    ensures |r| >= 1 && AllDigits(r)
    ensures |r| > 1 ==> r[0] != '0'
  {
    if n < 10 then [Digit(n)] else NatToString(n / 10) + [Digit(n % 10)]
  }

  /** `int.ToString()`: a minus sign before the digits of the magnitude. */
  function IntToString(x: int): (r: string)
    ensures |r| >= 1
    ensures (r[0] == '-') == (x < 0)
    ensures AllDigits(if x < 0 then r[1..] else r)
  {
    if x < 0 then "-" + NatToString(-x) else NatToString(x)
  }

  /** Value of a string of decimal digits. */
  function ParseNat(s: string): nat
    requires AllDigits(s)
  {
    if s == [] then 0 else ParseNat(s[..|s| - 1]) * 10 + DigitValue(s[|s| - 1])
  }

  function ParseInt(s: string): int
    requires |s| >= 1
    requires AllDigits(if s[0] == '-' then s[1..] else s)
  {
    if s[0] == '-' then 0 - ParseNat(s[1..]) else ParseNat(s)
  }

  lemma {:induction false} ParseNatToString(n: nat)
    ensures ParseNat(NatToString(n)) == n
  {
    if n >= 10 {
      var s := NatToString(n);
      assert s[..|s| - 1] == NatToString(n / 10);
      ParseNatToString(n / 10);
    }
  }

  /** Rendering an integer in decimal loses nothing. */
  lemma IntToStringRoundTrip(x: int)
    ensures ParseInt(IntToString(x)) == x
  {
    if x < 0 {
      assert IntToString(x)[1..] == NatToString(-x);
      ParseNatToString(-x);
    } else {
      ParseNatToString(x);
    }
  }

  /** Distinct integers render as distinct strings. */
  lemma IntToStringInjective(x: int, y: int)
    requires IntToString(x) == IntToString(y)
    ensures x == y
  {
    IntToStringRoundTrip(x);
    IntToStringRoundTrip(y);
  }

  // ---------------------------------------------------------------------------
  // Substring search and replacement

  predicate StartsWith(s: string, p: string)
  {
    |p| <= |s| && s[..|p|] == p
  }

  /** `p` occurs somewhere in `s`. */
  predicate Occurs(p: string, s: string)
  {
    exists i :: 0 <= i <= |s| && StartsWith(s[i..], p)
  }

  /** `String.Replace(pat, rep)`: every non-overlapping occurrence of `pat`,
      found scanning from the left, is replaced by `rep`. */
  function ReplaceAll(s: string, pat: string, rep: string): string
    requires |pat| > 0
    decreases |s|
  {
    if |s| < |pat| then s
    else if s[..|pat|] == pat then rep + ReplaceAll(s[|pat|..], pat, rep)
    else [s[0]] + ReplaceAll(s[1..], pat, rep)
  }

  /** A string that does not contain the pattern is returned unchanged. */
  lemma {:induction false} ReplaceAbsent(s: string, pat: string, rep: string)
    requires |pat| > 0 && !Occurs(pat, s)
    ensures ReplaceAll(s, pat, rep) == s
  {
    assert StartsWith(s[0..], pat) ==> Occurs(pat, s);
    if |s| >= |pat| {
      assert s[0..] == s;
      assert !Occurs(pat, s[1..]) by {
        forall i | 0 <= i <= |s[1..]| ensures !StartsWith(s[1..][i..], pat) {
          assert s[1..][i..] == s[i + 1..];
        }
      }
      ReplaceAbsent(s[1..], pat, rep);
    }
  }

  /** No occurrence of `pat` starts inside `a` when `pat` follows `a`: the
      occurrence right after `a` is the first one. */
  predicate FirstAfter(a: string, pat: string)
  {
    forall i :: 0 <= i < |a| ==> !StartsWith((a + pat)[i..], pat)
  }

  /** Text before the first occurrence is kept, the occurrence is replaced, and
      replacement goes on after it. */
  lemma {:induction false} ReplaceSplit(a: string, pat: string, rep: string, b: string)
    requires |pat| > 0 && FirstAfter(a, pat)
    ensures ReplaceAll(a + pat + b, pat, rep) == a + rep + ReplaceAll(b, pat, rep)
  {
    var s := a + pat + b;
    if a == [] {
      assert s[..|pat|] == pat && s[|pat|..] == b;
    } else {
      assert !StartsWith((a + pat)[0..], pat);
      assert s[..|pat|] == (a + pat)[0..][..|pat|];
      assert s[1..] == a[1..] + pat + b;
      assert ReplaceAll(s, pat, rep) == [a[0]] + ReplaceAll(a[1..] + pat + b, pat, rep);
      forall i | 0 <= i < |a[1..]| ensures !StartsWith((a[1..] + pat)[i..], pat) {
        assert !StartsWith((a + pat)[i + 1..], pat);
        assert (a[1..] + pat)[i..] == (a + pat)[i + 1..];
      }
      ReplaceSplit(a[1..], pat, rep, b);
    }
  }

  /** A prefix without the pattern's first character holds no occurrence. */
  lemma FirstCharAbsent(a: string, pat: string)
    requires |pat| > 0 && pat[0] !in a
    ensures FirstAfter(a, pat)
  {
    forall i | 0 <= i < |a| ensures !StartsWith((a + pat)[i..], pat) {
      assert (a + pat)[i..][0] == a[i];
    }
  }

  /** When the replacement shares no character with the pattern, a prefix of the
      result made of pattern characters was already a prefix of the input. */
  lemma {:induction false} ReplacePrefixFromInput(t: string, pat: string, rep: string, w: string)
    requires |pat| > 0 && |rep| > 0
    requires forall i :: 0 <= i < |rep| ==> rep[i] !in pat
    requires |w| > 0 && forall i :: 0 <= i < |w| ==> w[i] in pat
    requires StartsWith(ReplaceAll(t, pat, rep), w)
    ensures StartsWith(t, w)
    decreases |t|
  {
    var r := ReplaceAll(t, pat, rep);
    ReplaceHead(t, pat, rep);
    if |t| < |pat| {
    } else if t[..|pat|] == pat {
      // r begins with rep[0], which is not a pattern character, while w[0] is
    } else {
      var r' := ReplaceAll(t[1..], pat, rep);
      assert r == [t[0]] + r';
      assert w[0] == t[0];
      if |w| > 1 {
        assert StartsWith(r', w[1..]);
        ReplacePrefixFromInput(t[1..], pat, rep, w[1..]);
        assert t[1..][..|w| - 1] == w[1..];
        assert t[..|w|] == [t[0]] + t[1..][..|w| - 1];
      }
    }
  }

  /** The first character of a replacement: the replacement text's when the
      input starts with the pattern, the input's otherwise. */
  lemma ReplaceHead(t: string, pat: string, rep: string)
    requires |pat| > 0 && |rep| > 0
    ensures |t| >= |pat| && t[..|pat|] == pat ==> ReplaceAll(t, pat, rep)[0] == rep[0]
    ensures |t| >= |pat| && t[..|pat|] != pat ==> ReplaceAll(t, pat, rep)[0] == t[0]
  {
  }

  /** Replacing with text that shares no character with the pattern leaves no
      occurrence of the pattern behind. */
  lemma {:induction false} ReplaceLeavesNone(s: string, pat: string, rep: string)
    requires |pat| > 0 && |rep| > 0
    requires forall i :: 0 <= i < |rep| ==> rep[i] !in pat
    ensures !Occurs(pat, ReplaceAll(s, pat, rep))
    decreases |s|
  {
    var r := ReplaceAll(s, pat, rep);
    if |s| < |pat| {
      forall i | 0 <= i <= |r| ensures !StartsWith(r[i..], pat) { }
    } else if s[..|pat|] == pat {
      var r' := ReplaceAll(s[|pat|..], pat, rep);
      ReplaceLeavesNone(s[|pat|..], pat, rep);
      forall i | 0 <= i <= |r| ensures !StartsWith(r[i..], pat) {
        if i < |rep| {
          assert r[i] == rep[i];
        } else {
          assert r[i..] == r'[i - |rep|..];
        }
      }
    } else {
      var r' := ReplaceAll(s[1..], pat, rep);
      ReplaceLeavesNone(s[1..], pat, rep);
      forall i | 0 <= i <= |r| ensures !StartsWith(r[i..], pat) {
        if i == 0 {
          if StartsWith(r, pat) && |pat| > 1 {
            assert StartsWith(r', pat[1..]);
            ReplacePrefixFromInput(s[1..], pat, rep, pat[1..]);
          }
        } else {
          assert r[i..] == r'[i - 1..];
        }
      }
    }
  }

  // ---------------------------------------------------------------------------
  // Dates

  /** A calendar date as `DateTime` holds it. */
  datatype Date = Date(day: nat, month: nat, year: nat)
  {
    predicate Valid() { 1 <= day <= 31 && 1 <= month <= 12 && 1 <= year <= 9999 }
  }

  /** Two-digit zero-padded rendering, the "dd" and "MM" specifiers. */
  function Pad2(n: nat): (r: string)
    requires n < 100
    ensures |r| == 2 && AllDigits(r)
  {
    [Digit(n / 10), Digit(n % 10)]
  }

  /** Four-digit zero-padded rendering, the "yyyy" specifier. */
  function Pad4(n: nat): (r: string)
    requires n < 10000
    ensures |r| == 4 && AllDigits(r)
  {
    [Digit(n / 1000), Digit(n / 100 % 10), Digit(n / 10 % 10), Digit(n % 10)]
  }

  /** `date.ToString("dd-MM-yyyy")`. */
  function DateStamp(d: Date): (r: string)
    requires d.Valid()
    ensures |r| == 10 && r[2] == '-' && r[5] == '-'
    ensures forall i :: 0 <= i < |r| && i != 2 && i != 5 ==> IsDigit(r[i])
  {
    var dd, mm, yyyy := Pad2(d.day), Pad2(d.month), Pad4(d.year);
    var r := dd + "-" + mm + "-" + yyyy;
    assert forall i :: 0 <= i < 2 ==> r[i] == dd[i];
    assert forall i :: 3 <= i < 5 ==> r[i] == mm[i - 3];
    assert forall i :: 6 <= i < 10 ==> r[i] == yyyy[i - 6];
    r
  }

  lemma Pad2RoundTrip(n: nat)
    requires n < 100
    ensures ParseNat(Pad2(n)) == n
  {
    var r := Pad2(n);
    assert r[..1] == [Digit(n / 10)] && r[..1][..0] == [];
    assert ParseNat(r[..1]) == n / 10;
  }

  lemma Pad4RoundTrip(n: nat)
    requires n < 10000
    ensures ParseNat(Pad4(n)) == n
  {
    var r := Pad4(n);
    assert r[..3] == [Digit(n / 1000), Digit(n / 100 % 10), Digit(n / 10 % 10)];
    assert r[..3][..2] == [Digit(n / 1000), Digit(n / 100 % 10)];
    assert r[..3][..2][..1] == [Digit(n / 1000)];
    assert r[..3][..2][..1][..0] == [];
    assert ParseNat(r[..3][..2][..1]) == n / 1000;
    assert n / 1000 * 10 + n / 100 % 10 == n / 100;
    assert ParseNat(r[..3][..2]) == n / 100;
    assert n / 100 * 10 + n / 10 % 10 == n / 10;
    assert ParseNat(r[..3]) == n / 10;
  }

  /** Reads back a "dd-MM-yyyy" stamp. */
  function ParseDateStamp(s: string): Date
    requires |s| == 10 && AllDigits(s[0..2]) && AllDigits(s[3..5]) && AllDigits(s[6..10])
  {
    Date(ParseNat(s[0..2]), ParseNat(s[3..5]), ParseNat(s[6..10]))
  }

  /** The stamp determines the date: it reads back as day, month and year. */
  lemma DateStampRoundTrip(d: Date)
    requires d.Valid()
    ensures var s := DateStamp(d);
            AllDigits(s[0..2]) && AllDigits(s[3..5]) && AllDigits(s[6..10]) &&
            ParseDateStamp(s) == d
  {
    var s := DateStamp(d);
    assert s[0..2] == Pad2(d.day);
    assert s[3..5] == Pad2(d.month);
    assert s[6..10] == Pad4(d.year);
    Pad2RoundTrip(d.day);
    Pad2RoundTrip(d.month);
    Pad4RoundTrip(d.year);
  }
}
