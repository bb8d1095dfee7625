/**
 * The Python string operations the intervention system relies on, with Python's semantics:
 * `startswith`, `in`, `replace`, `split(sep)[-1]`, `isdigit`, `zfill`, `str(int)` and `int(str)`.
 * Characters are code points; only ASCII digits and ASCII white space are modelled.
 */
module Strings {
  import opened Wrappers

  /** Python `s.startswith(p)`. */
  predicate StartsWith(s: string, p: string) {
    |p| <= |s| && s[..|p|] == p
  }

  /** Python `p in s`: `p` occurs in `s` as a contiguous substring. */
  predicate Contains(s: string, p: string)
    decreases |s|
  {
    StartsWith(s, p) || (|s| > 0 && Contains(s[1..], p))
  }

  /** A substring at a given offset is contained. */
  lemma {:induction false} ContainsAt(s: string, p: string, i: nat)
    requires i + |p| <= |s| && s[i..i + |p|] == p
    ensures Contains(s, p)
    decreases i
  {
    if i == 0 {
      assert s[..|p|] == p;
    } else {
      assert s[1..][i - 1..i - 1 + |p|] == s[i..i + |p|];
      ContainsAt(s[1..], p, i - 1);
    }
  }

  /** Every occurrence found by `Contains` sits at some offset. */
  lemma {:induction false} ContainsOffset(s: string, p: string) returns (i: nat)
    requires Contains(s, p)
    ensures i + |p| <= |s| && s[i..i + |p|] == p
    decreases |s|
  {
    if StartsWith(s, p) {
      i := 0;
    } else {
      var j := ContainsOffset(s[1..], p);
      assert s[1..][j..j + |p|] == s[j + 1..j + 1 + |p|];
      i := j + 1;
    }
  }

  /** A pattern that is contained in a prefix or a suffix is contained in the whole. */
  lemma ContainsConcat(a: string, b: string, p: string)
    ensures Contains(a, p) ==> Contains(a + b, p)
    ensures Contains(b, p) ==> Contains(a + b, p)
  {
    if Contains(a, p) {
      var i := ContainsOffset(a, p);
      assert (a + b)[i..i + |p|] == a[i..i + |p|];
      ContainsAt(a + b, p, i);
    }
    if Contains(b, p) {
      var i := ContainsOffset(b, p);
      assert (a + b)[|a| + i..|a| + i + |p|] == b[i..i + |p|];
      ContainsAt(a + b, p, |a| + i);
    }
  }

  /**
   * Python `s.replace(pat, rep)`: every non-overlapping occurrence of `pat`, scanning
   * from the left, is replaced by `rep`.
   */
  function ReplaceAll(s: string, pat: string, rep: string): (r: string)
    requires |pat| > 0
    ensures !Contains(s, pat) ==> r == s
    decreases |s|
  {
    if StartsWith(s, pat) then rep + ReplaceAll(s[|pat|..], pat, rep)
    else if |s| == 0 then s
    else [s[0]] + ReplaceAll(s[1..], pat, rep)
  }

  /** Replacing a pattern by the empty string leaves no occurrence of a one-character pattern. */
  lemma {:induction false} ReplaceCharRemoves(s: string, c: char)
    ensures c !in ReplaceAll(s, [c], "")
    decreases |s|
  {
    if |s| > 0 {
      ReplaceCharRemoves(s[1..], c);
    }
  }

  /** Replacing one character by another changes exactly the positions holding it. */
  lemma {:induction false} ReplaceCharPointwise(s: string, c: char, d: char)
    ensures |ReplaceAll(s, [c], [d])| == |s|
    ensures forall i :: 0 <= i < |s| ==>
      ReplaceAll(s, [c], [d])[i] == (if s[i] == c then d else s[i])
    decreases |s|
  {
    if |s| > 0 {
      ReplaceCharPointwise(s[1..], c, d);
    }
  }

  /**
   * Python `s.split(sep)[-1]`: the text after the last `sep`, or the whole of `s` when
   * `sep` does not occur.
   */
  function LastSegment(s: string, sep: char): (r: string)
    ensures sep !in r
    decreases |s|
  {
    if |s| == 0 then s
    else if s[|s| - 1] == sep then []
    else LastSegment(s[..|s| - 1], sep) + [s[|s| - 1]]
  }

  /** The last segment is what follows the last separator, or all of `s` when there is none. */
  lemma {:induction false} LastSegmentSuffix(s: string, sep: char)
    ensures var r := LastSegment(s, sep);
      |r| <= |s| && r == s[|s| - |r|..] && (|r| < |s| ==> s[|s| - |r| - 1] == sep)
    decreases |s|
  {
    if |s| > 0 && s[|s| - 1] != sep {
      var p := s[..|s| - 1];
      LastSegmentSuffix(p, sep);
      var q := LastSegment(p, sep);
      var last := s[|s| - 1];
      assert s == p + [last];
      assert LastSegment(s, sep) == q + [last];
      SuffixSnoc(p, q, last, sep);
    }
  }

  /** A suffix that follows a separator stays one when both strings grow by the same character. */
  lemma SuffixSnoc(p: string, q: string, last: char, sep: char)
    requires |q| <= |p| && q == p[|p| - |q|..] && (|q| < |p| ==> p[|p| - |q| - 1] == sep)
    ensures var s, r := p + [last], q + [last];
      |r| <= |s| && r == s[|s| - |r|..] && (|r| < |s| ==> s[|s| - |r| - 1] == sep)
  {
    var s := p + [last];
    assert s[|p| - |q|..] == p[|p| - |q|..] + [last];
    if |q| < |p| {
      assert s[|p| - |q| - 1] == p[|p| - |q| - 1];
    }
  }

  /** A string without the separator is its own last segment, even after any prefix and separator. */
  lemma {:induction false} LastSegmentAfter(prefix: string, sep: char, id: string)
    requires sep !in id
    ensures LastSegment(prefix + [sep] + id, sep) == id
    decreases |id|
  {
    var s := prefix + [sep] + id;
    if |id| == 0 {
      assert s[|s| - 1] == sep;
    } else {
      assert s[..|s| - 1] == prefix + [sep] + id[..|id| - 1];
      LastSegmentAfter(prefix, sep, id[..|id| - 1]);
      assert id == id[..|id| - 1] + [id[|id| - 1]];
    }
  }

  predicate IsDigitChar(c: char) {
    '0' <= c <= '9'
  }

  /** Python `s.isdigit()` for ASCII text: non-empty and only digits. */
  predicate IsDigits(s: string) {
    |s| > 0 && forall i :: 0 <= i < |s| ==> IsDigitChar(s[i])
  }

  /** The value of a string of decimal digits (an empty string counts as 0). */
  function DigitsValue(s: string): (n: nat)
    requires forall i :: 0 <= i < |s| ==> IsDigitChar(s[i])
    decreases |s|
  {
    if |s| == 0 then 0
    else
      assert IsDigitChar(s[|s| - 1]);
      10 * DigitsValue(s[..|s| - 1]) + (s[|s| - 1] as int - '0' as int)
  }

  function Zeros(n: nat): (r: string)
    ensures |r| == n && forall i :: 0 <= i < n ==> r[i] == '0'
  {
    if n == 0 then "" else "0" + Zeros(n - 1)
  }

  /** Leading zeros do not change the value of a digit string. */
  lemma {:induction false} DigitsValueLeadingZeros(z: nat, s: string)
    requires forall i :: 0 <= i < |s| ==> IsDigitChar(s[i])
    ensures forall i :: 0 <= i < |Zeros(z) + s| ==> IsDigitChar((Zeros(z) + s)[i])
    ensures DigitsValue(Zeros(z) + s) == DigitsValue(s)
    decreases |s|
  {
    var t := Zeros(z) + s;
    assert forall i :: 0 <= i < |t| ==> IsDigitChar(t[i]) by {
      forall i | 0 <= i < |t| ensures IsDigitChar(t[i]) {
        if i < z { assert t[i] == '0'; } else { assert t[i] == s[i - z]; }
      }
    }
    if |s| == 0 {
      ZerosValue(z);
      assert t == Zeros(z);
    } else {
      assert t[..|t| - 1] == Zeros(z) + s[..|s| - 1];
      DigitsValueLeadingZeros(z, s[..|s| - 1]);
    }
  }

  lemma {:induction false} ZerosValue(z: nat)
    ensures DigitsValue(Zeros(z)) == 0
    decreases z
  {
    if z > 0 {
      assert Zeros(z)[..z - 1] == Zeros(z - 1);
      ZerosValue(z - 1);
    }
  }

  /**
   * Python `s.zfill(width)`: pads with '0' on the left up to `width` characters, keeping a
   * leading sign in front; a string already at least `width` long is returned unchanged.
   */
  function ZFill(s: string, width: nat): (r: string)
    ensures |r| == if |s| < width then width else |s|
    ensures |s| >= width ==> r == s
  {
    if |s| >= width then s
    else if |s| > 0 && (s[0] == '+' || s[0] == '-') then [s[0]] + Zeros(width - |s|) + s[1..]
    else Zeros(width - |s|) + s
  }

  /** On unsigned digit strings `zfill` only prepends zeros, so it keeps the value. */
  lemma ZFillDigits(s: string, width: nat)
    requires IsDigits(s)
    ensures IsDigits(ZFill(s, width))
    ensures DigitsValue(ZFill(s, width)) == DigitsValue(s)
  {
    DigitsValueLeadingZeros(if |s| >= width then 0 else width - |s|, s);
    if |s| >= width {
      assert Zeros(0) + s == s;
    }
  }

  function DigitChar(d: nat): (c: char)
    requires d < 10
    ensures IsDigitChar(c) && c as int - '0' as int == d
  {
    ('0' as int + d) as char
  }

  /** Python `str(n)` for a natural number: decimal digits, no leading zero. */
  function NatToDecimal(n: nat): (r: string)
    ensures IsDigits(r)
    decreases n
  {
    if n < 10 then [DigitChar(n)] else NatToDecimal(n / 10) + [DigitChar(n % 10)]
  }

  /** Decimal rendering and digit value are inverse: `int(str(n)) == n` on digits. */
  lemma {:induction false} NatToDecimalValue(n: nat)
    ensures DigitsValue(NatToDecimal(n)) == n
    ensures NatToDecimal(n)[0] != '0' || n == 0
    decreases n
  {
    if n >= 10 {
      var r := NatToDecimal(n);
      assert r[..|r| - 1] == NatToDecimal(n / 10);
      NatToDecimalValue(n / 10);
    }
  }

  /** Distinct numbers have distinct decimal renderings. */
  lemma NatToDecimalInjective(m: nat, n: nat)
    requires NatToDecimal(m) == NatToDecimal(n)
    ensures m == n
  {
    NatToDecimalValue(m);
    NatToDecimalValue(n);
  }

  /** Python `str(i)` for any integer. */
  function IntToDecimal(i: int): (r: string)
    ensures |r| > 0
    ensures i >= 0 <==> r[0] != '-'
  {
    if i < 0 then "-" + NatToDecimal(-i) else NatToDecimal(i)
  }

  /** The white space Python's `int()` strips: the characters `str.isspace()` accepts. */
  predicate IsSpace(c: char) {
    ('\U{0009}' <= c <= '\U{000D}') || ('\U{001C}' <= c <= '\U{0020}') || c == '\U{0085}' || c == '\U{00A0}'
    || c == '\U{1680}' || ('\U{2000}' <= c <= '\U{200A}') || c == '\U{2028}' || c == '\U{2029}'
    || c == '\U{202F}' || c == '\U{205F}' || c == '\U{3000}'
  }

  function TrimLeft(s: string): (r: string)
    ensures |r| <= |s| && r == s[|s| - |r|..]
    ensures |r| > 0 ==> !IsSpace(r[0])
    ensures forall i :: 0 <= i < |s| - |r| ==> IsSpace(s[i])
    decreases |s|
  {
    if |s| > 0 && IsSpace(s[0]) then TrimLeft(s[1..]) else s
  }

  function TrimRight(s: string): (r: string)
    ensures |r| <= |s| && r == s[..|r|]
    ensures |r| > 0 ==> !IsSpace(r[|r| - 1])
    ensures forall i :: |r| <= i < |s| ==> IsSpace(s[i])
    decreases |s|
  {
    if |s| > 0 && IsSpace(s[|s| - 1]) then TrimRight(s[..|s| - 1]) else s
  }

  /** Digits separated by single underscores, as `int()` accepts them: `1_000` but not `_1`, `1__0` or `1_`. */
  predicate IsUnderscoredDigits(s: string) {
    IsDigits(s) || (|s| >= 3 && IsDigitChar(s[0]) && s[1] == '_' && IsUnderscoredDigits(s[2..]))
      || (|s| >= 2 && IsDigitChar(s[0]) && IsUnderscoredDigits(s[1..]) && s[1] != '_')
  }

  /** The digits of an underscored digit string, underscores dropped. */
  function DropUnderscores(s: string): (r: string)
    ensures forall i :: 0 <= i < |r| ==> r[i] != '_'
    ensures (forall i :: 0 <= i < |s| ==> IsDigitChar(s[i]) || s[i] == '_') ==>
      forall i :: 0 <= i < |r| ==> IsDigitChar(r[i])
    decreases |s|
  {
    if |s| == 0 then s
    else if s[0] == '_' then DropUnderscores(s[1..])
    else [s[0]] + DropUnderscores(s[1..])
  }

  lemma {:induction false} UnderscoredChars(s: string)
    requires IsUnderscoredDigits(s)
    ensures forall i :: 0 <= i < |s| ==> IsDigitChar(s[i]) || s[i] == '_'
    decreases |s|
  {
    if !IsDigits(s) {
      if |s| >= 3 && IsDigitChar(s[0]) && s[1] == '_' && IsUnderscoredDigits(s[2..]) {
        UnderscoredChars(s[2..]);
      } else {
        UnderscoredChars(s[1..]);
      }
    }
  }

  /** The value of an unsigned literal accepted by `int()`. */
  function UnsignedValue(s: string): (n: nat)
    requires IsUnderscoredDigits(s)
  {
    UnderscoredChars(s);
    DigitsValue(DropUnderscores(s))
  }

  /**
   * Python `int(s)` on a string: surrounding white space is ignored, an optional sign is
   * followed by digits (single underscores allowed between digits); anything else raises
   * `ValueError`, modelled as `None`.
   */
  function ParseInt(s: string): (r: Option<int>)
    ensures r.Some? ==> exists i :: 0 <= i < |s| && IsDigitChar(s[i])
  {
    var t := TrimRight(TrimLeft(s));
    var r := ParseTrimmed(t);
    if r.Some? then
      var i := DigitIndex(t);
      assert t[i] == s[|s| - |TrimLeft(s)| + i];
      r
    else r
  }

  /** `int()` on text already stripped of surrounding white space. */
  function ParseTrimmed(t: string): (r: Option<int>)
  {
    if |t| > 0 && (t[0] == '+' || t[0] == '-') then
      if IsUnderscoredDigits(t[1..]) then
        var v: int := UnsignedValue(t[1..]);
        Some(if t[0] == '-' then -v else v)
      else None
    else if IsUnderscoredDigits(t) then Some(UnsignedValue(t))
    else None
  }

  /** Where a parsed literal has a digit. */
  function DigitIndex(t: string): (i: nat)
    requires ParseTrimmed(t).Some?
    ensures i < |t| && IsDigitChar(t[i])
  {
    if |t| > 0 && (t[0] == '+' || t[0] == '-') then
      DigitWitness(t[1..]);
      1
    else
      DigitWitness(t);
      0
  }

  lemma DigitWitness(s: string)
    requires IsUnderscoredDigits(s)
    ensures |s| > 0 && IsDigitChar(s[0])
  {
  }

  lemma {:induction false} DropUnderscoresDigits(s: string)
    requires forall i :: 0 <= i < |s| ==> IsDigitChar(s[i])
    ensures DropUnderscores(s) == s
    decreases |s|
  {
    if |s| > 0 {
      DropUnderscoresDigits(s[1..]);
    }
  }

  /** A plain digit string is an unsigned literal whose value is its digit value. */
  lemma UnsignedValueDigits(d: string)
    requires IsDigits(d)
    ensures IsUnderscoredDigits(d) && UnsignedValue(d) == DigitsValue(d)
  {
    DropUnderscoresDigits(d);
  }

  /** Text with no surrounding white space is left alone by the stripping `int()` does. */
  lemma TrimUnspaced(s: string)
    requires |s| > 0 && !IsSpace(s[0]) && !IsSpace(s[|s| - 1])
    ensures TrimRight(TrimLeft(s)) == s
  {
  }

  /** A plain digit string parses to its digit value. */
  lemma ParseIntDigits(d: string)
    requires IsDigits(d)
    ensures ParseInt(d) == Some(DigitsValue(d))
  {
    TrimUnspaced(d);
    assert ParseInt(d) == ParseTrimmed(d);
    UnsignedValueDigits(d);
  }

  /** A minus sign followed by plain digits parses to the negated digit value. */
  lemma ParseIntNegated(d: string)
    requires IsDigits(d)
    ensures ParseInt("-" + d) == Some(-(DigitsValue(d) as int))
  {
    var s := "-" + d;
    assert s[0] == '-' && s[|s| - 1] == d[|d| - 1];
    TrimUnspaced(s);
    ParseTrimmedNegated(d);
  }

  lemma ParseTrimmedNegated(d: string)
    requires IsDigits(d)
    ensures ParseTrimmed("-" + d) == Some(-(DigitsValue(d) as int))
  {
    var s := "-" + d;
    assert s[0] == '-' && s[1..] == d;
    UnsignedValueDigits(d);
  }

  /** `int(str(i)) == i`: parsing inverts decimal rendering for every integer. */
  lemma ParseIntRoundTrip(i: int)
    ensures ParseInt(IntToDecimal(i)) == Some(i)
  {
    var n: nat := if i < 0 then -i else i;
    NatToDecimalValue(n);
    if i < 0 {
      ParseIntNegated(NatToDecimal(n));
    } else {
      ParseIntDigits(NatToDecimal(n));
    }
  }
}
