/**
 * The decimal integer syntax that Python's `int()` accepts when a setting
 * typed `int` is read from an environment string: optional surrounding
 * white space, an optional sign, then digits that may be grouped by single
 * underscores ("45_000"). Only the ASCII range is modelled.
 */
module IntLiteral {
  import opened Wrappers

  predicate IsDigit(c: char) { '0' <= c <= '9' }

  /** The ASCII characters `int()` skips around a literal: space, \t \n \v \f \r. */
  predicate IsSpace(c: char) {
    c == ' ' || 9 <= c as int <= 13
  }

  /** Drops leading white space. */
  function TrimStart(s: string): (r: string)
    ensures |r| <= |s| && r == s[|s| - |r|..]
    ensures forall i :: 0 <= i < |s| - |r| ==> IsSpace(s[i])
    ensures r != [] ==> !IsSpace(r[0])
  {
    if s != [] && IsSpace(s[0]) then TrimStart(s[1..]) else s
  }

  /** Drops trailing white space. */
  function TrimEnd(s: string): (r: string)
    ensures |r| <= |s| && r == s[..|r|]
    ensures forall i :: |r| <= i < |s| ==> IsSpace(s[i])
    ensures r != [] ==> !IsSpace(r[|r| - 1])
  {
    if s != [] && IsSpace(s[|s| - 1]) then TrimEnd(s[..|s| - 1]) else s
  }

  /** Drops white space at both ends. */
  function Strip(s: string): (r: string)
    ensures r != [] ==> !IsSpace(r[0]) && !IsSpace(r[|r| - 1])
  {
    TrimEnd(TrimStart(s))
  }

  /** Digits, possibly separated by single underscores, starting and ending with a digit. */
  predicate DigitGroups(s: string) {
    && s != []
    && IsDigit(s[0])
    && IsDigit(s[|s| - 1])
    && (forall i :: 0 <= i < |s| ==> IsDigit(s[i]) || s[i] == '_')
    && (forall i :: 0 <= i < |s| - 1 ==> !(s[i] == '_' && s[i + 1] == '_'))
  }

  /** The number the digits of `s` spell, underscores skipped. */
  function DigitsValue(s: string): nat
    requires forall i :: 0 <= i < |s| ==> IsDigit(s[i]) || s[i] == '_'
  {
    if s == [] then 0
    else if s[|s| - 1] == '_' then DigitsValue(s[..|s| - 1])
    else
      var c := s[|s| - 1];
      assert IsDigit(c);
      10 * DigitsValue(s[..|s| - 1]) + (c as int - '0' as int)
  }

  /** The part of a stripped literal after its optional sign. */
  function Magnitude(t: string): string {
    if t != [] && (t[0] == '-' || t[0] == '+') then t[1..] else t
  }

  /** `int(s)` in base 10: the integer `s` spells, or None where Python raises ValueError. */
  function ParseInt(s: string): (r: Option<int>)
    ensures Strip(s) == [] ==> r == None
    ensures r.Some? <==> Strip(s) != [] && DigitGroups(Magnitude(Strip(s)))
  {
    var t := Strip(s);
    var m := Magnitude(t);
    if t == [] || !DigitGroups(m) then None
    else if t[0] == '-' then Some(0 - DigitsValue(m))
    else Some(DigitsValue(m))
  }

  function DigitChar(d: nat): (c: char)
    requires d < 10
    ensures IsDigit(c) && c as int - '0' as int == d
  {
    ('0' as int + d) as char
  }

  /** Decimal digits of `n` without leading zeros (Python's `str(n)` for n >= 0). */
  function NatToString(n: nat): (s: string)
    decreases n
  {
    if n < 10 then [DigitChar(n)] else NatToString(n / 10) + [DigitChar(n % 10)]
  }

  /** Python's `str(n)` for an int. */
  function IntToString(n: int): string {
    if n < 0 then "-" + NatToString(-n) else NatToString(n)
  }

  lemma {:induction false} NatToStringDigits(n: nat)
    ensures NatToString(n) != []
    ensures forall i :: 0 <= i < |NatToString(n)| ==> IsDigit(NatToString(n)[i])
    ensures DigitsValue(NatToString(n)) == n
    decreases n
  {
    if n >= 10 {
      NatToStringDigits(n / 10);
      var s := NatToString(n);
      assert s[..|s| - 1] == NatToString(n / 10);
    }
  }

  /** A string with no white space at either end is left alone by Strip. */
  lemma StripUnspaced(s: string)
    requires s != [] && !IsSpace(s[0]) && !IsSpace(s[|s| - 1])
    ensures Strip(s) == s
  {
  }

  /** Reading back what `str(n)` prints gives `n`. */
  lemma {:induction false} ParseIntToString(n: int)
    ensures ParseInt(IntToString(n)) == Some(n)
  {
    var s := IntToString(n);
    var digits := NatToString(if n < 0 then -n else n);
    NatToStringDigits(if n < 0 then -n else n);
    StripUnspaced(s);
    assert Magnitude(s) == digits;
    assert DigitGroups(digits);
  }

  /** A character that is neither white space, a sign, a digit nor `_` makes the whole string unreadable. */
  lemma ParseIntRejectsForeignChar(s: string, k: nat)
    requires k < |s|
    requires !IsSpace(s[k]) && !IsDigit(s[k]) && s[k] !in "+-_"
    ensures ParseInt(s) == None
  {
    var u := TrimStart(s);
    var t := TrimEnd(u);
    var a := |s| - |u|;
    assert t == s[a..a + |t|];
    if t != [] {
      assert a <= k < a + |t|;
      var m := Magnitude(t);
      if m != t {
        assert k != a;
        assert m[k - a - 1] == s[k];
      } else {
        assert m[k - a] == s[k];
      }
    }
  }

  /** All characters are white space. */
  predicate AllSpace(ws: string) {
    forall i :: 0 <= i < |ws| ==> IsSpace(ws[i])
  }

  lemma {:induction false} TrimStartSpaces(ws: string, x: string)
    requires AllSpace(ws) && x != [] && !IsSpace(x[0])
    ensures TrimStart(ws + x) == x
    decreases |ws|
  {
    if ws != [] {
      assert (ws + x)[1..] == ws[1..] + x;
      TrimStartSpaces(ws[1..], x);
    }
  }

  lemma {:induction false} TrimEndSpaces(x: string, ws: string)
    requires AllSpace(ws) && x != [] && !IsSpace(x[|x| - 1])
    ensures TrimEnd(x + ws) == x
    decreases |ws|
  {
    if ws != [] {
      assert (x + ws)[..|x + ws| - 1] == x + ws[..|ws| - 1];
      TrimEndSpaces(x, ws[..|ws| - 1]);
    }
  }

  /** White space around a literal that starts and ends with a visible character is dropped. */
  lemma StripPadded(ws: string, core: string, ws': string)
    requires AllSpace(ws) && AllSpace(ws')
    requires core != [] && !IsSpace(core[0]) && !IsSpace(core[|core| - 1])
    ensures Strip(ws + core + ws') == core
  {
    assert ws + core + ws' == ws + (core + ws');
    TrimStartSpaces(ws, core + ws');
    TrimEndSpaces(core, ws');
  }

  /** Parsing looks only at the stripped text: a sign, then digit groups. */
  lemma ParseIntOfStripped(s: string, sign: string, digits: string)
    requires sign == "" || sign == "+" || sign == "-"
    requires DigitGroups(digits)
    requires Strip(s) == sign + digits
    ensures ParseInt(s) == Some(if sign == "-" then 0 - DigitsValue(digits) else DigitsValue(digits))
  {
    assert Magnitude(sign + digits) == digits;
  }

  /**
   * The value of any accepted literal: white space around it is skipped, a
   * "+" sign or none keeps the value and a "-" sign negates it.
   */
  lemma ParseIntSpacedSigned(ws: string, sign: string, digits: string, ws': string)
    requires AllSpace(ws) && AllSpace(ws')
    requires sign == "" || sign == "+" || sign == "-"
    requires DigitGroups(digits)
    ensures ParseInt(ws + sign + digits + ws')
      == Some(if sign == "-" then 0 - DigitsValue(digits) else DigitsValue(digits))
  {
    var core := sign + digits;
    if sign == "" {
      assert core == digits;
    } else {
      assert core[|core| - 1] == digits[|digits| - 1];
    }
    assert ws + sign + digits + ws' == ws + core + ws';
    StripPadded(ws, core, ws');
    ParseIntOfStripped(ws + sign + digits + ws', sign, digits);
  }

  /** A single underscore between digit groups does not change the value. */
  lemma {:induction false} UnderscoreIgnored(a: string, b: string)
    requires forall i :: 0 <= i < |a| ==> IsDigit(a[i]) || a[i] == '_'
    requires forall i :: 0 <= i < |b| ==> IsDigit(b[i]) || b[i] == '_'
    ensures DigitsValue(a + "_" + b) == DigitsValue(a + b)
    decreases |b|
  {
    if b == [] {
      assert (a + "_" + b)[..|a + "_" + b| - 1] == a;
      assert a + b == a;
    } else {
      var b0 := b[..|b| - 1];
      assert (a + "_" + b)[..|a + "_" + b| - 1] == a + "_" + b0;
      assert (a + b)[..|a + b| - 1] == a + b0;
      UnderscoreIgnored(a, b0);
    }
  }

  /** Leading zeros do not change the value ("007" is 7). */
  lemma {:induction false} LeadingZeroIgnored(s: string)
    requires forall i :: 0 <= i < |s| ==> IsDigit(s[i]) || s[i] == '_'
    ensures DigitsValue("0" + s) == DigitsValue(s)
    decreases |s|
  {
    if s != [] {
      var s0 := s[..|s| - 1];
      assert ("0" + s)[..|"0" + s| - 1] == "0" + s0;
      LeadingZeroIgnored(s0);
    } else {
      assert ("0" + s)[..0] == [];
    }
  }
}
