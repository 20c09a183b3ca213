/**
 * The string operations the forms apply to their inputs: JavaScript's `trim`,
 * the `s.trim() || null` normalisation, the `slice(0, n)` length caps,
 * `parseInt(s) || 0` for number inputs, and integer printing in template strings.
 */
module Text {
  import opened Base

  /** The characters `String.prototype.trim` removes: the WhiteSpace and
      LineTerminator code points of ECMA-262. */
  predicate IsWhitespace(c: char) {
    c == '\t' || c == '\n' || c == '\U{000B}' || c == '\U{000C}' || c == '\r' || c == ' '
    || c == '\U{00A0}' || c == '\U{1680}' || ('\U{2000}' <= c <= '\U{200A}')
    || c == '\U{2028}' || c == '\U{2029}' || c == '\U{202F}' || c == '\U{205F}'
    || c == '\U{3000}' || c == '\U{FEFF}'
  }

  /** A string that `trim` turns into the empty string, and which is therefore falsy after trimming. */
  predicate IsBlank(s: string) {
    forall i :: 0 <= i < |s| ==> IsWhitespace(s[i])
  }

  /** `trimStart`: drops the leading whitespace and keeps the rest as it is. */
  function TrimStart(s: string): string {
    if s != [] && IsWhitespace(s[0]) then TrimStart(s[1..]) else s
  }

  /** What `trimStart` leaves is a suffix, everything before it is whitespace, and it starts with a non-blank. */
  lemma {:induction false} TrimStartShape(s: string)
    ensures var r := TrimStart(s);
      && |r| <= |s| && r == s[|s| - |r|..]
      && (forall i :: 0 <= i < |s| - |r| ==> IsWhitespace(s[i]))
      && (r != [] ==> !IsWhitespace(r[0]))
  {
    if s != [] && IsWhitespace(s[0]) {
      TrimStartShape(s[1..]);
    }
  }

  /** `trimEnd`: drops the trailing whitespace and keeps the rest as it is. */
  function TrimEnd(s: string): string {
    if s != [] && IsWhitespace(s[|s| - 1]) then TrimEnd(s[..|s| - 1]) else s
  }

  /** What `trimEnd` leaves is a prefix, everything after it is whitespace, and it ends with a non-blank. */
  lemma {:induction false} TrimEndShape(s: string)
    ensures var r := TrimEnd(s);
      && |r| <= |s| && r == s[..|r|]
      && (forall i :: |r| <= i < |s| ==> IsWhitespace(s[i]))
      && (r != [] ==> !IsWhitespace(r[|r| - 1]))
  {
    if s != [] && IsWhitespace(s[|s| - 1]) {
      TrimEndShape(s[..|s| - 1]);
    }
  }

  /** `r` is the slice of `s` starting at `lo`, and everything outside it is whitespace. */
  predicate TrimmedAt(s: string, lo: int, r: string) {
    0 <= lo <= |s| - |r| && r == s[lo..lo + |r|]
    && (forall i :: 0 <= i < lo ==> IsWhitespace(s[i]))
    && (forall i :: lo + |r| <= i < |s| ==> IsWhitespace(s[i]))
  }

  /** `trim`: whitespace removed at both ends; nothing is left exactly when the text is blank. */
  function Trim(s: string): (r: string)
    ensures r == [] <==> IsBlank(s)
  {
    TrimShape(s);
    TrimEnd(TrimStart(s))
  }

  /** What `trim` leaves is the slice of `s` between its leading and its trailing whitespace. */
  lemma TrimShape(s: string)
    ensures var r := TrimEnd(TrimStart(s));
      && |r| <= |s|
      && (r == [] <==> IsBlank(s))
      && (r != [] ==> !IsWhitespace(r[0]) && !IsWhitespace(r[|r| - 1]))
      && TrimmedAt(s, |s| - |TrimStart(s)|, r)
  {
    var t := TrimStart(s);
    TrimStartShape(s);
    TrimEndShape(t);
    var r := TrimEnd(t);
    var lo := |s| - |t|;
    assert TrimmedAt(s, lo, r);
    assert r != [] ==> r[0] == t[0];
    assert r == [] ==> t == [];
    assert r != [] ==> r[0] == s[lo];
  }

  /** Trimming only cuts whitespace at both ends of `s`: the result is one of its slices, and starts and ends with non-blanks. */
  lemma TrimSlice(s: string)
    ensures |Trim(s)| <= |s|
    ensures Trim(s) != [] ==> !IsWhitespace(Trim(s)[0]) && !IsWhitespace(Trim(s)[|Trim(s)| - 1])
    ensures exists lo :: TrimmedAt(s, lo, Trim(s))
  {
    TrimShape(s);
  }

  /** Trimming twice trims nothing more. */
  lemma {:induction false} TrimIdempotent(s: string)
    ensures Trim(Trim(s)) == Trim(s)
  {
    var r := Trim(s);
    TrimShape(s);
    assert TrimStart(r) == r;
    assert TrimEnd(r) == r;
  }

  /** `s.trim() || null` (and `|| undefined`): the trimmed text, or nothing when it is empty. */
  function OrNull(s: string): (r: Option<string>)
    ensures r.None? <==> IsBlank(s)
    ensures r.Some? ==> r.value == Trim(s) && r.value != [] && |r.value| <= |s|
  {
    TrimShape(s);
    var t := Trim(s);
    if t == [] then None else Some(t)
  }

  /** A nullable text column as the editors write it: null, or trimmed text that is not empty. */
  predicate NormalText(t: Option<string>) {
    t.None? || (t.value != [] && Trim(t.value) == t.value)
  }

  /** Showing a normalised column as text (null as '') and normalising again gives the column back. */
  lemma {:induction false} OrNullOfNormalText(t: Option<string>)
    requires NormalText(t)
    ensures OrNull(t.GetOr("")) == t
  {
    if t.Some? {
      assert !IsBlank(t.value) by {
        assert Trim(t.value) != [];
      }
    } else {
      assert IsBlank("");
    }
  }

  /** `s.slice(0, n)`; the onChange handlers cap text fields with it. */
  function Cap(s: string, n: nat): (r: string)
    ensures |r| <= n && r <= s
    ensures |s| <= n ==> r == s
    ensures |s| > n ==> |r| == n
  {
    if |s| <= n then s else s[..n]
  }

  predicate IsDigit(c: char) {
    '0' <= c <= '9'
  }

  predicate AllDigits(s: string) {
    forall i :: 0 <= i < |s| ==> IsDigit(s[i])
  }

  /** Length of the longest prefix of decimal digits. */
  function DigitPrefix(s: string): (n: nat)
    ensures n <= |s| && AllDigits(s[..n])
    ensures n < |s| ==> !IsDigit(s[n])
  {
    if s != [] && IsDigit(s[0]) then
      var n := 1 + DigitPrefix(s[1..]);
      assert s[..n] == [s[0]] + s[1..][..n - 1];
      n
    else 0
  }

  /** The value of a string of decimal digits. */
  function DecimalValue(d: string): nat
    requires AllDigits(d)
  {
    if d == [] then 0
    else 10 * DecimalValue(d[..|d| - 1]) + ((d[|d| - 1] as int) - ('0' as int))
  }

  /**
   * `parseInt(s) || 0`: skip leading whitespace, read an optional sign and the longest
   * run of decimal digits; no digits (NaN), and zero, give 0.
   */
  function ParseIntOrZero(s: string): (r: int)
    ensures r < 0 ==> TrimStart(s) != [] && TrimStart(s)[0] == '-'
    ensures r != 0 ==> exists i :: 0 <= i < |s| && IsDigit(s[i])
  {
    TrimStartShape(s);
    var t := TrimStart(s);
    var signed := t != [] && (t[0] == '-' || t[0] == '+');
    var u := if signed then t[1..] else t;
    var n := DigitPrefix(u);
    var v: int := DecimalValue(u[..n]);
    assert v != 0 ==> n > 0 && IsDigit(s[|s| - |u|]);
    if n == 0 then 0 else if signed && t[0] == '-' then -v else v
  }

  /** Text with no decimal digit at all (for instance an empty field) is read as 0. */
  lemma NonNumericReadsAsZero(s: string)
    requires forall i :: 0 <= i < |s| ==> !IsDigit(s[i])
    ensures ParseIntOrZero(s) == 0
  {
  }

  function DigitChar(d: nat): (c: char)
    requires d < 10
    ensures IsDigit(c) && (c as int) - ('0' as int) == d
  {
    (('0' as int) + d) as char
  }

  /** Decimal printing of a natural number, as a template string shows it. */
  function NatToString(n: nat): (s: string)
    ensures s != [] && AllDigits(s)
  {
    if n < 10 then [DigitChar(n)] else NatToString(n / 10) + [DigitChar(n % 10)]
  }

  /** Decimal printing of an integer, with a leading '-' when negative. */
  function IntToString(i: int): string {
    if i < 0 then "-" + NatToString(-i) else NatToString(i)
  }

  /** Reading back a printed natural number gives the number. */
  lemma {:induction false} DecimalValueOfNatToString(n: nat)
    ensures DecimalValue(NatToString(n)) == n
  {
    var s := NatToString(n);
    if n >= 10 {
      assert s[..|s| - 1] == NatToString(n / 10);
      DecimalValueOfNatToString(n / 10);
    }
  }

  lemma {:induction false} DigitPrefixOfDigits(s: string)
    requires AllDigits(s)
    ensures DigitPrefix(s) == |s|
  {
    if s != [] {
      DigitPrefixOfDigits(s[1..]);
    }
  }

  /** `parseInt` reads a run of digits, signed or not, as its decimal value. */
  lemma ParseOfDigits(d: string, neg: bool)
    requires d != [] && AllDigits(d)
    ensures ParseIntOrZero(if neg then "-" + d else d) == if neg then -(DecimalValue(d) as int) else DecimalValue(d)
  {
    var s := if neg then "-" + d else d;
    assert !IsWhitespace(s[0]);
    assert TrimStart(s) == s;
    assert (if neg then s[1..] else s) == d;
    DigitPrefixOfDigits(d);
    assert d[..|d|] == d;
  }

  /** `parseInt` reads back exactly what `${i}` prints. */
  lemma ParseIntRoundTrip(i: int)
    ensures ParseIntOrZero(IntToString(i)) == i
  {
    var m: nat := if i < 0 then -i else i;
    ParseOfDigits(NatToString(m), i < 0);
    DecimalValueOfNatToString(m);
  }

  /** Different numbers print differently. */
  lemma IntToStringInjective(a: int, b: int)
    requires IntToString(a) == IntToString(b)
    ensures a == b
  {
    ParseIntRoundTrip(a);
    ParseIntRoundTrip(b);
  }
}
