/**
 * The small pieces of the Kotlin/JVM string library that the app relies on:
 * decimal rendering of an `Int` (`toString`), `String.toIntOrNull`,
 * `Char.isDigit`, `Char.isWhitespace` / `String.isBlank`, lexicographic
 * `String.compareTo` and `CharSequence.contains(other, ignoreCase)`.
 * Digits are ASCII only; case folding covers Basic Latin, Latin-1 and
 * ı/İ, ğ/Ğ, ş/Ş (see README).
 */
module Text {
  import opened Wrappers

  /** Bounds of Kotlin's 32-bit `Int`. */
  const IntMin: int := -0x8000_0000
  const IntMax: int := 0x7FFF_FFFF

  predicate InIntRange(n: int) {
    IntMin <= n <= IntMax
  }

  // ---------------------------------------------------------------------
  // Digits and decimal numbers
  // ---------------------------------------------------------------------

  predicate IsDigit(c: char) {
    '0' <= c <= '9'
  }

  predicate AllDigits(s: string) {
    forall i :: 0 <= i < |s| ==> IsDigit(s[i])
  }

  function DigitChar(d: nat): (c: char)
    requires d < 10
    ensures IsDigit(c)
  {
    ('0' as int + d) as char
  }

  function DigitValue(c: char): (d: nat)
    requires IsDigit(c)
    ensures d < 10
  {
    c as int - '0' as int
  }

  /** Decimal rendering of a natural number, most significant digit first. */
  function NatToString(n: nat): (s: string)
    ensures |s| > 0 && AllDigits(s)
    decreases n
  {
    if n < 10 then [DigitChar(n)] else NatToString(n / 10) + [DigitChar(n % 10)]
  }

  /** Kotlin `Int.toString()`: a minus sign before negative values. */
  function IntToString(n: int): (s: string)
    ensures |s| > 0
    ensures n >= 0 ==> AllDigits(s)
    ensures n < 0 ==> s[0] == '-' && AllDigits(s[1..])
  {
    if n < 0 then "-" + NatToString(-n) else NatToString(n)
  }

  /** The value of a string of decimal digits. */
  function DecimalValue(s: string): nat
    requires AllDigits(s)
    decreases |s|
  {
    if s == [] then 0 else DecimalValue(s[..|s| - 1]) * 10 + DigitValue(s[|s| - 1])
  }

  lemma {:induction false} DecimalValueOfNatToString(n: nat)
    ensures DecimalValue(NatToString(n)) == n
    decreases n
  {
    var s := NatToString(n);
    if n >= 10 {
      DecimalValueOfNatToString(n / 10);
      assert s[..|s| - 1] == NatToString(n / 10);
    }
  }

  /**
   * Kotlin `String.toIntOrNull()`: an optional leading sign followed by at
   * least one digit, whose value fits in an `Int`; anything else is null.
   */
  function ToIntOrNull(s: string): (r: Option<int>)
    ensures r.Some? ==> InIntRange(r.value)
    ensures s == [] ==> r == None
  {
    if |s| == 0 then None
    else if s[0] == '-' || s[0] == '+' then
      if |s| == 1 || !AllDigits(s[1..]) then None
      else
        var v: int := if s[0] == '-' then -(DecimalValue(s[1..]) as int) else DecimalValue(s[1..]);
        if InIntRange(v) then Some(v) else None
    else if !AllDigits(s) then None
    else
      var v := DecimalValue(s);
      if v <= IntMax then Some(v) else None
  }

  /** A digit-only text parses to its decimal value exactly when that value fits an `Int`. */
  lemma DigitsParse(s: string)
    requires s != [] && AllDigits(s)
    ensures ToIntOrNull(s) == if DecimalValue(s) <= IntMax then Some(DecimalValue(s)) else None
  {
  }

  /** `toIntOrNull` inverts `toString` on every `Int`. */
  lemma {:induction false} ParseIntToString(n: int)
    requires InIntRange(n)
    ensures ToIntOrNull(IntToString(n)) == Some(n)
  {
    var s := IntToString(n);
    if n < 0 {
      DecimalValueOfNatToString(-n);
      assert s[1..] == NatToString(-n);
    } else {
      DecimalValueOfNatToString(n);
    }
  }

  // ---------------------------------------------------------------------
  // Whitespace
  // ---------------------------------------------------------------------

  /**
   * Kotlin `Char.isWhitespace()` on the JVM: `Character.isWhitespace` or
   * `Character.isSpaceChar` (the Unicode space, line and paragraph separators).
   */
  predicate IsWhitespace(c: char) {
    var k := c as int;
    (0x09 <= k <= 0x0D) || (0x1C <= k <= 0x20) || (0x2000 <= k <= 0x200A)
    || k == 0xA0 || k == 0x1680 || k == 0x2028 || k == 0x2029
    || k == 0x202F || k == 0x205F || k == 0x3000
  }

  /** Kotlin `isBlank()`: empty or whitespace only. */
  predicate IsBlank(s: string) {
    forall i :: 0 <= i < |s| ==> IsWhitespace(s[i])
  }

  // ---------------------------------------------------------------------
  // Character comparison and substring search
  // ---------------------------------------------------------------------

  /**
   * `Char.uppercaseChar()` on Basic Latin, Latin-1 and the Turkish letters
   * (dotless ı goes to I); every other character is left as it is, the micro
   * sign µ included, which Kotlin maps to the Greek capital Mu.
   */
  function UpperChar(c: char): char {
    var k := c as int;
    if 'a' <= c <= 'z' || (0xE0 <= k <= 0xFE && k != 0xF7) then (k - 32) as char
    else if k == 0xFF then 0x178 as char
    else if k == 0x11F || k == 0x15F then (k - 1) as char
    else if k == 0x131 then 'I'
    else c
  }

  /**
   * `Char.lowercaseChar()` on the same range (dotted İ goes to i).
   */
  function LowerChar(c: char): char {
    var k := c as int;
    if 'A' <= c <= 'Z' || (0xC0 <= k <= 0xDE && k != 0xD7) then (k + 32) as char
    else if k == 0x178 then 0xFF as char
    else if k == 0x11E || k == 0x15E then (k + 1) as char
    else if k == 0x130 then 'i'
    else c
  }

  /**
   * Kotlin `Char.equals(other, ignoreCase)`: equal, or, ignoring case, equal
   * upper cases or equal lower cases of the upper cases.
   */
  predicate CharEquals(a: char, b: char, ignoreCase: bool) {
    a == b ||
    (ignoreCase && (UpperChar(a) == UpperChar(b) || LowerChar(UpperChar(a)) == LowerChar(UpperChar(b))))
  }

  /** Ignoring case, i matches I, dotless ı and dotted İ; Ş matches ş. */
  lemma TurkishLettersIgnoreCase()
    ensures CharEquals('i', 'I', true) && CharEquals('ı', 'i', true) && CharEquals('İ', 'i', true)
    ensures CharEquals('Ş', 'ş', true)
    ensures !CharEquals('i', 'I', false)
  {
  }

  /** Two strings of equal length that agree character by character. */
  predicate RegionMatches(a: string, b: string, ignoreCase: bool) {
    |a| == |b| && forall j :: 0 <= j < |a| ==> CharEquals(a[j], b[j], ignoreCase)
  }

  /** `other` occurs in `s` starting at index `i`. */
  predicate OccursAt(s: string, other: string, i: int, ignoreCase: bool) {
    0 <= i <= |s| - |other| && RegionMatches(s[i..i + |other|], other, ignoreCase)
  }

  /** Kotlin `CharSequence.contains(other, ignoreCase)`: `other` occurs somewhere in `s`. */
  predicate Contains(s: string, other: string, ignoreCase: bool) {
    exists i | 0 <= i <= |s| - |other| :: OccursAt(s, other, i, ignoreCase)
  }

  /** Every string contains the empty string. */
  lemma ContainsEmpty(s: string, ignoreCase: bool)
    ensures Contains(s, "", ignoreCase)
  {
    assert OccursAt(s, "", 0, ignoreCase);
  }

  /** A string that starts with `other` contains it (exact comparison). */
  lemma ContainsPrefix(s: string, other: string, k: nat)
    requires k + |other| <= |s| && s[k..k + |other|] == other
    ensures Contains(s, other, false)
  {
    assert OccursAt(s, other, k, false);
  }

  /** A case-sensitive search for a text starting with `c` fails on a string without `c`. */
  lemma NotContainsWithoutFirstChar(s: string, other: string)
    requires |other| > 0 && other[0] !in s
    ensures !Contains(s, other, false)
  {
  }

  // ---------------------------------------------------------------------
  // Lexicographic order (Kotlin `String.compareTo`)
  // ---------------------------------------------------------------------

  /** `a.compareTo(b) <= 0`: a prefix comes first, otherwise the first differing character decides. */
  predicate LexLe(a: string, b: string)
    decreases |a|
  {
    |a| == 0 || (|b| > 0 && (a[0] < b[0] || (a[0] == b[0] && LexLe(a[1..], b[1..]))))
  }

  lemma {:induction false} LexLeTotal(a: string, b: string)
    ensures LexLe(a, b) || LexLe(b, a)
    decreases |a|
  {
    if |a| > 0 && |b| > 0 && a[0] == b[0] {
      LexLeTotal(a[1..], b[1..]);
    }
  }

  lemma {:induction false} LexLeTransitive(a: string, b: string, c: string)
    requires LexLe(a, b) && LexLe(b, c)
    ensures LexLe(a, c)
    decreases |a|
  {
    if |a| > 0 && a[0] == b[0] && b[0] == c[0] {
      LexLeTransitive(a[1..], b[1..], c[1..]);
    }
  }
}
