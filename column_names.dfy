/** Column names: the decimal suffixes of indexed columns, how they are
    written (`f'{stem}_{i}'`) and how they are read back
    (`int(col.split('_')[-1])`). */
module ColumnNames {
  import opened Options

  predicate IsDigit(c: char) {
    '0' <= c <= '9'
  }

  function DigitValue(c: char): (d: nat)
    requires IsDigit(c)
    ensures d < 10
  {
    c as int - '0' as int
  }

  function DigitChar(d: nat): (c: char)
    requires d < 10
    ensures IsDigit(c) && DigitValue(c) == d
  {
    ('0' as int + d) as char
  }

  predicate AllDigits(s: string) {
    forall k | 0 <= k < |s| :: IsDigit(s[k])
  }

  /** The number a string of decimal digits denotes, most significant first. */
  function DigitsValue(s: string): nat
    requires AllDigits(s)
  {
    if s == [] then 0 else DigitsValue(s[..|s| - 1]) * 10 + DigitValue(s[|s| - 1])
  }

  /** `int(s)`, restricted to what can raise the running maximum: a non-empty
      string of ASCII digits (leading zeros allowed, as `int` allows them).
      Every other string is taken to raise `ValueError`. */
  function ParseIndex(s: string): Option<nat> {
    if s != [] && AllDigits(s) then Some(DigitsValue(s)) else None
  }

  /** The decimal text of `n`, as a Python f-string writes it: no sign, no
      leading zeros. */
  function NatToDecimal(n: nat): (s: string)
    ensures s != [] && AllDigits(s)
    ensures '_' !in s
    ensures |s| > 1 ==> s[0] != '0'
  {
    if n < 10 then [DigitChar(n)] else NatToDecimal(n / 10) + [DigitChar(n % 10)]
  }

  /** A digit string without superfluous leading zeros. */
  predicate Canonical(s: string) {
    s != [] && AllDigits(s) && (|s| > 1 ==> s[0] != '0')
  }

  /** Reading back what was written gives the number again. */
  lemma {:induction false} ParseDecimal(n: nat)
    ensures ParseIndex(NatToDecimal(n)) == Some(n)
  {
    DecimalValue(n);
  }

  lemma {:induction false} DecimalValue(n: nat)
    ensures DigitsValue(NatToDecimal(n)) == n
  {
    var s := NatToDecimal(n);
    if n >= 10 {
      DecimalValue(n / 10);
      assert s[..|s| - 1] == NatToDecimal(n / 10);
    }
  }

  lemma {:induction false} LeadingDigitPositive(s: string)
    requires Canonical(s) && s[0] != '0'
    ensures DigitsValue(s) > 0
  {
    if |s| > 1 {
      LeadingDigitPositive(s[..|s| - 1]);
    }
  }

  /** Writing back what was read gives the same text exactly when that text
      has no superfluous leading zeros: `int('07')` is 7, written `'7'`. */
  lemma {:induction false} DecimalOfCanonical(s: string)
    requires AllDigits(s) && s != []
    ensures NatToDecimal(DigitsValue(s)) == s <==> Canonical(s)
  {
    if Canonical(s) {
      if |s| > 1 {
        var p := s[..|s| - 1];
        LeadingDigitPositive(p);
        DecimalOfCanonical(p);
        var v := DigitsValue(s);
        assert v / 10 == DigitsValue(p) && v % 10 == DigitValue(s[|s| - 1]);
      }
    }
  }

  /** `s.split('_')[-1]`: the text after the final underscore, or all of `s`
      when it has none. */
  function LastSegment(s: string): (r: string)
    ensures '_' !in r
    ensures |r| <= |s| && r == s[|s| - |r|..]
    ensures |r| < |s| ==> s[|s| - |r| - 1] == '_'
  {
    if s == [] then []
    else if s[|s| - 1] == '_' then []
    else LastSegment(s[..|s| - 1]) + [s[|s| - 1]]
  }

  /** `f'{stem}_{i}'`: the column holding `stem` for repeat group `i`. */
  function IndexedName(stem: string, i: nat): string {
    stem + "_" + NatToDecimal(i)
  }

  /** The last segment of an indexed column name is its index, whatever the
      stem, even a stem with underscores of its own. */
  lemma IndexedNameSegment(stem: string, i: nat)
    ensures LastSegment(IndexedName(stem, i)) == NatToDecimal(i)
  {
    var s := IndexedName(stem, i);
    var d := NatToDecimal(i);
    var r := LastSegment(s);
    assert s[|s| - |d| - 1] == '_';
    assert d == s[|s| - |d|..];
  }

  /** Two indexed names of the same stem name the same column only for the
      same index. */
  lemma IndexedNameInjective(stem: string, i: nat, j: nat)
    requires IndexedName(stem, i) == IndexedName(stem, j)
    ensures i == j
  {
    IndexedNameSegment(stem, i);
    IndexedNameSegment(stem, j);
    DecimalValue(i);
    DecimalValue(j);
  }
}
