/** Python's conversions between integers and text, `str(n)` and `int(s)`, and the loosely typed
    scalars (None, an int, a str) that the handlers compare through `str()` and test for
    truthiness. */
module PyInt {

  import opened Base
  import PyStr

  predicate IsDigit(c: char)
  {
    '0' <= c <= '9'
  }

  function DigitChar(d: nat): char
    requires d < 10
  {
    ('0' as int + d) as char
  }

  function DigitValue(c: char): nat
    requires IsDigit(c)
  {
    c as int - '0' as int
  }

  /** `str(n)` for a non-negative int: its decimal digits, most significant first. */
  function NatToString(n: nat): (s: string)
    decreases n
    ensures s != [] && forall i | 0 <= i < |s| :: IsDigit(s[i])
  {
    if n < 10 then [DigitChar(n)] else NatToString(n / 10) + [DigitChar(n % 10)]
  }

  /** `str(i)` for any int. */
  function IntToString(i: int): string
  {
    if i < 0 then "-" + NatToString(-i) else NatToString(i)
  }

  /** The digit part `int()` accepts: ASCII digits, where an underscore may stand between two
      digits. */
  predicate IsDigitRun(d: string)
  {
    && d != []
    && IsDigit(d[0])
    && IsDigit(d[|d| - 1])
    && forall i | 0 <= i < |d| :: IsDigit(d[i]) || (d[i] == '_' && i + 1 < |d| && IsDigit(d[i + 1]))
  }

  /** The value of a digit run, the underscores skipped. */
  function DigitsValue(d: string): nat
    decreases |d|
  {
    if d == [] then 0
    else if IsDigit(d[|d| - 1]) then DigitsValue(d[..|d| - 1]) * 10 + DigitValue(d[|d| - 1])
    else DigitsValue(d[..|d| - 1])
  }

  /** The number of digits of a digit run, the underscores not counted. */
  function DigitCount(d: string): nat
    decreases |d|
  {
    if d == [] then 0
    else if IsDigit(d[|d| - 1]) then DigitCount(d[..|d| - 1]) + 1
    else DigitCount(d[..|d| - 1])
  }

  /** `sys.get_int_max_str_digits()` by default: `int()` refuses a decimal text with more digits
      and `str()` an int that would need more. */
  const MaxStrDigits: nat := 4300

  /** `str(i)` does not exceed the digit limit. */
  predicate WithinStrDigits(i: int)
  {
    |NatToString(if i < 0 then -i else i)| <= MaxStrDigits
  }

  /** `int(s)` for a str: surrounding whitespace stripped, an optional sign, then a digit run of
      at most `MaxStrDigits` digits; None where Python raises ValueError. Whatever it returns can
      be written back with `str()` without reaching the limit. */
  function ParseInt(s: string): (r: Option<int>)
    ensures r.Some? ==> PyStr.Strip(s) != [] && WithinStrDigits(r.value)
  {
    ParseStripped(PyStr.Strip(s))
  }

  /** `int()` on the stripped text. */
  function ParseStripped(t: string): (r: Option<int>)
    ensures r.Some? ==> t != [] && WithinStrDigits(r.value)
  {
    if t != [] && (t[0] == '-' || t[0] == '+') then
      var run := t[1..];
      if IsDigitRun(run) && DigitCount(run) <= MaxStrDigits then
        var magnitude: int := DigitsValue(run);
        RunWithinStrDigits(run);
        Some(if t[0] == '-' then -magnitude else magnitude)
      else None
    else if IsDigitRun(t) && DigitCount(t) <= MaxStrDigits then
      RunWithinStrDigits(t);
      Some(DigitsValue(t))
    else None
  }

  function Pow10(k: nat): (p: nat)
    ensures p >= 1
  {
    if k == 0 then 1 else 10 * Pow10(k - 1)
  }

  /** A run of `k` digits denotes a number below `10^k`. */
  lemma {:induction false} DigitsValueBound(d: string)
    ensures DigitsValue(d) < Pow10(DigitCount(d))
    decreases |d|
  {
    if d != [] {
      var init := d[..|d| - 1];
      DigitsValueBound(init);
      if IsDigit(d[|d| - 1]) {
        var v := DigitsValue(init);
        var p := Pow10(DigitCount(init));
        assert v * 10 <= (p - 1) * 10;
      }
    }
  }

  /** A number below `10^k` has at most `k` decimal digits (and at least one). */
  lemma {:induction false} NatToStringLength(n: nat, k: nat)
    requires n < Pow10(k)
    ensures |NatToString(n)| <= if k == 0 then 1 else k
    decreases n
  {
    if n >= 10 {
      assert k >= 1;
      assert n / 10 < Pow10(k - 1);
      NatToStringLength(n / 10, k - 1);
    }
  }

  /** The value of a run within the limit is written back within the limit. */
  lemma RunWithinStrDigits(d: string)
    requires DigitCount(d) <= MaxStrDigits
    ensures WithinStrDigits(DigitsValue(d))
    ensures WithinStrDigits(-(DigitsValue(d) as int))
  {
    DigitsValueBound(d);
    NatToStringLength(DigitsValue(d), DigitCount(d));
  }

  /** Every character `str()` writes for a non-negative int is a digit, so it counts towards the
      limit. */
  lemma {:induction false} NatToStringDigitCount(n: nat)
    ensures DigitCount(NatToString(n)) == |NatToString(n)|
    decreases n
  {
    var s := NatToString(n);
    if n < 10 {
      assert s[..0] == [];
    } else {
      NatToStringDigitCount(n / 10);
      assert s[..|s| - 1] == NatToString(n / 10);
    }
  }

  lemma {:induction false} NatToStringValue(n: nat)
    ensures DigitsValue(NatToString(n)) == n
    decreases n
  {
    var s := NatToString(n);
    if n < 10 {
      assert s[..0] == [];
    } else {
      NatToStringValue(n / 10);
      assert s[..|s| - 1] == NatToString(n / 10);
    }
  }

  /** The decimal digits of a non-negative int form a digit run. */
  lemma NatToStringIsDigitRun(n: nat)
    ensures IsDigitRun(NatToString(n))
  {
  }

  /** `int(str(n)) == n` for a non-negative int within the digit limit. */
  lemma ParseNatRoundTrip(n: nat)
    requires WithinStrDigits(n)
    ensures ParseInt(NatToString(n)) == Some(n)
  {
    var d := NatToString(n);
    NatToStringValue(n);
    NatToStringIsDigitRun(n);
    NatToStringDigitCount(n);
    assert IsDigit(d[0]) && IsDigit(d[|d| - 1]);
    PyStr.StripTrimmed(d);
    assert ParseStripped(d) == Some(n);
  }

  /** `int(str(i)) == i` whenever `str(i)` stays within the digit limit: the decimal text the
      source writes is read back as the same int. */
  lemma ParseIntRoundTrip(i: int)
    requires WithinStrDigits(i)
    ensures ParseInt(IntToString(i)) == Some(i)
  {
    if i >= 0 {
      ParseNatRoundTrip(i);
    } else {
      var n: nat := -i;
      var d := NatToString(n);
      NatToStringValue(n);
      NatToStringIsDigitRun(n);
      NatToStringDigitCount(n);
      ParseNegative(d);
      assert IntToString(i) == "-" + d;
    }
  }

  /** A minus sign and a digit run within the limit read as the negated run. */
  lemma ParseNegative(d: string)
    requires IsDigitRun(d) && DigitCount(d) <= MaxStrDigits
    ensures ParseInt("-" + d) == Some(-(DigitsValue(d) as int))
  {
    var s := "-" + d;
    assert s[1..] == d && s[|s| - 1] == d[|d| - 1];
    PyStr.StripTrimmed(s);
  }


  /** str() is injective on ints. */
  lemma IntToStringInjective(a: int, b: int)
    requires IntToString(a) == IntToString(b)
    ensures a == b
  {
    var s := IntToString(a);
    var da := NatToString(if a < 0 then -a else a);
    var db := NatToString(if b < 0 then -b else b);
    assert (a < 0 <==> s[0] == '-') && (b < 0 <==> s[0] == '-') by {
      assert IsDigit(da[0]) && IsDigit(db[0]);
    }
    assert da == db by {
      if a < 0 {
        assert s[1..] == da && s[1..] == db;
      }
    }
    NatToStringValue(if a < 0 then -a else a);
    NatToStringValue(if b < 0 then -b else b);
  }

  /** A JSON/database scalar the source handles without a fixed type. */
  datatype Scalar = NoneValue | IntValue(i: int) | StrValue(s: string)

  /** `str(v)`. */
  function Str(v: Scalar): string
  {
    match v
    case NoneValue => "None"
    case IntValue(i) => IntToString(i)
    case StrValue(s) => s
  }

  /** Python truthiness: None, 0 and "" are falsy. */
  predicate IsTruthy(v: Scalar)
  {
    match v
    case NoneValue => false
    case IntValue(i) => i != 0
    case StrValue(s) => s != ""
  }
}
