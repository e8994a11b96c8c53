/**
 What `int()` makes of the numerals Python prints: reading back `str(n)` gives
 `n`, which is what lets `path` index a list with a numeral segment.
 */
module Numerals {
  import Py
  import Text

  /** A string of digits is read as its decimal value. */
  lemma DigitsParse(digits: string)
    requires digits != [] && Text.AllDigits(digits)
    ensures Text.DigitGroups(digits)
    ensures Py.GroupsValue(digits) == Text.DigitsValue(digits)
  {
    Text.RemoveUnderscoresOfDigits(digits);
  }

  /** A string with nothing to strip is read as it stands. */
  lemma PyIntUnpadded(s: string)
    requires s != [] && !Text.IsSpace(s[0]) && !Text.IsSpace(s[|s| - 1])
    ensures Py.PyInt(s) == Py.SignedDigits(s)
  {
    Text.StripUnpadded(s);
  }

  /** Unsigned digits read as their decimal value `v`. */
  lemma SignedDigitsPlain(digits: string, v: nat)
    requires digits != [] && Text.AllDigits(digits) && v == Text.DigitsValue(digits)
    ensures Py.SignedDigits(digits) == Py.Ok(v)
  {
    DigitsParse(digits);
    assert digits[0] != '+' && digits[0] != '-';
  }

  /** A minus sign followed by digit groups reads as the negated value. */
  lemma SignedDigitsNegative(d: string)
    requires Text.DigitGroups(d)
    ensures Py.SignedDigits("-" + d) == Py.Ok(-(Py.GroupsValue(d) as int))
  {
    var t := "-" + d;
    assert t[1..] == d;
    assert t[0] == '-';
  }

  /** `int()` of a plain digit string is its decimal value `v`. */
  lemma PyIntDigits(digits: string, v: nat)
    requires digits != [] && Text.AllDigits(digits) && v == Text.DigitsValue(digits)
    ensures Py.PyInt(digits) == Py.Ok(v)
  {
    Text.DigitNotSpace(digits[0]);
    Text.DigitNotSpace(digits[|digits| - 1]);
    PyIntUnpadded(digits);
    SignedDigitsPlain(digits, v);
  }

  /** `int()` of a minus sign and digit groups of value `v` is `-v`. */
  lemma PyIntNegativeGroups(digits: string, v: nat)
    requires digits != [] && Text.IsDigit(digits[|digits| - 1])
    requires Text.DigitGroups(digits) && v == Py.GroupsValue(digits)
    ensures Py.PyInt("-" + digits) == Py.Ok(-(v as int))
  {
    var s := "-" + digits;
    assert s[0] == '-' && s[|s| - 1] == digits[|digits| - 1];
    assert !Text.IsSpace('-');
    Text.DigitNotSpace(digits[|digits| - 1]);
    Text.StripUnpadded(s);
    SignedDigitsNegative(digits);
  }

  /** `int()` of a minus sign and a digit string of value `v` is `-v`. */
  lemma PyIntNegative(digits: string, v: nat)
    requires digits != [] && Text.AllDigits(digits) && v == Text.DigitsValue(digits)
    ensures Py.PyInt("-" + digits) == Py.Ok(-(v as int))
  {
    DigitsParse(digits);
    PyIntNegativeGroups(digits, v);
  }

  /** What `int()` makes of an unpadded digit string of value `v` with an optional leading minus. */
  lemma PyIntSigned(digits: string, negative: bool, v: nat)
    requires digits != [] && Text.AllDigits(digits) && v == Text.DigitsValue(digits)
    ensures Py.PyInt(if negative then "-" + digits else digits) == Py.Ok(if negative then -(v as int) else v)
  {
    if negative {
      PyIntNegative(digits, v);
    } else {
      PyIntDigits(digits, v);
    }
  }

  /** `int(str(n)) == n` */
  lemma PyIntOfString(n: int)
    ensures Py.PyInt(Text.IntToString(n)) == Py.Ok(n)
  {
    var m: nat := if n < 0 then -n else n;
    Text.NatToStringValue(m);
    PyIntSigned(Text.NatToString(m), n < 0, m);
  }
}
