/**
 * The default order number: `OR-` followed by a random integer between 10000
 * and 99999 inclusive. The random integer is a parameter.
 */
module OrderNumber {
  import opened Decimal

  const Prefix: string := "OR-"

  /** The shape of every default order number. */
  predicate IsOrderNumber(s: string) {
    |s| == 8 && s[..3] == Prefix && IsDigits(s[3..]) && s[3] != '0'
  }

  function DefaultOrderNumber(random: int): (number: string)
    requires 10000 <= random <= 99999
    ensures IsOrderNumber(number)
    ensures ParseDecimal(number[3..]) == random
  {
    assert Pow10(4) == 10000 by {
      assert Pow10(2) == 100;
    }
    ToDecimalLength(random, 5);
    ParseToDecimal(random);
    var number := Prefix + ToDecimal(random);
    assert number[3..] == ToDecimal(random);
    number
  }

  /** Distinct random draws give distinct order numbers. */
  lemma DefaultOrderNumberInjective(a: int, b: int)
    requires 10000 <= a <= 99999 && 10000 <= b <= 99999
    ensures DefaultOrderNumber(a) == DefaultOrderNumber(b) ==> a == b
  {
  }

  /** Every string of the order-number shape is the default for some draw. */
  lemma OrderNumberShapeIsReachable(s: string)
    requires IsOrderNumber(s)
    ensures exists random :: 10000 <= random <= 99999 && DefaultOrderNumber(random) == s
  {
    var digits := s[3..];
    ParseBounds(digits);
    ToDecimalParse(digits);
    var random := ParseDecimal(digits);
    assert s == Prefix + digits;
    assert DefaultOrderNumber(random) == s;
  }
}
