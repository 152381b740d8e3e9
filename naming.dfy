/** Device names `<tag>-id<ordinal>` (src/nn.py:215), with Python's
    decimal rendering of the ordinal written out. */
module Naming {

  function Digit(d: nat): (c: char)
    requires d < 10
    ensures '0' <= c <= '9'
  {
    ('0' as int + d) as char
  }

  function DigitValue(c: char): (d: nat)
    requires '0' <= c <= '9'
    ensures d < 10
  {
    c as int - '0' as int
  }

  predicate AllDigits(s: seq<char>) {
    forall i :: 0 <= i < |s| ==> '0' <= s[i] <= '9'
  }

  /** `str(n)` for a natural number: decimal digits, no leading zero. */
  function Decimal(n: nat): (s: seq<char>)
    ensures |s| >= 1 && AllDigits(s)
    ensures s[0] == '0' ==> n == 0
    decreases n
  {
    if n < 10 then [Digit(n)] else Decimal(n / 10) + [Digit(n % 10)]
  }

  /** Reads a string of decimal digits back as a number. */
  function ParseDecimal(s: seq<char>): nat
    requires AllDigits(s)
  {
    if s == [] then 0 else ParseDecimal(s[..|s| - 1]) * 10 + DigitValue(s[|s| - 1])
  }

  lemma {:induction false} DecimalRoundTrip(n: nat)
    ensures ParseDecimal(Decimal(n)) == n
    decreases n
  {
    if n >= 10 {
      var s := Decimal(n);
      assert s[..|s| - 1] == Decimal(n / 10);
      DecimalRoundTrip(n / 10);
    }
  }

  /** The name given to the `ordinal`-th device (counting from 1) of cluster `tag`. */
  function DeviceName(tag: string, ordinal: nat): (name: string)
    ensures |name| == |tag| + 3 + |Decimal(ordinal)|
    ensures name[..|tag| + 3] == tag + "-id"
    ensures name[|tag| + 3..] == Decimal(ordinal)
  {
    tag + "-id" + Decimal(ordinal)
  }

  /** Two devices of one cluster never share a name. */
  lemma DeviceNameInjective(tag: string, i: nat, j: nat)
    requires DeviceName(tag, i) == DeviceName(tag, j)
    ensures i == j
  {
    assert Decimal(i) == Decimal(j);
    DecimalRoundTrip(i);
    DecimalRoundTrip(j);
  }
}
