/** What NUMERIC columns make of a value from outside. */
module Rounding {
  import opened Domain

  /** The nearest whole number of units, a half going away from zero. */
  lemma RoundedIsNearest(x: real, scale: real)
    requires scale > 0.0
    ensures var r := Rounded(x, scale) as real;
      if x >= 0.0 then -0.5 <= x * scale - r < 0.5 else -0.5 < x * scale - r <= 0.5
    ensures x >= 0.0 ==> Rounded(x, scale) >= 0
    ensures x <= 0.0 ==> Rounded(x, scale) <= 0
  {
    var y := x * scale;
    assert x >= 0.0 ==> y >= 0.0;
    assert x <= 0.0 ==> y <= 0.0;
    assert -x * scale == -y;
  }

  /** A price is stored in thousandths when it rounds above 1.000 and fits eight digits, and is refused otherwise. */
  lemma StoredOddsIs(odds: real)
    ensures StoredOdds(odds).Some? <==> 1.0005 <= odds < 99_999.9995
    ensures StoredOdds(odds).Some? ==>
      -0.5 <= odds * 1000.0 - StoredOdds(odds).value as real < 0.5 && 1000 < StoredOdds(odds).value < 100_000_000
  {
    RoundedIsNearest(odds, 1000.0);
  }

  /** A line is stored in hundredths when it fits six digits, and is refused otherwise. */
  lemma StoredLineIs(line: real)
    ensures StoredLine(line).Some? <==> -9_999.995 < line < 9_999.995
    ensures StoredLine(line).Some? ==> -0.5 <= line * 100.0 - StoredLine(line).value as real <= 0.5
  {
    RoundedIsNearest(line, 100.0);
  }
}
