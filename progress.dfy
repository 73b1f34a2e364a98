/** The progress percentages the budget cards draw as bars. */
module Progress {
  /** `whole > 0 ? (part / whole) * 100 : 0`. */
  function Percent(part: real, whole: real): real {
    if whole > 0.0 then (part / whole) * 100.0 else 0.0
  }

  /** `Math.min(percentage, 100)`: the width of the bar, in percent. */
  function BarWidth(percentage: real): real {
    if percentage < 100.0 then percentage else 100.0
  }

  /**
   * Without a positive whole the percentage is 0; with one it passes 100
   * exactly when the part exceeds the whole, and it is never negative for a
   * part that is not. The bar never passes 100.
   */
  lemma PercentSpec(part: real, whole: real)
    ensures whole <= 0.0 ==> Percent(part, whole) == 0.0
    ensures whole > 0.0 ==> (Percent(part, whole) > 100.0 <==> part > whole)
    ensures whole > 0.0 ==> (Percent(part, whole) >= 0.0 <==> part >= 0.0)
    ensures BarWidth(Percent(part, whole)) <= 100.0
  {
    if whole > 0.0 {
      var q := part / whole;
      assert part == q * whole;
      if q > 1.0 {
        assert q * whole > 1.0 * whole;
      } else {
        assert q * whole <= 1.0 * whole;
      }
      if q < 0.0 {
        assert q * whole < 0.0;
      } else {
        assert q * whole >= 0.0;
      }
    }
  }
}
