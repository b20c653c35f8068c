/**
 * The hydration card: the percentage printed next to "Target: 2L" and the
 * width of the progress bar, both taken from the same ratio against a
 * 2000 ml target. The printed value is not clamped; the bar is capped at 100
 * by `Math.min` and has no lower clamp.
 */
module WaterProgress {
  import Nutrition

  const WaterTargetMl: int := 2000

  /** `(todayWater / 2000) * 100`. */
  function WaterPercent(todayWater: int): (p: real)
    ensures p * WaterTargetMl as real == 100.0 * todayWater as real
  {
    (todayWater as real / WaterTargetMl as real) * 100.0
  }

  /** `Math.min(a, b)` on numbers other than `NaN`. */
  function MathMin(a: real, b: real): (r: real)
    ensures r <= a && r <= b && (r == a || r == b)
  {
    if a <= b then a else b
  }

  /** `Math.min((todayWater / 2000) * 100, 100)`. */
  function WaterBarWidth(todayWater: int): (w: real)
    ensures w <= 100.0
    ensures w == WaterPercent(todayWater) <==> todayWater <= WaterTargetMl
    ensures todayWater > WaterTargetMl ==> WaterPercent(todayWater) > 100.0 && w == 100.0
  {
    MathMin(WaterPercent(todayWater), 100.0)
  }

  /** More water never shows a smaller percentage or a narrower bar. */
  lemma ProgressMonotonic(a: int, b: int)
    requires a <= b
    ensures WaterPercent(a) <= WaterPercent(b)
    ensures WaterBarWidth(a) <= WaterBarWidth(b)
  {
  }

  /** The target itself is exactly 100% and a full bar. */
  lemma TargetIsFull()
    ensures WaterPercent(WaterTargetMl) == 100.0 && WaterBarWidth(WaterTargetMl) == 100.0
  {
  }

  /** One more water entry of `a` ml adds `a / 20` percentage points to the printed value. */
  lemma PercentAfterWater(logs: seq<Nutrition.WaterLog>, w: Nutrition.WaterLog)
    ensures WaterPercent(Nutrition.WaterTotal(logs + [w]))
            == WaterPercent(Nutrition.WaterTotal(logs)) + w.amountMl as real / 20.0
  {
    Nutrition.WaterTotalAppend(logs, w);
  }

  /** Quick-adding 250, 500 and 1000 ml gives 1750 ml, shown as 87.5% with the bar at 87.5. */
  lemma QuickAddScenario(a: Nutrition.WaterLog, b: Nutrition.WaterLog, c: Nutrition.WaterLog)
    requires a.amountMl == 250 && b.amountMl == 500 && c.amountMl == 1000
    ensures Nutrition.WaterTotal([a, b, c]) == 1750
    ensures WaterPercent(1750) == 87.5 && WaterBarWidth(1750) == 87.5
  {
    var one: seq<Nutrition.WaterLog> := [a];
    var two := one + [b];
    assert two + [c] == [a, b, c];
    assert Nutrition.WaterTotal(one) == 250 by {
      Nutrition.WaterTotalAppend([], a);
      assert [] + [a] == one;
    }
    Nutrition.WaterTotalAppend(one, b);
    Nutrition.WaterTotalAppend(two, c);
  }
}
