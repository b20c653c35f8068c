/**
 * Today's food and water logs and the five running totals the page shows:
 * calories, protein, carbs and fat over the food log, millilitres over the
 * water log. Each total is a left fold with `+` starting at 0, as `reduce`
 * computes it.
 */
module Nutrition {
  import opened Wrappers
  import JsNumber

  /**
   * A macro column as the store hands it back: SQL `null`, a number, or a
   * non-numeric artifact such as a string.
   */
  datatype FieldValue = Null | Number(value: real) | Text(text: string)

  datatype FoodLog = FoodLog(
    id: string,
    createdAt: string,
    foodName: string,
    calories: FieldValue,
    protein: FieldValue,
    carbs: FieldValue,
    fat: FieldValue,
    mealTime: string)

  datatype WaterLog = WaterLog(id: string, createdAt: string, amountMl: int)

  datatype Macro = Calories | Protein | Carbs | Fat

  function Field(log: FoodLog, m: Macro): FieldValue {
    match m
    case Calories => log.calories
    case Protein => log.protein
    case Carbs => log.carbs
    case Fat => log.fat
  }

  /** `x || 0` on a `parseFloat` result: `NaN` and 0 give 0, any other number itself. */
  function OrZero(x: Option<real>): real {
    x.GetOr(0.0)
  }

  /**
   * The fields `parseFloat(String(v)) || 0` reads as 0: `null`, the number 0,
   * and text that parses to `NaN` ("abc", "abc1", "e5") or to 0.
   */
  predicate ReadsAsZero(v: FieldValue) {
    || v.Null?
    || v == Number(0.0)
    || (v.Text? && JsNumber.ParseFloat(v.text) in {None, Some(0.0)})
  }

  /**
   * `parseFloat(String(v)) || 0`. `String(null)` is "null", which has no digit
   * and so parses to `NaN`; for a number, `String` and `parseFloat` round-trip.
   */
  function Contribution(v: FieldValue): (r: real)
    ensures v.Null? ==> r == 0.0
    ensures v.Number? ==> r == v.value
    ensures v.Text? && !JsNumber.HasDigit(v.text) ==> r == 0.0
    ensures r == 0.0 <==> ReadsAsZero(v)
  {
    match v
    case Null => OrZero(JsNumber.ParseFloat("null"))
    case Number(x) => x
    case Text(t) => OrZero(JsNumber.ParseFloat(t))
  }

  /** `foodLogs.reduce((sum, log) => sum + (parseFloat(String(log.m)) || 0), 0)`. */
  function MacroTotal(logs: seq<FoodLog>, m: Macro): real {
    if logs == [] then 0.0
    else MacroTotal(logs[..|logs| - 1], m) + Contribution(Field(logs[|logs| - 1], m))
  }

  /** `waterLogs.reduce((sum, log) => sum + log.amount_ml, 0)`. */
  function WaterTotal(logs: seq<WaterLog>): int {
    if logs == [] then 0
    else WaterTotal(logs[..|logs| - 1]) + logs[|logs| - 1].amountMl
  }

  lemma MacroTotalEmpty(m: Macro)
    ensures MacroTotal([], m) == 0.0
  {
  }

  /** Logging one more food raises each total by that entry's contribution. */
  lemma MacroTotalAppend(logs: seq<FoodLog>, e: FoodLog, m: Macro)
    ensures MacroTotal(logs + [e], m) == MacroTotal(logs, m) + Contribution(Field(e, m))
  {
    assert (logs + [e])[..|logs|] == logs;
  }

  /** A total does not depend on how the log is split. */
  lemma {:induction false} MacroTotalSplit(a: seq<FoodLog>, b: seq<FoodLog>, m: Macro)
    ensures MacroTotal(a + b, m) == MacroTotal(a, m) + MacroTotal(b, m)
    decreases |b|
  {
    if b == [] {
      assert a + b == a;
    } else {
      var b' := b[..|b| - 1];
      var x := b[|b| - 1];
      assert b == b' + [x];
      assert a + b == (a + b') + [x];
      MacroTotalSplit(a, b', m);
      MacroTotalAppend(a + b', x, m);
      MacroTotalAppend(b', x, m);
    }
  }

  /** A total does not depend on the order of the log (the store sorts it newest first). */
  lemma {:induction false} MacroTotalPermutation(a: seq<FoodLog>, b: seq<FoodLog>, m: Macro)
    requires multiset(a) == multiset(b)
    ensures MacroTotal(a, m) == MacroTotal(b, m)
    decreases |a|
  {
    if a == [] {
      assert |b| == |multiset(b)| == 0;
    } else {
      var n := |a| - 1;
      var x := a[n];
      assert a == a[..n] + [x];
      assert x in multiset(b) by { assert x in multiset(a); }
      var i :| 0 <= i < |b| && b[i] == x;
      var rest := b[..i] + b[i + 1..];
      assert b == (b[..i] + [x]) + b[i + 1..];
      assert multiset(a[..n]) == multiset(rest) by {
        assert multiset(a) == multiset(a[..n]) + multiset{x};
        assert multiset(b) == multiset(b[..i]) + multiset{x} + multiset(b[i + 1..]);
        assert multiset(rest) == multiset(b[..i]) + multiset(b[i + 1..]);
        assert multiset(a[..n]) + multiset{x} == multiset(rest) + multiset{x};
        assert multiset(a[..n]) == multiset(a[..n]) + multiset{x} - multiset{x};
      }
      MacroTotalPermutation(a[..n], rest, m);
      MacroTotalSplit(b[..i], b[i + 1..], m);
      MacroTotalSplit(b[..i] + [x], b[i + 1..], m);
      MacroTotalAppend(b[..i], x, m);
      MacroTotalAppend(a[..n], x, m);
    }
  }

  /** An entry whose field is `null`, 0 or non-numeric leaves that total as it was. */
  lemma MacroTotalIgnoresBlank(logs: seq<FoodLog>, e: FoodLog, m: Macro)
    requires ReadsAsZero(Field(e, m))
    ensures MacroTotal(logs + [e], m) == MacroTotal(logs, m)
  {
    MacroTotalAppend(logs, e, m);
  }

  /** A log with only numeric fields totals the sum of those numbers. */
  lemma {:induction false} MacroTotalOfNumbers(logs: seq<FoodLog>, m: Macro)
    requires forall i :: 0 <= i < |logs| ==> Field(logs[i], m).Number?
    ensures MacroTotal(logs, m) == SumNumbers(logs, m)
  {
    if logs != [] {
      MacroTotalOfNumbers(logs[1..], m);
      assert logs == [logs[0]] + logs[1..];
      MacroTotalSplit([logs[0]], logs[1..], m);
      MacroTotalAppend([], logs[0], m);
    }
  }

  /** The plain sum of a numeric field, taken front to back; the reference for MacroTotal. */
  function SumNumbers(logs: seq<FoodLog>, m: Macro): real
    requires forall i :: 0 <= i < |logs| ==> Field(logs[i], m).Number?
  {
    if logs == [] then 0.0 else Field(logs[0], m).value + SumNumbers(logs[1..], m)
  }

  lemma WaterTotalEmpty()
    ensures WaterTotal([]) == 0
  {
  }

  /** Logging `a` ml (the quick-add buttons use 250, 500 or 1000) raises the total by exactly `a`. */
  lemma WaterTotalAppend(logs: seq<WaterLog>, w: WaterLog)
    ensures WaterTotal(logs + [w]) == WaterTotal(logs) + w.amountMl
  {
    assert (logs + [w])[..|logs|] == logs;
  }

  lemma {:induction false} WaterTotalSplit(a: seq<WaterLog>, b: seq<WaterLog>)
    ensures WaterTotal(a + b) == WaterTotal(a) + WaterTotal(b)
    decreases |b|
  {
    if b == [] {
      assert a + b == a;
    } else {
      var b' := b[..|b| - 1];
      var x := b[|b| - 1];
      assert b == b' + [x];
      assert a + b == (a + b') + [x];
      WaterTotalSplit(a, b');
      WaterTotalAppend(a + b', x);
      WaterTotalAppend(b', x);
    }
  }

  lemma {:induction false} WaterTotalPermutation(a: seq<WaterLog>, b: seq<WaterLog>)
    requires multiset(a) == multiset(b)
    ensures WaterTotal(a) == WaterTotal(b)
    decreases |a|
  {
    if a == [] {
      assert |b| == |multiset(b)| == 0;
    } else {
      var n := |a| - 1;
      var x := a[n];
      assert a == a[..n] + [x];
      assert x in multiset(b) by { assert x in multiset(a); }
      var i :| 0 <= i < |b| && b[i] == x;
      var rest := b[..i] + b[i + 1..];
      assert b == (b[..i] + [x]) + b[i + 1..];
      assert multiset(a[..n]) == multiset(rest) by {
        assert multiset(a) == multiset(a[..n]) + multiset{x};
        assert multiset(b) == multiset(b[..i]) + multiset{x} + multiset(b[i + 1..]);
        assert multiset(rest) == multiset(b[..i]) + multiset(b[i + 1..]);
        assert multiset(a[..n]) + multiset{x} == multiset(rest) + multiset{x};
        assert multiset(a[..n]) == multiset(a[..n]) + multiset{x} - multiset{x};
      }
      WaterTotalPermutation(a[..n], rest);
      WaterTotalSplit(b[..i], b[i + 1..]);
      WaterTotalSplit(b[..i] + [x], b[i + 1..]);
      WaterTotalAppend(b[..i], x);
      WaterTotalAppend(a[..n], x);
    }
  }

  /** The five totals the stats cards show, recomputed from the current logs. */
  datatype DailyTotals = DailyTotals(calories: real, protein: real, carbs: real, fat: real, waterMl: int)

  function Totals(food: seq<FoodLog>, water: seq<WaterLog>): DailyTotals {
    DailyTotals(
      MacroTotal(food, Calories), MacroTotal(food, Protein),
      MacroTotal(food, Carbs), MacroTotal(food, Fat),
      WaterTotal(water))
  }

  function MacroOf(t: DailyTotals, m: Macro): real {
    match m
    case Calories => t.calories
    case Protein => t.protein
    case Carbs => t.carbs
    case Fat => t.fat
  }

  /** Empty logs give all-zero totals. */
  lemma TotalsEmpty()
    ensures Totals([], []) == DailyTotals(0.0, 0.0, 0.0, 0.0, 0)
  {
  }

  /** Adding a food entry moves each macro total by its contribution and leaves water alone. */
  lemma TotalsAfterFood(food: seq<FoodLog>, water: seq<WaterLog>, e: FoodLog, m: Macro)
    ensures MacroOf(Totals(food + [e], water), m) == MacroOf(Totals(food, water), m) + Contribution(Field(e, m))
    ensures Totals(food + [e], water).waterMl == Totals(food, water).waterMl
  {
    MacroTotalAppend(food, e, m);
    assert MacroOf(Totals(food + [e], water), m) == MacroTotal(food + [e], m);
    assert MacroOf(Totals(food, water), m) == MacroTotal(food, m);
  }

  /** Adding a water entry moves only the water total, by its amount. */
  lemma TotalsAfterWater(food: seq<FoodLog>, water: seq<WaterLog>, w: WaterLog)
    ensures Totals(food, water + [w]).waterMl == Totals(food, water).waterMl + w.amountMl
    ensures forall m :: MacroOf(Totals(food, water + [w]), m) == MacroOf(Totals(food, water), m)
  {
    WaterTotalAppend(water, w);
  }

  /** Two entries {calories: 500, protein: 20} and {calories: 700} total 1200 kcal and 20 g protein. */
  lemma TwoMealsScenario(a: FoodLog, b: FoodLog)
    requires a.calories == Number(500.0) && a.protein == Number(20.0)
    requires b.calories == Number(700.0) && b.protein == Null
    ensures MacroTotal([a, b], Calories) == 1200.0
    ensures MacroTotal([a, b], Protein) == 20.0
  {
    assert [a, b] == ([] + [a]) + [b];
    MacroTotalAppend([], a, Calories);
    MacroTotalAppend([a], b, Calories);
    MacroTotalAppend([], a, Protein);
    MacroTotalAppend([a], b, Protein);
  }
}
