# Food tracker page: daily totals, water progress, add-food form and water reminder

This project models the logic inside the food-and-water tracker's single
page, `app/page.tsx`, and proves properties of it in Dafny:

- **Daily totals.** Four folds over today's food log (calories, protein,
  carbs, fat) and one over today's water log. A food entry's macro field is
  read through `parseFloat(String(x)) || 0`, so `null` and non-numeric values
  count as 0.
- **Water progress.** The printed percentage `todayWater / 2000 * 100` is
  not clamped. The bar width is `Math.min` of that and 100.
- **The add-food form.** It holds field edits and the "name must not be
  blank" check (`trim`). Each macro is coerced by `parseFloat(v) || null`
  into the insert payload. After a successful insert the form goes back to
  its initial value.
- **`getMealEmoji`.** The four meal slots each have an emoji. Any other name
  that is not a property of `Object.prototype` gets the plate. For inherited
  names such as "toString", the page's lookup gives back the inherited member.
  The model keeps that as-written lookup and uses a corrected lookup of the
  table's own entries (see "## Findings").
- **The water reminder.** It has a `reminderEnabled` flag, a toggle button
  and `enableReminder` with its three outcomes. An effect keeps one
  two-hour interval alive while the flag is on. Where a `Notification`
  global exists, a tick shows a notification when permission is granted and
  an alert otherwise. Without that global the page's tick throws a
  ReferenceError. The scheduler class fires the corrected callback, which
  alerts in that case (see "## Findings").

The JavaScript built-ins the page depends on are modelled as well: the
ECMAScript white-space class, `String.prototype.trim`, and `parseFloat`. For
`parseFloat` the model covers leading white space, an optional sign, digits
with an optional fraction, and an optional exponent. It reads the longest
numeric prefix and returns `NaN` when there is none. `NaN` and `null` are
modelled as `None`.

Files: `wrappers.dfy` (Option), `js_string.dfy`, `js_number.dfy`,
`parse_float_laws.dfy` (what `parseFloat` gives on the page's inputs),
`nutrition.dfy` (the logs and the totals), `water_progress.dfy`, `meals.dfy`,
`food_form.dfy`, `reminder.dfy`.

Facts about the page that the model keeps as they are:

- The page clamps the bar only from above. A negative water total gives a
  negative width.
- A `denied` or `default` answer to `requestPermission` leaves the reminder
  off without any alert or other failure signal.
- The page has no low/ok/over status tiers and no micronutrient fields.

## Model

| member | source | states |
|---|---|---|
| `JsString.TrimStart` | app/page.tsx:125 | the result is a suffix of the input; what was removed is all white space, and the result is empty or starts with a non-space |
| `JsString.TrimEnd` | app/page.tsx:125 | the result is a prefix of the input; what was removed is all white space, and the result is empty or ends with a non-space |
| `JsString.Trim` | app/page.tsx:125 | `s.trim()`, composed of TrimStart and TrimEnd; no contract of its own, laws in TrimEmptyIffAllSpace and TrimHasNoOuterSpace |
| `JsString.TrimEmptyIffAllSpace` | app/page.tsx:125 | `s.trim()` is empty exactly when every character of `s` is ECMAScript white space |
| `JsString.TrimHasNoOuterSpace` | app/page.tsx:125 | a non-empty trimmed string neither starts nor ends with white space |
| `JsNumber.ParseFloat` | app/page.tsx:136-139 | `parseFloat` gives a number only for a string that contains a digit; "", "null" and "abc" give `NaN` |
| `ParseFloatLaws.ParseFloatNatToDecimal` | app/page.tsx:228-231 | `parseFloat(String(n))` gives back `n` for every natural `n` |
| `JsNumber.ScaleUp` | app/page.tsx:136-139 | scaling by a non-negative exponent `n` multiplies by 10^n |
| `JsNumber.ScaleDown` | app/page.tsx:136-139 | scaling by a negative exponent `-n` divides by 10^n |
| `JsNumber.FractionValue` | app/page.tsx:136-139 | the digits after a point are worth their value over 10 to the number of digits |
| `ParseFloatLaws.ParseFloatDecimal` | app/page.tsx:136-139 | `parseFloat` of digits `a`, a point and digits `b` (as in "12.5" or "3.") is the value of `a` plus the value of `b` over ten to the number of digits in `b`, for every such string |
| `ParseFloatLaws.ParseFloatExponent` | app/page.tsx:136-139 | `parseFloat` of digits, `e` and digits (as in "1e3") is the digits scaled by ten to the exponent, which ScaleUp shows is a multiplication by 10^e |
| `ParseFloatLaws.ParseFloatNegative` | app/page.tsx:136-139 | a leading minus sign before a digit negates the value, and `NaN` stays `NaN` |
| `ParseFloatLaws.ParseFloatZero` | app/page.tsx:136-139 | `parseFloat("0")` is the number 0, not `NaN` |
| `Nutrition.Contribution` | app/page.tsx:228-231 | reading a field through `parseFloat(String(x))` with the falsy-to-0 fallback gives the value itself for a number. It gives 0 exactly for `null`, the number 0, and text that parses to `NaN` or 0 ("", "abc", "abc1", "e5"). Digit-free text always gives 0 |
| `Nutrition.MacroTotal` | app/page.tsx:228-231 | the left fold of `reduce` over the food log with `+` from 0, reading each field through Contribution; no contract of its own, laws in MacroTotalEmpty, MacroTotalAppend, MacroTotalSplit, MacroTotalPermutation and MacroTotalOfNumbers |
| `Nutrition.MacroTotalEmpty` | app/page.tsx:228-231 | an empty food log totals 0 for every macro |
| `Nutrition.MacroTotalAppend` | app/page.tsx:228-231 | one more food entry raises a macro total by exactly that entry's contribution |
| `Nutrition.MacroTotalSplit` | app/page.tsx:228-231 | the total of `a + b` is the total of `a` plus the total of `b` |
| `Nutrition.MacroTotalPermutation` | app/page.tsx:228-231 | logs with the same entries in any order have the same macro totals |
| `Nutrition.MacroTotalIgnoresBlank` | app/page.tsx:228-231 | an entry whose field is `null`, the number 0, or text that parses to `NaN` or 0 leaves that total unchanged |
| `Nutrition.MacroTotalOfNumbers` | app/page.tsx:228-231 | when every field is numeric, the fold equals the plain front-to-back sum of the numbers |
| `Nutrition.WaterTotal` | app/page.tsx:232 | the left fold of `reduce` over the water log, adding `amount_ml` from 0; no contract of its own, laws in WaterTotalEmpty, WaterTotalAppend, WaterTotalSplit and WaterTotalPermutation |
| `Nutrition.WaterTotalEmpty` | app/page.tsx:232 | an empty water log totals 0 ml |
| `Nutrition.WaterTotalAppend` | app/page.tsx:232 | logging `a` ml (250, 500 or 1000 from the quick-add buttons) raises the water total by exactly `a` |
| `Nutrition.WaterTotalSplit` | app/page.tsx:232 | the water total of `a + b` is the sum of the two totals |
| `Nutrition.WaterTotalPermutation` | app/page.tsx:232 | the water total does not depend on the order of the log |
| `Nutrition.Totals` | app/page.tsx:228-232 | the five totals together; no contract of its own, laws in TotalsEmpty, TotalsAfterFood and TotalsAfterWater |
| `Nutrition.TotalsEmpty` | app/page.tsx:228-232 | empty logs give all five totals zero |
| `Nutrition.TotalsAfterFood` | app/page.tsx:228-232 | a new food entry moves each macro total by its contribution and leaves the water total as it was |
| `Nutrition.TotalsAfterWater` | app/page.tsx:228-232 | a new water entry moves only the water total, by its amount |
| `Nutrition.TwoMealsScenario` | app/page.tsx:228-229 | entries {500 kcal, 20 g protein} and {700 kcal, null protein} total 1200 kcal and 20 g |
| `WaterProgress.WaterPercent` | app/page.tsx:481 | the printed percentage is 100 times the ratio of the total to 2000 ml, unclamped |
| `WaterProgress.MathMin` | app/page.tsx:486 | `Math.min` returns one of its arguments and is at most both |
| `WaterProgress.WaterBarWidth` | app/page.tsx:481-486 | the bar is at most 100. It equals the printed percentage iff the total is at most 2000 ml. Above 2000 ml the percentage exceeds 100 and the bar is exactly 100 |
| `WaterProgress.ProgressMonotonic` | app/page.tsx:481-486 | more water never shows a lower percentage or a narrower bar |
| `WaterProgress.TargetIsFull` | app/page.tsx:481-486 | 2000 ml shows 100% and a full bar |
| `WaterProgress.PercentAfterWater` | app/page.tsx:232 | logging `a` ml adds `a / 20` points to the printed percentage |
| `WaterProgress.QuickAddScenario` | app/page.tsx:458-486 | quick-adding 250, 500 and 1000 ml gives 1750 ml, shown as 87.5% with the bar at 87.5 |
| `Meals.GetMealEmoji` | app/page.tsx:239-247 | every name gets a non-empty emoji: a slot's own emoji for the four slots, the plate for every other name |
| `Meals.MealEmojisDistinct` | app/page.tsx:240-245 | the four slot emojis differ from each other and from the default |
| `Meals.DefaultIffUnknown` | app/page.tsx:246 | the plate shows exactly for names outside the four slots |
| `Meals.EmojiTableLookup` | app/page.tsx:240-246 | `emojis[meal]` on an object literal: an own entry, an inherited `Object.prototype` member, or `undefined`; no contract of its own, used by GetMealEmojiAsWritten |
| `Meals.GetMealEmojiAsWritten` | app/page.tsx:239-247 | as written, a name inherited from `Object.prototype` yields that inherited member |
| `Meals.AsWrittenNotDefaultForToString` | app/page.tsx:246 | as written, the slot "toString" does not show the plate, though GetMealEmoji gives it the plate |
| `Meals.AsWrittenAgreesElsewhere` | app/page.tsx:239-247 | apart from the prototype's member names, the page's lookup agrees with GetMealEmoji |
| `FoodForm.With` | app/page.tsx:348-383 | `{ ...foodForm, [field]: value }` sets that field and keeps every other field |
| `FoodForm.WithMacro` | app/page.tsx:356-377 | setting one macro input keeps the other macro inputs, the name and the meal slot |
| `FoodForm.NameIsBlank` | app/page.tsx:125 | `!foodForm.foodName.trim()`; no contract of its own, law in NameIsBlankIffAllSpace |
| `FoodForm.NameIsBlankIffAllSpace` | app/page.tsx:125-128 | a name is refused exactly when it is white space only (the empty name included) |
| `FoodForm.Coerce` | app/page.tsx:136-139 | coercing with `parseFloat(v)` and the falsy-to-`null` fallback gives `null` iff `parseFloat` gives `NaN` or 0. Otherwise it is the parsed value, which is nonzero |
| `FoodForm.CoerceBlankAndZero` | app/page.tsx:136-139 | "", "0" and any input with no digit are stored as `null` |
| `FoodForm.CoerceNatural` | app/page.tsx:136-139 | a typed natural number is stored as itself, except 0, which is stored as `null` |
| `FoodForm.Payload` | app/page.tsx:133-141 | the payload carries the form's name and meal slot, and each macro coerced from its input |
| `FoodForm.PayloadMacrosNullOrNonzero` | app/page.tsx:136-139 | every stored macro is `null` or a nonzero number |
| `FoodForm.StoredRow` | app/page.tsx:8-17 | the row kept for a payload has the payload's name and meal slot, and the id and time the store assigns. Each macro column is `null` where the payload has `null`, and the number otherwise (under the store assumption in "## Left out") |
| `FoodForm.CoercionKeepsContribution` | app/page.tsx:136-139 | a coerced-and-stored field adds to the totals exactly what `parseFloat` made of the input, or 0 |
| `FoodForm.AddedFoodRaisesTotals` | app/page.tsx:131-150 | after a food is added, each macro total grows by its input's parsed value (0 for blank, "0" or non-numeric input) |
| `FoodForm.FoodFormState.constructor` | app/page.tsx:37-48 | the form starts as the initial record (all fields empty, `mealTime` 'breakfast') and hidden |
| `FoodForm.FoodFormState.Toggle` | app/page.tsx:334 | "Tambah" flips the form's visibility and keeps its fields |
| `FoodForm.FoodFormState.Cancel` | app/page.tsx:396 | "Batal" hides the form and keeps its fields |
| `FoodForm.FoodFormState.Edit` | app/page.tsx:348-383 | an input change sets that field only |
| `FoodForm.FoodFormState.Submit` | app/page.tsx:124-166 | nothing is sent iff the trimmed name is empty; then it alerts "Nama makanan harus diisi!" and leaves the form as it was. Otherwise it sends the payload. If the store accepts, the form resets to the initial record and hides. If the store refuses, the form is kept and "Error: " plus the message is shown |
| `Reminder.EnableReminder` | app/page.tsx:110-121 | the reminder turns on iff there is no `Notification` global or permission is `granted`, with the matching alert; any other answer turns nothing on and alerts nothing |
| `Reminder.TickAsWritten` | app/page.tsx:59-67 | as written, a tick throws iff there is no `Notification` global. With the global, it notifies iff permission is `granted` and alerts otherwise |
| `Reminder.TickEffectFor` | app/page.tsx:59-67 | a tick notifies iff a `Notification` global exists and permission is `granted`; otherwise it shows the reminder alert |
| `Reminder.AsWrittenTickThrowsWithoutApi` | app/page.tsx:59-67 | without a `Notification` global the reminder is reported on, yet every tick throws as written instead of alerting |
| `Reminder.AsWrittenTickAgreesWithApi` | app/page.tsx:59-67 | when a `Notification` global exists, the page's callback and TickEffectFor agree |
| `Reminder.ReminderScheduler.constructor` | app/page.tsx:38 | the reminder starts off with no interval |
| `Reminder.ReminderScheduler.SetEnabled` | app/page.tsx:56-71 | setting the flag keeps "an interval is live iff enabled" and at most one live. An unchanged value re-runs nothing. A changed value clears every old interval first |
| `Reminder.ReminderScheduler.Click` | app/page.tsx:282 | clicking while on turns the reminder off with no live interval. Clicking while off does what EnableReminder decides, and a refusal leaves the state as it was |
| `Reminder.ReminderScheduler.Tick` | app/page.tsx:59-67 | a live interval's tick fires the corrected callback `TickEffectFor`, not the page's `TickAsWritten`. Any other id does nothing |
| `Reminder.EnableThenDisable` | app/page.tsx:56-71 | turning the reminder on and straight off leaves nothing that can fire |
| `Reminder.ClearedIntervalNeverFires` | app/page.tsx:56-71 | after the reminder is turned off and on again, a tick of the old, cleared interval does nothing, while the new interval fires the reminder |
| `Reminder.EnableTwice` | app/page.tsx:56-71 | two `setReminderEnabled(true)` in a row leave exactly one interval |

## Left out

- Store queries, inserts and deletes, and the reload after each mutation (`loadTodayData`, `addWaterLog`, `deleteFoodLog`, `deleteWaterLog`). These are network I/O. The logs are inputs, the store's answer to an insert is an input of `Submit`, and the row the store keeps is `StoredRow` (the store is taken to return what was inserted).
- The local-midnight `Date` filter and `formatTime`. These are date and locale library behaviour.
- `.toFixed` display rounding, and IEEE-754 double rounding throughout. Arithmetic is exact over `real`.
- JsNumber.ParseFloat: does not recognise "Infinity"/"-Infinity", which `parseFloat` reads as infinite. These inputs give `NaN` in the model.
- Nutrition.Contribution: for a stored number, it relies on JavaScript's guarantee that `parseFloat(String(x))` gives back `x` for finite `x`. The model proves this only for natural numbers (`ParseFloatNatToDecimal`).
- The real two-hour timing of `setInterval`, the `Notification` constructor, `alert` and `confirm`. Time is a sequence of `Tick` calls. Effects are returned as values.
- The `await` interleavings in `enableReminder` and the handlers, and React's render scheduling. Each handler is modelled as one atomic step. A doubled `enableReminder` appears only as two `SetEnabled(true)` calls.
- The `loading` flag, the JSX layout and styling.

## Findings

| source | as written | input that shows it | evidently intended | confidence | as-written member | corrected member |
|---|---|---|---|---|---|---|
| app/page.tsx:59-67 | the interval callback reads `Notification.permission` without checking that `Notification` exists | a browser with no `Notification` global: `enableReminder` turns the reminder on ("Browser tidak support notifikasi"), then every tick throws a ReferenceError and no alert is shown | fall back to the alert when notifications are unsupported | medium, not executed | `Reminder.TickAsWritten` (`Reminder.AsWrittenTickThrowsWithoutApi`) | `Reminder.TickEffectFor` |
| app/page.tsx:239-247 | the lookup `emojis[meal]` indexes a plain object literal, which inherits `Object.prototype` members | a stored `meal_time` of "toString" (or "constructor", "valueOf", ...) yields a function, not the plate | look up only the table's own four entries and use the plate for everything else | low, not executed | `Meals.GetMealEmojiAsWritten` (`Meals.AsWrittenNotDefaultForToString`) | `Meals.GetMealEmoji` |
