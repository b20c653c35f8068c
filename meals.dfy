/**
 * `getMealEmoji`: the emoji shown beside a logged food for its meal slot,
 * with a plate as the default for any other slot name.
 */
module Meals {

  const DefaultEmoji: string := "🍽️"

  /** The four meal slots of the form's select, each with its own emoji. */
  const MealEmojis: map<string, string> := map[
    "breakfast" := "🌅",
    "lunch" := "🌞",
    "dinner" := "🌙",
    "snack" := "🍪"]

  /**
   * The emoji for `meal`, looking only at the table's own entries: every
   * string has one, the four slots their own, anything else the default.
   */
  function GetMealEmoji(meal: string): (r: string)
    ensures meal in MealEmojis ==> r == MealEmojis[meal]
    ensures meal !in MealEmojis ==> r == DefaultEmoji
    ensures r != ""
  {
    if meal in MealEmojis && MealEmojis[meal] != "" then MealEmojis[meal] else DefaultEmoji
  }

  /** The four slot emojis differ from each other and from the default. */
  lemma MealEmojisDistinct()
    ensures forall a, b :: a in MealEmojis && b in MealEmojis && a != b ==> GetMealEmoji(a) != GetMealEmoji(b)
    ensures forall a :: a in MealEmojis ==> GetMealEmoji(a) != DefaultEmoji
  {
  }

  /** The default shows exactly for names outside the four slots. */
  lemma DefaultIffUnknown(meal: string)
    ensures GetMealEmoji(meal) == DefaultEmoji <==> meal !in MealEmojis
  {
  }

  // ---- as written: `emojis[meal]` on a plain object literal ----

  /**
   * The property names an object literal inherits from `Object.prototype`;
   * indexing the literal with one of them yields a function or an object.
   */
  const ObjectPrototypeMembers: set<string> := {
    "constructor", "hasOwnProperty", "isPrototypeOf", "propertyIsEnumerable",
    "toLocaleString", "toString", "valueOf", "__proto__",
    "__defineGetter__", "__defineSetter__", "__lookupGetter__", "__lookupSetter__"}

  /** What a JavaScript property read on the emoji table can give back. */
  datatype JsValue = Str(s: string) | Undefined | Inherited(name: string)

  /** `emojis[meal]`, with the prototype chain of an object literal. */
  function EmojiTableLookup(meal: string): JsValue {
    if meal in MealEmojis then Str(MealEmojis[meal])
    else if meal in ObjectPrototypeMembers then Inherited(meal)
    else Undefined
  }

  /** `emojis[meal] || '🍽️'` as the page writes it: inherited members are truthy. */
  function GetMealEmojiAsWritten(meal: string): (r: JsValue)
    ensures meal in ObjectPrototypeMembers ==> r == Inherited(meal)
  {
    match EmojiTableLookup(meal)
    case Str(s) => if s != "" then Str(s) else Str(DefaultEmoji)
    case Undefined => Str(DefaultEmoji)
    case Inherited(n) => Inherited(n)
  }

  /** A stored meal slot "toString" shows a function instead of the default emoji. */
  lemma AsWrittenNotDefaultForToString()
    ensures GetMealEmojiAsWritten("toString") != Str(DefaultEmoji)
    ensures GetMealEmoji("toString") == DefaultEmoji
  {
    assert "toString" !in MealEmojis;
  }

  /** Outside the prototype's member names, the page and GetMealEmoji agree. */
  lemma AsWrittenAgreesElsewhere(meal: string)
    requires meal !in ObjectPrototypeMembers
    ensures GetMealEmojiAsWritten(meal) == Str(GetMealEmoji(meal))
  {
  }
}
