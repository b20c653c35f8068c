/**
 * The add-food form: its field values, the check on the food name, the
 * payload sent to the store, and the reset after a successful add.
 */
module FoodForm {
  import opened Wrappers
  import JsString
  import JsNumber
  import ParseFloatLaws
  import Nutrition

  /** The form as typed; every field is the raw text of its input. */
  datatype FoodFormData = FoodFormData(
    foodName: string,
    calories: string,
    protein: string,
    carbs: string,
    fat: string,
    mealTime: string)

  const InitialForm: FoodFormData := FoodFormData("", "", "", "", "", "breakfast")

  datatype FormField = FoodNameField | MacroField(m: Nutrition.Macro) | MealTimeField

  function Get(f: FoodFormData, field: FormField): string {
    match field
    case FoodNameField => f.foodName
    case MacroField(m) => MacroInput(f, m)
    case MealTimeField => f.mealTime
  }

  function MacroInput(f: FoodFormData, m: Nutrition.Macro): string {
    match m
    case Calories => f.calories
    case Protein => f.protein
    case Carbs => f.carbs
    case Fat => f.fat
  }

  /** `{ ...foodForm, [field]: value }`. */
  function With(f: FoodFormData, field: FormField, value: string): (g: FoodFormData)
    ensures Get(g, field) == value
    ensures forall other :: other != field ==> Get(g, other) == Get(f, other)
  {
    match field
    case FoodNameField => f.(foodName := value)
    case MacroField(m) => WithMacro(f, m, value)
    case MealTimeField => f.(mealTime := value)
  }

  function WithMacro(f: FoodFormData, m: Nutrition.Macro, value: string): (g: FoodFormData)
    ensures MacroInput(g, m) == value
    ensures forall other :: other != m ==> MacroInput(g, other) == MacroInput(f, other)
    ensures g.foodName == f.foodName && g.mealTime == f.mealTime
  {
    match m
    case Calories => f.(calories := value)
    case Protein => f.(protein := value)
    case Carbs => f.(carbs := value)
    case Fat => f.(fat := value)
  }

  /** `!foodForm.foodName.trim()`: the name is empty once white space is trimmed. */
  predicate NameIsBlank(name: string) {
    JsString.Trim(name) == []
  }

  /** A name is refused exactly when it consists of white space only. */
  lemma NameIsBlankIffAllSpace(name: string)
    ensures NameIsBlank(name) <==> JsString.AllSpace(name)
  {
    JsString.TrimEmptyIffAllSpace(name);
  }

  /** `parseFloat(v) || null`: `NaN` and 0 are both falsy and become `null`. */
  function Coerce(v: string): (r: Option<real>)
    ensures r.Some? ==> r.value != 0.0 && JsNumber.ParseFloat(v) == r
    ensures r.None? <==> JsNumber.ParseFloat(v) in {None, Some(0.0)}
  {
    match JsNumber.ParseFloat(v)
    case None => None
    case Some(x) => if x == 0.0 then None else Some(x)
  }

  /** An empty input, "0", and any input without a digit are all stored as `null`. */
  lemma CoerceBlankAndZero(v: string)
    requires v == "" || v == "0" || !JsNumber.HasDigit(v)
    ensures Coerce(v) == None
  {
    if v == "0" {
      ParseFloatLaws.ParseFloatZero();
    }
  }

  /** A whole number typed without leading zeros is stored as itself, unless it is 0. */
  lemma CoerceNatural(n: nat)
    ensures Coerce(JsNumber.NatToDecimal(n)) == if n == 0 then None else Some(n as real)
  {
    ParseFloatLaws.ParseFloatNatToDecimal(n);
  }

  /** The record inserted into `food_logs`. */
  datatype FoodInsert = FoodInsert(
    foodName: string,
    calories: Option<real>,
    protein: Option<real>,
    carbs: Option<real>,
    fat: Option<real>,
    mealTime: string)

  function InsertedMacro(p: FoodInsert, m: Nutrition.Macro): Option<real> {
    match m
    case Calories => p.calories
    case Protein => p.protein
    case Carbs => p.carbs
    case Fat => p.fat
  }

  /** The insert payload built from the form. */
  function Payload(f: FoodFormData): (p: FoodInsert)
    ensures p.foodName == f.foodName && p.mealTime == f.mealTime
    ensures forall m :: InsertedMacro(p, m) == Coerce(MacroInput(f, m))
  {
    FoodInsert(
      f.foodName,
      Coerce(f.calories), Coerce(f.protein), Coerce(f.carbs), Coerce(f.fat),
      f.mealTime)
  }

  /** Every macro the page stores is `null` or a nonzero number. */
  lemma PayloadMacrosNullOrNonzero(f: FoodFormData, m: Nutrition.Macro)
    ensures InsertedMacro(Payload(f), m) == None || InsertedMacro(Payload(f), m).value != 0.0
  {
  }

  /** A stored macro column as it comes back from the store. */
  function Stored(x: Option<real>): Nutrition.FieldValue {
    match x
    case None => Nutrition.Null
    case Some(v) => Nutrition.Number(v)
  }

  /** The row the store keeps for an inserted payload, with the id and time it assigns. */
  function StoredRow(p: FoodInsert, id: string, createdAt: string): (log: Nutrition.FoodLog)
    ensures log.id == id && log.createdAt == createdAt
    ensures log.foodName == p.foodName && log.mealTime == p.mealTime
    ensures forall m :: Nutrition.Field(log, m).Null? <==> InsertedMacro(p, m).None?
    ensures forall m :: InsertedMacro(p, m).Some? ==> Nutrition.Field(log, m) == Nutrition.Number(InsertedMacro(p, m).value)
  {
    Nutrition.FoodLog(
      id, createdAt, p.foodName,
      Stored(p.calories), Stored(p.protein), Stored(p.carbs), Stored(p.fat),
      p.mealTime)
  }

  /**
   * Storing `null` for 0 and `NaN` loses nothing: the stored field counts in
   * the totals exactly what `parseFloat` made of the input, or 0.
   */
  lemma CoercionKeepsContribution(v: string)
    ensures Nutrition.Contribution(Stored(Coerce(v))) == Nutrition.OrZero(JsNumber.ParseFloat(v))
  {
  }

  /** After a food is added, each total has grown by what its input parses to (0 for blank or "0"). */
  lemma AddedFoodRaisesTotals(
    logs: seq<Nutrition.FoodLog>, f: FoodFormData, id: string, createdAt: string, m: Nutrition.Macro)
    ensures Nutrition.MacroTotal(logs + [StoredRow(Payload(f), id, createdAt)], m)
            == Nutrition.MacroTotal(logs, m) + Nutrition.OrZero(JsNumber.ParseFloat(MacroInput(f, m)))
  {
    var row := StoredRow(Payload(f), id, createdAt);
    Nutrition.MacroTotalAppend(logs, row, m);
    CoercionKeepsContribution(MacroInput(f, m));
  }

  /** What the store answers to the insert. */
  datatype InsertResult = InsertOk | InsertError(message: string)

  const NameRequiredAlert: string := "Nama makanan harus diisi!"
  const FoodAddedAlert: string := "✅ Makanan berhasil ditambahkan!"

  function InsertErrorAlert(message: string): string {
    "Error: " + message
  }

  /** The form state of the page: `foodForm` and `showFoodForm`. */
  class FoodFormState {
    var form: FoodFormData
    var visible: bool

    constructor ()
      ensures form == InitialForm && !visible
    {
      form := InitialForm;
      visible := false;
    }

    /** The "Tambah" button. */
    method Toggle()
      modifies this
      ensures visible == !old(visible) && form == old(form)
    {
      visible := !visible;
    }

    /** The "Batal" button. */
    method Cancel()
      modifies this
      ensures !visible && form == old(form)
    {
      visible := false;
    }

    /** An input's `onChange`: one field takes the typed value, the others keep theirs. */
    method Edit(field: FormField, value: string)
      modifies this
      ensures Get(form, field) == value
      ensures forall other :: other != field ==> Get(form, other) == Get(old(form), other)
      ensures visible == old(visible)
    {
      form := With(form, field, value);
    }

    /**
     * `handleAddFood`. A blank name is refused: nothing is sent and the form
     * stays as it is. Otherwise the payload is sent; when the store accepts
     * it the form returns to its initial value and is hidden, and when the
     * store refuses it the form is kept for another try.
     */
    method Submit(answer: InsertResult) returns (sent: Option<FoodInsert>, alert: string)
      modifies this
      ensures sent.None? <==> NameIsBlank(old(form).foodName)
      ensures sent.None? ==> alert == NameRequiredAlert && form == old(form) && visible == old(visible)
      ensures sent.Some? ==> sent.value == Payload(old(form))
      ensures sent.Some? && answer.InsertOk? ==> form == InitialForm && !visible && alert == FoodAddedAlert
      ensures sent.Some? && answer.InsertError? ==>
                form == old(form) && visible == old(visible) && alert == InsertErrorAlert(answer.message)
    {
      if NameIsBlank(form.foodName) {
        return None, NameRequiredAlert;
      }
      sent := Some(Payload(form));
      match answer
      case InsertError(message) =>
        alert := InsertErrorAlert(message);
      case InsertOk =>
        form := InitialForm;
        visible := false;
        alert := FoodAddedAlert;
    }
  }
}
