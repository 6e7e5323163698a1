/** The prediction screen: a form of sixteen personal and lifestyle fields,
    posted as JSON to the classifier, whose answer is shown as a predicted
    obesity class or as an error. */
module Prediction {
  import opened Js

  /** The form's fields in their configured order. */
  const FormFields: seq<string> := [
    "gender", "age", "height", "weight", "family_history_with_overweight",
    "FAVC", "FCVC", "NCP", "CAEC", "SMOKE", "CH2O", "SCC", "FAF", "TUE",
    "CALC", "MTRANS"]

  /** The fields entered as numbers, in form order. */
  const NumericFields: seq<string> := ["age", "height", "weight", "FCVC", "NCP", "CH2O", "FAF", "TUE"]

  /** `categoricalFields`: each categorical field with the options it offers. */
  const CategoricalFields: seq<(string, seq<string>)> := [
    ("gender", ["Male", "Female"]),
    ("family_history_with_overweight", ["yes", "no"]),
    ("FAVC", ["yes", "no"]),
    ("CAEC", ["no", "Sometimes", "Frequently", "Always"]),
    ("SMOKE", ["yes", "no"]),
    ("SCC", ["yes", "no"]),
    ("CALC", ["no", "Sometimes", "Frequently", "Always"]),
    ("MTRANS", ["Public_Transportation", "Automobile", "Bike", "Walking", "Motorbike"])]

  /** The form's values: one string per field, in property order, "" when unset. */
  type Form = seq<(string, string)>

  function Keys(form: Form): (ks: seq<string>)
    ensures |ks| == |form|
    ensures forall i :: 0 <= i < |form| ==> ks[i] == form[i].0
  {
    if form == [] then [] else [form[0].0] + Keys(form[1..])
  }

  /** The value held for `key`, if the form has such a field. */
  function ValueOf(form: Form, key: string): Option<string> {
    if form == [] then None
    else if form[0].0 == key then Some(form[0].1)
    else ValueOf(form[1..], key)
  }

  predicate DistinctKeys(form: Form) {
    forall i, j :: 0 <= i < j < |form| ==> form[i].0 != form[j].0
  }

  /** The initial form: every field present, in the configured order, and unset. */
  const InitialForm: Form := seq(|FormFields|, i requires 0 <= i < |FormFields| => (FormFields[i], ""))

  /** No field name occurs twice. */
  lemma FormFieldsDistinct()
    ensures forall i, j :: 0 <= i < j < |FormFields| ==> FormFields[i] != FormFields[j]
  {
  }

  /** The initial form has the sixteen fields, in order, and all are unset. */
  lemma InitialFormShape()
    ensures |InitialForm| == 16 && Keys(InitialForm) == FormFields
    ensures forall i :: 0 <= i < |InitialForm| ==> InitialForm[i].1 == ""
  {
  }

  /** A form whose keys are the configured fields has distinct keys. */
  lemma FieldFormDistinct(form: Form)
    requires Keys(form) == FormFields
    ensures DistinctKeys(form)
  {
    FormFieldsDistinct();
    forall i, j | 0 <= i < j < |form| ensures form[i].0 != form[j].0 {
      assert Keys(form)[i] == form[i].0 && Keys(form)[j] == form[j].0;
    }
  }

  /** `{ ...form, [name]: value }`: an existing field keeps its place and takes
      the new value; a new field is added at the end. */
  function SetField(form: Form, name: string, value: string): (r: Form)
    ensures ValueOf(r, name) == Some(value)
    ensures forall k :: k != name ==> ValueOf(r, k) == ValueOf(form, k)
    ensures Keys(r) == if name in Keys(form) then Keys(form) else Keys(form) + [name]
  {
    if form == [] then [(name, value)]
    else if form[0].0 == name then [(name, value)] + form[1..]
    else
      var rest := SetField(form[1..], name, value);
      assert Keys([form[0]] + rest) == [form[0].0] + Keys(rest);
      assert Keys(form) == [form[0].0] + Keys(form[1..]);
      [form[0]] + rest
  }

  /** Updating the field at position `i`, when no earlier field has its name,
      changes the value at that position only. */
  lemma {:induction false} SetFieldInPlace(form: Form, i: nat, value: string)
    requires i < |form|
    requires forall j :: 0 <= j < i ==> form[j].0 != form[i].0
    ensures SetField(form, form[i].0, value) == form[i := (form[i].0, value)]
  {
    var name := form[i].0;
    if i == 0 {
      assert SetField(form, name, value) == [(name, value)] + form[1..];
    } else {
      var tail := form[1..];
      assert tail[i - 1] == form[i];
      assert forall j :: 0 <= j < i - 1 ==> tail[j].0 != tail[i - 1].0 by {
        forall j | 0 <= j < i - 1 ensures tail[j].0 != tail[i - 1].0 {
          assert tail[j] == form[j + 1];
        }
      }
      SetFieldInPlace(tail, i - 1, value);
      SetFieldPastHead(form, name, value);
      UpdatePastHead(form, i, (name, value));
    }
  }

  lemma SetFieldPastHead(form: Form, name: string, value: string)
    requires |form| > 0 && form[0].0 != name
    ensures SetField(form, name, value) == [form[0]] + SetField(form[1..], name, value)
  {
  }

  lemma UpdatePastHead(form: Form, i: nat, field: (string, string))
    requires 0 < i < |form|
    ensures form[i := field] == [form[0]] + form[1..][i - 1 := field]
  {
  }

  /** `isCategorical(field)`: the field is one of the keys of `categoricalFields`. */
  function IsCategorical(field: string): (r: bool)
    ensures r ==> field in FormFields && field !in NumericFields
  {
    exists i :: 0 <= i < |CategoricalFields| && CategoricalFields[i].0 == field
  }

  /** The options offered for a categorical field. */
  function OptionsOf(field: string): (options: seq<string>)
    requires IsCategorical(field)
    ensures |options| > 0
    ensures forall o :: o in options ==> o != ""
  {
    CategoricalTable();
    OptionsIn(CategoricalFields, field)
  }

  function OptionsIn(table: seq<(string, seq<string>)>, field: string): (options: seq<string>)
    requires exists i :: 0 <= i < |table| && table[i].0 == field
    ensures exists i :: 0 <= i < |table| && table[i].0 == field && options == table[i].1
  {
    if table[0].0 == field then table[0].1
    else
      var options := OptionsIn(table[1..], field);
      var i :| 0 <= i < |table[1..]| && table[1..][i].0 == field && options == table[1..][i].1;
      assert table[i + 1] == table[1..][i];
      options
  }

  /** The eight categorical fields are form fields, each with options that are
      never the placeholder's empty value; the other eight are the numeric ones. */
  lemma CategoricalTable()
    ensures |CategoricalFields| == 8
    ensures forall i :: 0 <= i < 8 ==> CategoricalFields[i].0 in FormFields
    ensures forall i :: 0 <= i < 8 ==> |CategoricalFields[i].1| > 0 && "" !in CategoricalFields[i].1
    ensures forall f :: f in FormFields ==> (IsCategorical(f) <==> f !in NumericFields)
  {
    forall f | f in FormFields ensures IsCategorical(f) <==> f !in NumericFields {
      if f !in NumericFields {
        var i :| 0 <= i < 16 && FormFields[i] == f;
        var k := if i == 0 then 0 else if i == 4 then 1 else if i == 5 then 2 else if i == 8 then 3
                 else if i == 9 then 4 else if i == 11 then 5 else if i == 14 then 6 else 7;
        assert CategoricalFields[k].0 == f;
      }
    }
  }

  /** Every field has been given a value: the form's `required` inputs let the
      browser submit only then. The handler does not check it itself. */
  predicate Complete(form: Form) {
    forall i :: 0 <= i < |form| ==> form[i].1 != ""
  }

  lemma InitialFormIncomplete()
    ensures !Complete(InitialForm)
  {
    assert InitialForm[0].1 == "";
  }

  // ---------------------------------------------------------------------------
  // The response to POST /predict

  /** What `fetch` and `response.json()` deliver: a response with its `ok`
      flag and its body, which is None when the body is not JSON; or a
      connection failure. */
  datatype FetchOutcome = Responded(ok: bool, body: Option<Value>) | ConnectionFailed

  /** The error shown. The first two messages embed the response body
      serialised as JSON; here the body itself is kept. */
  datatype PredictError =
    | MissingObesityClass(response: Value)   // "Missing 'obesity_class'. Response: ..."
    | ApiError(response: Value)              // "API Error: ..."
    | ConnectFailure                         // "Failed to connect to the API."

  datatype Answer = Predicted(obesityClass: Value) | Failed(error: PredictError)

  /** How `handleSubmit` classifies the settled request. Reading `obesity_class`
      from a `null` body throws, and the thrown error is reported like a
      failed connection; so is a body that is not JSON. */
  function Classify(outcome: FetchOutcome): (a: Answer)
    ensures a.Predicted? <==>
              && outcome.Responded? && outcome.ok && outcome.body.Some?
              && !IsNullish(outcome.body.value) && Truthy(Get(outcome.body.value, "obesity_class"))
    ensures a.Predicted? ==> a.obesityClass == Get(outcome.body.value, "obesity_class") && Truthy(a.obesityClass)
    ensures a.Failed? && a.error.MissingObesityClass? <==>
              && outcome.Responded? && outcome.ok && outcome.body.Some?
              && !IsNullish(outcome.body.value) && !Truthy(Get(outcome.body.value, "obesity_class"))
    ensures a.Failed? && a.error.ApiError? <==> outcome.Responded? && !outcome.ok && outcome.body.Some?
    ensures a.Failed? && a.error.MissingObesityClass? ==> a.error.response == outcome.body.value
    ensures a.Failed? && a.error.ApiError? ==> a.error.response == outcome.body.value
    ensures a == Failed(ConnectFailure) <==>
              || outcome.ConnectionFailed? || outcome.body.None?
              || (outcome.ok && IsNullish(outcome.body.value))
  {
    match outcome
    case ConnectionFailed => Failed(ConnectFailure)
    case Responded(ok, body) =>
      if body.None? then Failed(ConnectFailure)
      else if !ok then Failed(ApiError(body.value))
      else if IsNullish(body.value) then Failed(ConnectFailure)
      else
        var obesityClass := Get(body.value, "obesity_class");
        if Truthy(obesityClass) then Predicted(obesityClass)
        else Failed(MissingObesityClass(body.value))
  }

  /** An empty class name counts as missing. */
  lemma EmptyClassIsMissing()
    ensures var body := Obj([("obesity_class", Str(""))]);
            Classify(Responded(true, Some(body))) == Failed(MissingObesityClass(body))
    ensures Classify(Responded(true, Some(Obj([("obesity_class", Str("Normal_Weight"))]))))
         == Predicted(Str("Normal_Weight"))
  {
  }

  /** The screen's state: `formData`, `prediction` (shown unless it is "") and
      `error`. */
  class PredictionScreen {
    var formData: Form
    var prediction: Value
    var error: Option<PredictError>
    /** A request has been sent and has not settled yet. */
    ghost var pending: bool

    ghost predicate Valid()
      reads this
    {
      && Keys(formData) == FormFields
      && (pending ==> prediction == Str("") && error == None)
    }

    constructor ()
      ensures Valid() && !pending
      ensures formData == InitialForm && prediction == Str("") && error == None
    {
      formData := InitialForm;
      prediction := Str("");
      error := None;
      pending := false;
      InitialFormShape();
    }

    /** `handleChange`: the inputs are named after the form's own fields. */
    method HandleChange(name: string, value: string)
      requires Valid() && name in Keys(formData)
      modifies this
      ensures Valid()
      ensures formData == SetField(old(formData), name, value)
      ensures prediction == old(prediction) && error == old(error) && pending == old(pending)
    {
      formData := SetField(formData, name, value);
    }

    /** The start of `handleSubmit`: clears the previous answer and returns the
        JSON body of the request, the form as it stands with every value still
        a string. */
    method StartSubmit() returns (payload: Form)
      requires Valid()
      modifies this
      ensures Valid() && pending
      ensures prediction == Str("") && error == None
      ensures formData == old(formData) && payload == formData
    {
      error := None;
      prediction := Str("");
      pending := true;
      payload := formData;
    }

    /** The rest of `handleSubmit`, once `fetch` and `response.json()` have settled. */
    method FinishSubmit(outcome: FetchOutcome)
      requires Valid() && pending
      modifies this
      ensures Valid() && !pending && formData == old(formData)
      ensures Classify(outcome).Predicted? ==> prediction == Classify(outcome).obesityClass && error == None
      ensures Classify(outcome).Failed? ==> error == Some(Classify(outcome).error) && prediction == Str("")
      ensures Truthy(prediction) != error.Some?
    {
      match Classify(outcome) {
        case Predicted(obesityClass) => prediction := obesityClass;
        case Failed(e) => error := Some(e);
      }
      pending := false;
    }
  }
}
