/**
 * The cardinality part of the field settings form: how a field's
 * cardinality becomes the defaults of a select ("Limited" or "Unlimited")
 * and a number, how a submission is validated, and how a submission is
 * turned back into a cardinality and merged into the stored field.
 */
module FieldEditForm {

  /** The PHP values that appear in a field's settings and in the submitted
      form values. `Unlimited` is FIELD_CARDINALITY_UNLIMITED, a value that
      is no integer, no string and no boolean. */
  datatype Value = Null | Unlimited | Int(i: int) | Str(s: string) | Bool(b: bool)

  /** Entries of a field, and the values submitted under `field` in the form. */
  type Entries = map<string, Value>

  /** The select's option for a limited cardinality. */
  const NumberOption := Str("number")

  /** Reading a missing key gives NULL, as in PHP. */
  function Get(m: Entries, key: string): (r: Value)
    ensures key in m ==> r == m[key]
    ensures key !in m ==> r == Null
  {
    if key in m then m[key] else Null
  }

  /** PHP's `empty()`: NULL, 0, "", "0" and FALSE. */
  predicate IsEmpty(v: Value)
  {
    v == Null || v == Int(0) || v == Str("") || v == Str("0") || v == Bool(false)
  }

  /** The select's default: Unlimited for an unlimited field, "number" for
      any other cardinality. */
  function SelectDefault(cardinality: Value): (r: Value)
    ensures r == Unlimited || r == NumberOption
    ensures r == Unlimited <==> cardinality == Unlimited
  {
    if cardinality == Unlimited then Unlimited else NumberOption
  }

  /** The number default: the cardinality itself when it is limited, 1 for an
      unlimited field; never Unlimited. */
  function NumberDefault(cardinality: Value): (r: Value)
    ensures r != Unlimited
    ensures cardinality != Unlimited ==> r == cardinality
    ensures cardinality == Unlimited ==> r == Int(1)
  {
    if cardinality != Unlimited then cardinality else Int(1)
  }

  /** The elements' values of a freshly built form for `field`, before the
      user edits them: the two cardinality defaults and the four entries
      carried as fixed values. */
  function FormDefaults(field: Entries): (r: Entries)
    ensures r.Keys == {"cardinality", "cardinality_number", "field_name", "type", "module", "active"}
    ensures forall k :: k in {"field_name", "type", "module", "active"} ==> r[k] == Get(field, k)
  {
    var cardinality := Get(field, "cardinality");
    map["cardinality" := SelectDefault(cardinality),
        "cardinality_number" := NumberDefault(cardinality),
        "field_name" := Get(field, "field_name"),
        "type" := Get(field, "type"),
        "module" := Get(field, "module"),
        "active" := Get(field, "active")]
  }

  /** The validation error "Number of values is required": raised exactly
      when "number" is selected and the number is empty. */
  predicate CardinalityError(select: Value, number: Value)
    ensures CardinalityError(select, number) <==> select == NumberOption && IsEmpty(number)
  {
    select == NumberOption && IsEmpty(number)
  }

  /** Choosing Unlimited never raises the error, whatever the number. */
  lemma UnlimitedNeverErrs(number: Value)
    ensures !CardinalityError(Unlimited, number)
  {
  }

  /** The defaults built for an unlimited field or a field with at least one
      value pass validation; those built for cardinality 0 do not. */
  lemma DefaultsValidate(cardinality: Value)
    ensures (cardinality == Unlimited || (cardinality.Int? && cardinality.i >= 1)) ==>
      !CardinalityError(SelectDefault(cardinality), NumberDefault(cardinality))
    ensures cardinality == Int(0) ==>
      CardinalityError(SelectDefault(cardinality), NumberDefault(cardinality))
  {
  }

  /** The cardinality a submission stands for: the number when "number" is
      selected, the selected value itself otherwise. */
  function ResolveCardinality(select: Value, number: Value): (r: Value)
    ensures select == NumberOption ==> r == number
    ensures select != NumberOption ==> r == select
  {
    if select == NumberOption then number else select
  }

  /** Submitting the defaults unchanged gives back the field's cardinality. */
  lemma CardinalityRoundTrip(cardinality: Value)
    ensures ResolveCardinality(SelectDefault(cardinality), NumberDefault(cardinality)) == cardinality
  {
  }

  /** The submitted values as they are merged: the resolved cardinality in
      place of the select, without the `container` entry. */
  function MergedValues(values: Entries): (r: Entries)
    ensures "container" !in r
    ensures "cardinality" in r
    ensures r["cardinality"] == ResolveCardinality(Get(values, "cardinality"), Get(values, "cardinality_number"))
    ensures r.Keys == (values.Keys + {"cardinality"}) - {"container"}
    ensures forall k :: k in values && k != "container" && k != "cardinality" ==> r[k] == values[k]
  {
    var cardinality := ResolveCardinality(Get(values, "cardinality"), Get(values, "cardinality_number"));
    values["cardinality" := cardinality] - {"container"}
  }

  /** The field after the merge: every merged value replaces the field's
      entry under its key, and every other entry of the field stays. */
  function SavedField(field: Entries, values: Entries): (r: Entries)
    ensures r.Keys == field.Keys + MergedValues(values).Keys
    ensures forall k :: k in MergedValues(values) ==> r[k] == MergedValues(values)[k]
    ensures forall k :: k in field && k !in MergedValues(values) ==> r[k] == field[k]
  {
    field + MergedValues(values)
  }

  /** Submitting the elements' values of a freshly built form unedited, with
      the types of the defaults, leaves the cardinality and the four fixed
      entries as the field had them. */
  lemma SubmitDefaultsKeepsField(field: Entries)
    requires "cardinality" in field
    ensures SavedField(field, FormDefaults(field))["cardinality"] == field["cardinality"]
    ensures forall k :: k in field && k in {"field_name", "type", "module", "active"} ==>
      SavedField(field, FormDefaults(field))[k] == field[k]
  {
  }

  /** `submitForm`: resolves the cardinality, drops `container` and copies
      the submitted values into `field` one key at a time. Saving the field
      and what follows are not part of this model. */
  method SubmitForm(field: Entries, fieldValues: Entries) returns (saved: Entries)
    ensures saved == SavedField(field, fieldValues)
    ensures "cardinality" in saved
    ensures saved["cardinality"] == ResolveCardinality(Get(fieldValues, "cardinality"), Get(fieldValues, "cardinality_number"))
    ensures forall k :: k in fieldValues && k != "container" ==> k in saved
    ensures forall k :: k in field && (k !in fieldValues || k == "container") && k != "cardinality" ==>
      k in saved && saved[k] == field[k]
  {
    var cardinality := Get(fieldValues, "cardinality");
    var cardinalityNumber := Get(fieldValues, "cardinality_number");
    if cardinality == NumberOption {
      cardinality := cardinalityNumber;
    }
    var values := fieldValues["cardinality" := cardinality];
    values := values - {"container"};

    saved := field;
    var pending := values.Keys;
    while pending != {}
      invariant pending <= values.Keys
      invariant saved.Keys == field.Keys + (values.Keys - pending)
      invariant forall k :: k in values && k !in pending ==> saved[k] == values[k]
      invariant forall k :: k in field && (k !in values || k in pending) ==> saved[k] == field[k]
      decreases pending
    {
      var key :| key in pending;
      saved := saved[key := values[key]];
      pending := pending - {key};
    }
    assert values == MergedValues(fieldValues);
    assert saved == SavedField(field, fieldValues);
  }
}
