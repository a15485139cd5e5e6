/**
 * The zero-value check shared by the request schemas: walk the fields in declaration
 * order and reject the first one whose value is the number zero.
 */
module Helpers {
  import opened Wrappers
  import opened Exceptions
  import opened DiamondSchema

  const ZeroValueSuffix: string := " must have value grather than 0."

  /** The text of the ValueError raised for field `name` (the spelling is the program's). */
  function ZeroValueMessage(name: string): string {
    name + ZeroValueSuffix
  }

  /**
   * `0 in (name, value)`. A field name is a string and never equals 0, so only the value
   * can match, and only when it is numerically zero (0 and 0.0 are the same float).
   */
  predicate IsZero(v: Value) {
    v.Float? && v.n == 0.0
  }

  /** The position of the first zero-valued field, if any. */
  function FirstZeroIndex(fields: seq<Field>): (r: Option<nat>)
    ensures r.None? <==> forall i :: 0 <= i < |fields| ==> !IsZero(fields[i].value)
    ensures r.Some? ==>
      && r.value < |fields|
      && IsZero(fields[r.value].value)
      && forall j :: 0 <= j < r.value ==> !IsZero(fields[j].value)
  {
    if |fields| == 0 then None
    else if IsZero(fields[0].value) then Some(0)
    else
      match FirstZeroIndex(fields[1..])
      case None => None
      case Some(k) => Some(k + 1)
  }

  /** `validate_data_has_no_zero_values`: returns normally, or raises for the first zero field. */
  function ValidateDataHasNoZeroValues(fields: seq<Field>): (r: Outcome<Error>)
    ensures r.Pass? <==> forall i :: 0 <= i < |fields| ==> !IsZero(fields[i].value)
    ensures r.Fail? ==>
      exists i :: && 0 <= i < |fields|
                  && IsZero(fields[i].value)
                  && (forall j :: 0 <= j < i ==> !IsZero(fields[j].value))
                  && r.error == ValueError(ZeroValueMessage(fields[i].name))
  {
    match FirstZeroIndex(fields)
    case None => Pass
    case Some(i) => Fail(ValueError(ZeroValueMessage(fields[i].name)))
  }

  /** The check reads fields left to right: a zero among the first fields wins over later ones. */
  lemma {:induction false} FirstZeroIndexAppend(a: seq<Field>, b: seq<Field>)
    ensures FirstZeroIndex(a + b) ==
      match FirstZeroIndex(a)
      case Some(i) => Some(i)
      case None => match FirstZeroIndex(b) { case Some(k) => Some(|a| + k) case None => None }
  {
    if |a| > 0 {
      assert (a + b)[1..] == a[1..] + b;
      FirstZeroIndexAppend(a[1..], b);
    } else {
      assert a + b == b;
    }
  }

  /** The field named in the message can be read back from it: distinct fields give distinct messages. */
  lemma ZeroValueMessageInjective(a: string, b: string)
    requires ZeroValueMessage(a) == ZeroValueMessage(b)
    ensures a == b
  {
    assert |a| == |b|;
    assert a == ZeroValueMessage(a)[..|a|];
    assert b == ZeroValueMessage(b)[..|b|];
  }

  /**
   * Only numeric zero is rejected: text values (including "0") and any non-zero number,
   * negative ones too, pass.
   */
  lemma OnlyNumericZeroRejected(fields: seq<Field>)
    requires forall i :: 0 <= i < |fields| ==> fields[i].value.Str? || fields[i].value.n != 0.0
    ensures ValidateDataHasNoZeroValues(fields) == Pass
  {
  }

  /** Which fields of a prediction request can be named: only the six numeric ones. */
  lemma PredictionRejectsOnlyNumericFields(d: DiamondFeatures)
    ensures ValidateDataHasNoZeroValues(PredictionFields(d)).Fail? ==>
      ValidateDataHasNoZeroValues(PredictionFields(d)).error in
        {ValueError(ZeroValueMessage("carat")), ValueError(ZeroValueMessage("depth")),
         ValueError(ZeroValueMessage("table")), ValueError(ZeroValueMessage("x")),
         ValueError(ZeroValueMessage("y")), ValueError(ZeroValueMessage("z"))}
  {
  }

  /**
   * Inherited base fields are checked first: the prediction schema fails exactly as the
   * search schema does on the shared fields, and falls through to depth, table, x, y, z.
   */
  lemma BaseFieldsCheckedFirst(d: DiamondFeatures)
    ensures var base := SearchFields(SearchFeatures(d.carat, d.cut, d.color, d.clarity));
      ValidateDataHasNoZeroValues(base).Fail? ==>
        ValidateDataHasNoZeroValues(PredictionFields(d)) == ValidateDataHasNoZeroValues(base)
  {
    var base := SearchFields(SearchFeatures(d.carat, d.cut, d.color, d.clarity));
    var rest := PredictionFields(d)[|base|..];
    assert PredictionFields(d) == base + rest;
    FirstZeroIndexAppend(base, rest);
  }

  /** A zero right after fields that are all non-zero is the one reported. */
  lemma ZeroAfterNonZeroPrefix(a: seq<Field>, b: seq<Field>)
    requires forall i :: 0 <= i < |a| ==> !IsZero(a[i].value)
    requires |b| > 0 && IsZero(b[0].value)
    ensures ValidateDataHasNoZeroValues(a + b) == Fail(ValueError(ZeroValueMessage(b[0].name)))
  {
    FirstZeroIndexAppend(a, b);
    assert (a + b)[|a|] == b[0];
  }

  /** The messages the end-to-end tests compare against, spelled out. */
  lemma CaratMessage()
    ensures ZeroValueMessage("carat") == "carat must have value grather than 0."
  {
  }

  lemma DepthMessage()
    ensures ZeroValueMessage("depth") == "depth must have value grather than 0."
  {
  }

  /** A search request with carat 0 is rejected with "carat must have value grather than 0.". */
  lemma SearchCaratZeroMessage(cut: string, color: string, clarity: string)
    ensures ValidateDataHasNoZeroValues(SearchFields(SearchFeatures(0.0, cut, color, clarity)))
      == Fail(ValueError("carat must have value grather than 0."))
  {
    var fields := SearchFields(SearchFeatures(0.0, cut, color, clarity));
    ZeroAfterNonZeroPrefix([], fields);
    assert [] + fields == fields;
    CaratMessage();
  }
}
