/**
 * The part of zod's `z.object({...}).safeParse` that the contact form relies on:
 * an object shape whose every field is a string rule, checked independently,
 * with one issue reported per failing field and unknown keys stripped.
 */
module Zod {
  import opened Wrappers
  import opened Js

  /**
   * The string rules in use: `z.string().min(n, message)`, `z.string().email(message)`
   * and `z.string().optional()`.
   */
  datatype Rule =
    | MinLength(min: nat, message: string)
    | EmailFormat(message: string)
    | OptionalString

  /** One entry of an object shape. */
  datatype FieldRule = FieldRule(field: string, rule: Rule)

  /** A validation issue: the input is not an object, a field is not a string, or a check failed. */
  datatype Issue =
    | NotAnObject
    | WrongType(field: string)
    | Invalid(field: string, message: string)

  /** A parsed JSON body: an object with its properties, or anything else (array, null, primitive). */
  datatype Payload = Object(fields: map<string, Value>) | NonObject

  /** What a field must look like for its rule to accept it (the length is counted in characters). */
  predicate Satisfies(rule: Rule, v: Value, emailOk: string -> bool) {
    match rule
    case MinLength(n, _) => v.Str? && |v.s| >= n
    case EmailFormat(_) => v.Str? && emailOk(v.s)
    case OptionalString => v.Undefined? || v.Str?
  }

  /** The issue zod reports for one field, or None when the field is accepted. */
  function CheckField(fr: FieldRule, v: Value, emailOk: string -> bool): (r: Option<Issue>)
    ensures r.None? <==> Satisfies(fr.rule, v, emailOk)
    ensures r.Some? && v.Str? ==> r.value.Invalid? && r.value.field == fr.field
    ensures r.Some? && !v.Str? ==> r.value == WrongType(fr.field)
    ensures r.Some? && r.value.Invalid? ==>
              !fr.rule.OptionalString? && r.value.message == fr.rule.message
  {
    match fr.rule
    case OptionalString =>
      if v.Undefined? || v.Str? then None else Some(WrongType(fr.field))
    case MinLength(n, message) =>
      if !v.Str? then Some(WrongType(fr.field))
      else if |v.s| < n then Some(Invalid(fr.field, message))
      else None
    case EmailFormat(message) =>
      if !v.Str? then Some(WrongType(fr.field))
      else if !emailOk(v.s) then Some(Invalid(fr.field, message))
      else None
  }

  /** The value the shape's i-th field has in `fields`. */
  function FieldValue(shape: seq<FieldRule>, i: nat, fields: map<string, Value>): Value
    requires i < |shape|
  {
    Get(fields, shape[i].field)
  }

  /** Every field of the shape accepts its value. */
  predicate AllSatisfied(shape: seq<FieldRule>, fields: map<string, Value>, emailOk: string -> bool) {
    forall i :: 0 <= i < |shape| ==> Satisfies(shape[i].rule, FieldValue(shape, i, fields), emailOk)
  }

  /** `safeParse` succeeds exactly on objects whose every shaped field is accepted. */
  predicate Accepts(shape: seq<FieldRule>, p: Payload, emailOk: string -> bool) {
    p.Object? && AllSatisfied(shape, p.fields, emailOk)
  }

  /** The issues of all failing fields, in shape order. */
  function Issues(shape: seq<FieldRule>, fields: map<string, Value>, emailOk: string -> bool): (r: seq<Issue>)
    ensures |r| <= |shape|
    ensures r == [] <==> AllSatisfied(shape, fields, emailOk)
    ensures forall i :: 0 <= i < |shape| && !Satisfies(shape[i].rule, FieldValue(shape, i, fields), emailOk) ==>
              CheckField(shape[i], FieldValue(shape, i, fields), emailOk).value in r
    ensures forall x :: x in r ==>
              exists i :: 0 <= i < |shape| && CheckField(shape[i], FieldValue(shape, i, fields), emailOk) == Some(x)
    decreases |shape|
  {
    if shape == [] then []
    else
      var head := match CheckField(shape[0], Get(fields, shape[0].field), emailOk)
        case Some(x) => [x]
        case None => [];
      var tail := Issues(shape[1..], fields, emailOk);
      assert forall i :: 1 <= i < |shape| ==> FieldValue(shape[1..], i - 1, fields) == FieldValue(shape, i, fields);
      head + tail
  }

  /** The names the shape lists. */
  function ShapeFields(shape: seq<FieldRule>): set<string> {
    set i | 0 <= i < |shape| :: shape[i].field
  }

  /**
   * `safeParse`: the object restricted to the shape's fields (unknown keys are
   * stripped), or the issues found.
   */
  function SafeParse(shape: seq<FieldRule>, p: Payload, emailOk: string -> bool): (r: Result<map<string, Value>, seq<Issue>>)
    ensures r.Ok? <==> Accepts(shape, p, emailOk)
    ensures r.Ok? ==> r.value.Keys <= ShapeFields(shape)
    ensures r.Ok? ==> forall f :: f in ShapeFields(shape) ==> Get(r.value, f) == Get(p.fields, f)
    ensures r.Err? ==> r.error != []
    ensures r.Err? && p.NonObject? ==> r.error == [NotAnObject]
  {
    match p
    case NonObject => Err([NotAnObject])
    case Object(fields) =>
      var issues := Issues(shape, fields, emailOk);
      if issues == [] then Ok(map f | f in fields && f in ShapeFields(shape) :: fields[f])
      else Err(issues)
  }
}
