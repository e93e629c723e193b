/**
 * The part of the valibot object validator the two schema files use: a
 * JSON value, field readers for required, nullable and optional fields and
 * for picklists, and the matching writers used to state round trips.
 */
module JsonSchema {
  import opened Js

  datatype Json =
    | JNull
    | JBool(b: bool)
    | JNumber(n: int)
    | JString(s: string)
    | JArray(items: seq<Json>)
    | JObject(fields: map<string, Json>)

  /** A validation outcome; failure-compatible, so readers chain with `:-`. */
  datatype Parsed<+T> = Valid(value: T) | Invalid {
    predicate IsFailure() { Invalid? }
    function PropagateFailure<U>(): Parsed<U> requires Invalid? { Invalid }
    function Extract(): T requires Valid? { value }
  }

  /** A field declared `optional(nullable(...))`: missing, null, or a value. */
  datatype Nullish<+T> = Missing | Null | Present(value: T)

  /** `v.string()` on a required field. */
  function StringField(o: map<string, Json>, k: string): (r: Parsed<string>)
    ensures r.Valid? <==> k in o && o[k].JString?
    ensures r.Valid? ==> o[k] == JString(r.value)
  {
    if k in o && o[k].JString? then Valid(o[k].s) else Invalid
  }

  /** `v.number()` on a required field. */
  function NumberField(o: map<string, Json>, k: string): (r: Parsed<int>)
    ensures r.Valid? <==> k in o && o[k].JNumber?
    ensures r.Valid? ==> o[k] == JNumber(r.value)
  {
    if k in o && o[k].JNumber? then Valid(o[k].n) else Invalid
  }

  /** `v.boolean()` on a required field. */
  function BoolField(o: map<string, Json>, k: string): (r: Parsed<bool>)
    ensures r.Valid? <==> k in o && o[k].JBool?
    ensures r.Valid? ==> o[k] == JBool(r.value)
  {
    if k in o && o[k].JBool? then Valid(o[k].b) else Invalid
  }

  /** `v.picklist(options)` on a required field: one of the listed strings. */
  function PicklistField(o: map<string, Json>, k: string, options: seq<string>): (r: Parsed<string>)
    ensures r.Valid? <==> k in o && o[k].JString? && o[k].s in options
    ensures r.Valid? ==> o[k] == JString(r.value) && r.value in options
  {
    if k in o && o[k].JString? && o[k].s in options then Valid(o[k].s) else Invalid
  }

  /** `v.nullable(v.string())`: the key must be there, holding null or a string. */
  function NullableStringField(o: map<string, Json>, k: string): (r: Parsed<Option<string>>)
    ensures r.Valid? <==> k in o && (o[k].JNull? || o[k].JString?)
    ensures r == Valid(None) <==> k in o && o[k].JNull?
  {
    if k !in o then Invalid
    else match o[k]
      case JNull => Valid(None)
      case JString(s) => Valid(Some(s))
      case _ => Invalid
  }

  /** `v.optional(v.string())`: the key may be missing; when there, it holds a string. */
  function OptionalStringField(o: map<string, Json>, k: string): (r: Parsed<Option<string>>)
    ensures r.Valid? <==> k !in o || o[k].JString?
    ensures r == Valid(None) <==> k !in o
  {
    if k !in o then Valid(None)
    else if o[k].JString? then Valid(Some(o[k].s))
    else Invalid
  }

  /** `v.optional(v.picklist(options))`. */
  function OptionalPicklistField(o: map<string, Json>, k: string, options: seq<string>): (r: Parsed<Option<string>>)
    ensures r.Valid? <==> k !in o || (o[k].JString? && o[k].s in options)
    ensures r.Valid? && r.value.Some? ==> r.value.value in options
  {
    if k !in o then Valid(None)
    else if o[k].JString? && o[k].s in options then Valid(Some(o[k].s))
    else Invalid
  }

  /** `v.optional(v.nullable(v.string()))`. */
  function OptionalNullableStringField(o: map<string, Json>, k: string): (r: Parsed<Nullish<string>>)
    ensures r.Valid? <==> k !in o || o[k].JNull? || o[k].JString?
    ensures r == Valid(Missing) <==> k !in o
  {
    if k !in o then Valid(Missing)
    else match o[k]
      case JNull => Valid(Null)
      case JString(s) => Valid(Present(s))
      case _ => Invalid
  }

  /** Writers. An optional field that is absent is left out of the object. */
  function OptionalJson(v: Option<string>): Option<Json>
  {
    if v.Some? then Some(JString(v.value)) else None
  }

  function NullableJson(v: Option<string>): Json
  {
    if v.Some? then JString(v.value) else JNull
  }

  function NullishJson(v: Nullish<string>): Option<Json>
  {
    match v
    case Missing => None
    case Null => Some(JNull)
    case Present(s) => Some(JString(s))
  }

  /** The object holding the entries that are present. */
  function PresentEntries(entries: map<string, Option<Json>>): map<string, Json>
  {
    map k | k in entries && entries[k].Some? :: entries[k].value
  }
}
