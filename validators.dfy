/** utils/validators.js: both checks throw an error carrying
    `statusCode` 400; the model returns the error instead. */
module Validators {
  import opened Js
  import opened Sequences

  datatype Check = Pass | Fail(error: Error)

  const BAD_REQUEST: int := 400

  /** The listed fields that are undefined or null, in the listed order. */
  function MissingFields(payload: map<string, Value>, fields: seq<string>): (missing: seq<string>)
    ensures forall i :: 0 <= i < |missing| ==> missing[i] in fields && Nullish(Get(payload, missing[i]))
    ensures forall i :: 0 <= i < |fields| && Nullish(Get(payload, fields[i])) ==> fields[i] in missing
  {
    Filter(fields, (f: string) => Nullish(Get(payload, f)))
  }

  /** The missing fields are reported in the order they were listed. */
  lemma MissingFieldsInOrder(payload: map<string, Value>, fields: seq<string>)
    ensures IsSubsequence(MissingFields(payload, fields), fields)
  {
    FilterIsSubsequence(fields, (f: string) => Nullish(Get(payload, f)));
  }

  /** `requireFields(payload, fields)`: passes iff no listed field is
      undefined or null (empty strings, 0 and false are present). */
  function RequireFields(payload: map<string, Value>, fields: seq<string>): (r: Check)
    ensures r.Pass? <==> forall i :: 0 <= i < |fields| ==> !Nullish(Get(payload, fields[i]))
    ensures fields == [] ==> r.Pass?
    ensures r.Fail? ==> r.error.statusCode == Some(BAD_REQUEST)
    ensures r.Fail? ==> r.error.message == "Missing required fields: " + Join(MissingFields(payload, fields), ", ")
  {
    var missing := MissingFields(payload, fields);
    if |missing| > 0 then
      Fail(Error("Missing required fields: " + Join(missing, ", "), Some(BAD_REQUEST)))
    else
      assert forall i :: 0 <= i < |fields| ==> !Nullish(Get(payload, fields[i]));
      Pass
  }

  /** `assertEnum(value, allowed, fieldName)`: passes iff `allowed.includes(value)`. */
  function AssertEnum(value: Value, allowed: seq<string>, fieldName: string): (r: Check)
    ensures r.Pass? <==> value.Str? && value.s in allowed
    ensures r.Fail? ==> r.error.statusCode == Some(BAD_REQUEST)
    ensures r.Fail? ==> r.error.message == "Invalid " + fieldName + ". Expected one of: " + Join(allowed, ", ")
  {
    if value.Str? && value.s in allowed then Pass
    else Fail(Error("Invalid " + fieldName + ". Expected one of: " + Join(allowed, ", "), Some(BAD_REQUEST)))
  }
}
