/** Small shared vocabulary: optional values, results with early exit (`:-`),
    the three-way "absent / null / present" of a JSON field, and JSON values. */
module Base {

  datatype Option<+T> = None | Some(value: T) {
    predicate IsFailure() { None? }
    function PropagateFailure<U>(): Option<U> requires None? { None }
    function Extract(): T requires Some? { value }
    function GetOr(default: T): T { if Some? then value else default }
  }

  datatype Result<+T, +E> = Ok(value: T) | Err(error: E) {
    predicate IsFailure() { Err? }
    function PropagateFailure<U>(): Result<U, E> requires Err? { Err(error) }
    function Extract(): T requires Ok? { value }
  }

  /** A JSON object member: missing, explicitly `null`, or holding a value
      (TypeScript's `x?: T | null`). */
  datatype Field<+T> = Absent | Null | Present(value: T) {
    /** JavaScript's `x ?? default`. */
    function Or(default: T): T { if Present? then value else default }
  }

  /** A JSON document. Numbers are reals; object member order is immaterial here. */
  datatype Json =
    | JNull
    | JBool(b: bool)
    | JNum(n: real)
    | JStr(s: string)
    | JArr(items: seq<Json>)
    | JObj(fields: map<string, Json>)

  /** Property access `j.key` on a parsed JSON value: only objects have members. */
  function Member(j: Json, key: string): (r: Option<Json>)
    ensures r.Some? <==> j.JObj? && key in j.fields
    ensures r.Some? ==> r.value == j.fields[key]
  {
    if j.JObj? && key in j.fields then Some(j.fields[key]) else None
  }

  predicate IsInteger(n: real) { n == n.Floor as real }
}
