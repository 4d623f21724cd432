/** JSON values and the JSON replies the controller sends
    (Laravel's `response()->json($data, $status)`). */
module Http {
  import opened Optional

  /** A JSON value. Money amounts are decimal numbers with two fractional
      digits, kept as integer cents (4.99 is `JAmount(499)`). */
  datatype Json =
    | JNull
    | JBool(b: bool)
    | JString(s: string)
    | JAmount(cents: int)

  /** A JSON reply: the HTTP status and the top-level object sent as body. */
  datatype Reply = Reply(status: int, body: map<string, Json>)

  /** The status `response()->json` uses when none is given. */
  const StatusOk: int := 200
  const StatusBadRequest: int := 400
  const StatusUnauthorized: int := 401
  const StatusServerError: int := 500

  /** A nullable string as JSON: `null` or the string. */
  function Nullable(o: Option<string>): (j: Json)
    ensures j == JNull <==> o.None?
    ensures o.Some? ==> j == JString(o.value)
  {
    match o
    case None => JNull
    case Some(s) => JString(s)
  }
}
