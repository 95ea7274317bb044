/**
 * What the request handlers share: a reply is a status code with a JSON
 * object, and an exception a handler catches becomes a status code.
 */
module Http {
  import opened Common

  /** A status code and the JSON object sent with it. */
  datatype Reply = Reply(status: int, body: Obj)

  /** The body of an error reply. */
  function ErrorBody(msg: string): (b: Obj)
    ensures b.Keys == {"error"} && b["error"] == VStr(msg)
  {
    map["error" := VStr(msg)]
  }

  /**
   * A handler catching `KeyError` and `ValueError` as a bad request and any
   * other exception as a server error.
   */
  function StatusOf(e: Error): (s: int)
    ensures s == 400 <==> e.KeyError? || e.ValueError?
    ensures s == 500 <==> !(e.KeyError? || e.ValueError?)
  {
    if e.KeyError? || e.ValueError? then 400 else 500
  }

  /** A handler catching only `ValueError` as a bad request. */
  function ValueErrorStatus(e: Error): (s: int)
    ensures s == 400 <==> e.ValueError?
    ensures s == 500 <==> !e.ValueError?
  {
    if e.ValueError? then 400 else 500
  }

  /**
   * A list reply built with a comprehension over the rows: the view of each
   * row in order, or the error of the first row whose view raises.
   */
  function ViewAll(rows: seq<Obj>, view: Obj -> Result<Obj>): (r: Result<seq<Obj>>)
    ensures r.Ok? <==> forall i :: 0 <= i < |rows| ==> view(rows[i]).Ok?
    ensures r.Ok? ==> |r.value| == |rows| && forall i :: 0 <= i < |rows| ==> view(rows[i]) == Ok(r.value[i])
    ensures r.Err? ==> exists i :: 0 <= i < |rows| && view(rows[i]) == Err(r.error)
                                   && forall j :: 0 <= j < i ==> view(rows[j]).Ok?
    decreases |rows|
  {
    if rows == [] then Ok([])
    else
      assert forall i :: 1 <= i < |rows| ==> rows[i] == rows[1..][i - 1];
      match view(rows[0])
      case Err(e) => Err(e)
      case Ok(v) =>
        match ViewAll(rows[1..], view)
        case Err(e) => Err(e)
        case Ok(rest) => Ok([v] + rest)
  }
}
