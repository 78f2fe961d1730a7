// HttpError of the top-level and modules generations: an error value with a
// status, the factories that default the message to the status in decimal,
// the status test, and the response an error turns into.

module HttpErrors {
  import opened Wrappers
  import opened Strings
  import opened Json
  import HttpTables

  /** An HttpError: message, status and optional data. */
  datatype HttpError = HttpError(message: string, status: int, data: Option<Json>)

  /**
   * What a handler, a parser or the framework can throw: an HttpError, a
   * SyntaxError (bad JSON, an empty form body), any other Error with its
   * message, or a thrown value that is not an Error at all.
   */
  datatype Thrown =
    | Http(error: HttpError)
    | Syntax(message: string)
    | Failure(message: string)
    | NonError(value: Json)

  /** A computation that either yields a value or throws. */
  datatype Outcome<T> = Ok(value: T) | Throw(err: Thrown)

  /** `new HttpError(message, status, data)`: every argument is kept as given. */
  function Make(message: string, status: int, data: Option<Json>): (e: HttpError)
    ensures e.message == message && e.status == status && e.data == data
  {
    HttpError(message, status, data)
  }

  /** The shared body of the static factories: `msg ?? status.toString()`, no data. */
  function Factory(status: nat, msg: Option<string>): (e: HttpError)
    ensures e.status == status && e.data == None
    ensures msg.Some? ==> e.message == msg.value
    ensures msg.None? ==> e.message == NatToString(status)
  {
    HttpError(msg.GetOr(NatToString(status)), status, None)
  }

  function InternalServerError(msg: Option<string>): (e: HttpError)
    ensures e.status == HttpTables.INTERNAL_SERVER_ERROR
  {
    Factory(HttpTables.INTERNAL_SERVER_ERROR, msg)
  }

  function BadRequest(msg: Option<string>): (e: HttpError)
    ensures e.status == HttpTables.BAD_REQUEST
  {
    Factory(HttpTables.BAD_REQUEST, msg)
  }

  function NotFound(msg: Option<string>): (e: HttpError)
    ensures e.status == HttpTables.NOT_FOUND
  {
    Factory(HttpTables.NOT_FOUND, msg)
  }

  function MethodNotAllowed(msg: Option<string>): (e: HttpError)
    ensures e.status == HttpTables.METHOD_NOT_ALLOWED
  {
    Factory(HttpTables.METHOD_NOT_ALLOWED, msg)
  }

  function UnprocessableEntity(msg: Option<string>): (e: HttpError)
    ensures e.status == HttpTables.UNPROCESSABLE_ENTITY
  {
    Factory(HttpTables.UNPROCESSABLE_ENTITY, msg)
  }

  /** A factory called without a message produces a message that reads back as its status. */
  lemma DefaultMessageDenotesStatus(status: nat)
    ensures var e := Factory(status, None);
      (forall i :: 0 <= i < |e.message| ==> '0' <= e.message[i] <= '9') &&
      DigitsValue(e.message) == e.status
  {
    NatToStringValue(status);
  }

  lemma DefaultMessageExamples()
    ensures InternalServerError(None).message == "500"
    ensures BadRequest(None).message == "400"
    ensures NotFound(None).message == "404"
    ensures MethodNotAllowed(None).message == "405"
    ensures UnprocessableEntity(None).message == "422"
  {
  }

  /** The instance test of the top-level generation. */
  predicate IsStatusOf(e: HttpError, status: int)
  {
    e.status == status
  }

  /** The static test of the modules generation: anything that is not an HttpError counts as 500. */
  predicate ModulesIsStatusOf(err: Thrown, status: int)
  {
    if err.Http? then err.error.status == status else status == HttpTables.INTERNAL_SERVER_ERROR
  }

  /** The status an arbitrary thrown value stands for. */
  function StatusOf(err: Thrown): (s: int)
    ensures err.Http? ==> s == err.error.status
    ensures !err.Http? ==> s == 500
  {
    if err.Http? then err.error.status else HttpTables.INTERNAL_SERVER_ERROR
  }

  /** Every thrown value answers the static test for exactly one status, and it agrees with the instance test. */
  lemma ModulesIsStatusOfExactlyOne(err: Thrown, status: int)
    ensures ModulesIsStatusOf(err, status) <==> status == StatusOf(err)
    ensures err.Http? ==> (ModulesIsStatusOf(err, status) <==> IsStatusOf(err.error, status))
  {
  }

  /** The JSON body of `toResponse`: the data under "error" when it is truthy, else `true`. */
  function ErrorBody(e: HttpError): (j: Json)
    ensures j.JObj? && |j.fields| == 2
  {
    JObj([("error", if e.data.Some? && Truthy(e.data.value) then e.data.value else JBool(true)),
          ("message", JStr(e.message))])
  }

  /** The body and status `toResponse` hands to the response constructor. */
  function ToResponse(e: HttpError): (r: (Json, int))
    ensures r.1 == e.status
  {
    (ErrorBody(e), e.status)
  }

  /**
   * A client reading the error response always finds a truthy "error" field,
   * the error's message under "message", and the data whenever it was truthy.
   */
  lemma ToResponseCarries(e: HttpError)
    ensures var body := ToResponse(e).0;
      Field(body, "message") == Some(JStr(e.message)) &&
      Field(body, "error").Some? && Truthy(Field(body, "error").value) &&
      (e.data.Some? && Truthy(e.data.value) ==> Field(body, "error") == Some(e.data.value)) &&
      (e.data.None? ==> Field(body, "error") == Some(JBool(true)))
  {
    var body := ToResponse(e).0;
    assert body.fields[0].0 == "error";
    assert body.fields[1].0 == "message";
    assert "error" != "message";
    assert FieldIn(body.fields[..1], "error") == Some(body.fields[0].1);
  }
}
