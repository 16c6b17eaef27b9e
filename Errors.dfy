/**
 * The extension's error value, `CognitoAuthError`, the HTTP response its
 * error handler renders from it, and the exceptions a request can end in.
 */
module Errors {
  import opened Wrappers

  type Headers = map<string, string>

  /** The status code a `CognitoAuthError` carries unless one is given. */
  const DEFAULT_STATUS_CODE: int := 401

  datatype CognitoAuthError = CognitoAuthError(
    error: string,
    description: string,
    statusCode: int,
    headers: Option<Headers>)

  /** `CognitoAuthError(error, description)`: the constructor with its defaults. */
  function NewError(error: string, description: string): (e: CognitoAuthError)
    ensures e.error == error && e.description == description
    ensures e.statusCode == 401 && e.headers == None
  {
    CognitoAuthError(error, description, DEFAULT_STATUS_CODE, None)
  }

  /** `str(e)`: the error name, a space, the description. */
  function Str(e: CognitoAuthError): (s: string)
    ensures |s| == |e.error| + 1 + |e.description|
    ensures s[..|e.error|] == e.error && s[|e.error|] == ' '
    ensures s[|e.error| + 1..] == e.description
  {
    e.error + " " + e.description
  }

  const REPR_PREFIX: string := "CognitoAuthError: "

  /** `repr(e)`: the error name only, behind a fixed prefix. */
  function Repr(e: CognitoAuthError): (s: string)
    ensures |s| == |REPR_PREFIX| + |e.error|
    ensures s[..|REPR_PREFIX|] == REPR_PREFIX && s[|REPR_PREFIX|..] == e.error
  {
    REPR_PREFIX + e.error
  }

  /** Two errors render the same `repr` exactly when they have the same error name. */
  lemma ReprIdentifiesError(a: CognitoAuthError, b: CognitoAuthError)
    ensures Repr(a) == Repr(b) <==> a.error == b.error
  {
    if Repr(a) == Repr(b) {
      assert Repr(a)[|REPR_PREFIX|..] == a.error;
      assert Repr(b)[|REPR_PREFIX|..] == b.error;
    }
  }

  /** A field of the JSON body the error handler builds. */
  datatype BodyValue = IntField(n: int) | TextField(text: string)

  /** What the error handler returns: an ordered body, the status, the headers. */
  datatype ErrorResponse = ErrorResponse(
    body: seq<(string, BodyValue)>,
    status: int,
    headers: Option<Headers>)

  /** `_cognito_auth_error_handler`: renders the error for the HTTP layer. */
  function HandleError(e: CognitoAuthError): (r: ErrorResponse)
    ensures |r.body| == 3
    ensures r.body[0].0 == "status_code" && r.body[1].0 == "error" && r.body[2].0 == "description"
    ensures r.body[0].1 == IntField(e.statusCode)
    ensures r.body[1].1 == TextField(e.error) && r.body[2].1 == TextField(e.description)
    ensures r.status == e.statusCode && r.headers == e.headers
  {
    ErrorResponse(
      [("status_code", IntField(e.statusCode)),
       ("error", TextField(e.error)),
       ("description", TextField(e.description))],
      e.statusCode,
      e.headers)
  }

  /** Reads an error back from a rendered response whose body has the handler's shape. */
  function ErrorOfResponse(r: ErrorResponse): (e: Option<CognitoAuthError>)
    ensures e.Some? ==> e.value.statusCode == r.status && e.value.headers == r.headers
  {
    if |r.body| == 3
       && r.body[0].0 == "status_code" && r.body[0].1.IntField?
       && r.body[1].0 == "error" && r.body[1].1.TextField?
       && r.body[2].0 == "description" && r.body[2].1.TextField?
       && r.body[0].1.n == r.status
    then Some(CognitoAuthError(r.body[1].1.text, r.body[2].1.text, r.status, r.headers))
    else None
  }

  /** The handler loses nothing: the response determines the error it came from. */
  lemma HandleErrorRoundTrip(e: CognitoAuthError)
    ensures ErrorOfResponse(HandleError(e)) == Some(e)
  {
  }

  /** Low-level Python exceptions the code can raise instead of a typed error. */
  datatype PyCrash = AttributeError | IndexError

  /**
   * The ways a request's authentication can end without a token or user: a
   * typed error, a low-level crash, or an exception other than
   * `CognitoJWTException` raised by the token decoder, which passes through
   * unwrapped.
   */
  datatype Failure = AuthFailure(err: CognitoAuthError) | Crash(kind: PyCrash) | DecoderException(exception: string)
}
