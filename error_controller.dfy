// The global error handler of the web application: the last middleware of
// the chain, which turns any error that reached it into one HTTP response.
//
// It fills in a default status code and status, then
//   * in development answers with the error exactly as it is;
//   * in production first recognises five kinds of error by their `name` or
//     `code` (an invalid identifier, a duplicate key, a failed validation, a
//     bad or an expired login token) and replaces each by an operational
//     error with a fixed status code and a readable message, then hides
//     every error that is not operational behind a generic message;
//   * in any other environment answers nothing.
// A request whose URL starts with `/api` gets JSON; any other request gets
// the rendered error page.

module ErrorController {
  import opened JsText

  /** The properties of a thrown error that the handler reads. `None`
      stands for a property that is `undefined`. */
  datatype Error = Error(
    name: string,
    message: string,
    statusCode: Option<int>,
    status: Option<string>,
    isOperational: bool,
    code: Option<int>,
    // The invalid path and value of a database cast error.
    path: string,
    value: string,
    // The duplicated key of a unique-index violation, as field name to value.
    keyValue: Option<map<string, string>>,
    // The message of every failed field of a validation error, in order.
    fieldMessages: seq<string>,
    stack: string)

  /** The thrown error as a mutable object: the handler writes its default
      status code and status into it before anything else. */
  class ErrorObject {
    var name: string
    var message: string
    var statusCode: Option<int>
    var status: Option<string>
    var isOperational: bool
    var code: Option<int>
    var path: string
    var value: string
    var keyValue: Option<map<string, string>>
    var fieldMessages: seq<string>
    var stack: string

    constructor(e: Error)
      ensures Snapshot() == e
    {
      name := e.name;
      message := e.message;
      statusCode := e.statusCode;
      status := e.status;
      isOperational := e.isOperational;
      code := e.code;
      path := e.path;
      value := e.value;
      keyValue := e.keyValue;
      fieldMessages := e.fieldMessages;
      stack := e.stack;
    }

    /** The current properties of the object, as a value. */
    function Snapshot(): Error
      reads this
    {
      Error(name, message, statusCode, status, isOperational, code, path, value,
            keyValue, fieldMessages, stack)
    }
  }

  // ---------------------------------------------------------------------
  // Defaults

  /** `err.statusCode || 500`: a missing or zero status code is falsy. */
  predicate HasStatusCode(e: Error) {
    e.statusCode.Some? && e.statusCode.value != 0
  }

  /** `err.status || 'error'`: a missing or empty status is falsy. */
  predicate HasStatus(e: Error) {
    e.status.Some? && e.status.value != ""
  }

  /** Both properties the responses read are present. */
  predicate Filled(e: Error) {
    e.statusCode.Some? && e.status.Some?
  }

  /** The error after the handler has written its defaults into it. */
  function FillDefaults(e: Error): (f: Error)
    ensures Filled(f)
    ensures HasStatusCode(e) ==> f.statusCode == e.statusCode
    ensures !HasStatusCode(e) ==> f.statusCode == Some(500)
    ensures HasStatus(e) ==> f.status == e.status
    ensures !HasStatus(e) ==> f.status == Some("error")
    ensures f.(statusCode := e.statusCode, status := e.status) == e
  {
    e.(statusCode := if HasStatusCode(e) then e.statusCode else Some(500),
       status := if HasStatus(e) then e.status else Some("error"))
  }

  // ---------------------------------------------------------------------
  // The five classifiers

  /** `new AppError(message, statusCode)`: an operational error with the
      given status code; its `status` is derived from the status code by
      `statusOf`. Its name is that of every `Error` and it has no `code`. */
  function AppError(message: string, statusCode: int, statusOf: int -> string): (e: Error)
    ensures e.message == message && e.statusCode == Some(statusCode)
    ensures e.status == Some(statusOf(statusCode)) && e.isOperational
    ensures e.name == "Error" && e.code == None
  {
    Error("Error", message, Some(statusCode), Some(statusOf(statusCode)), true, None,
          "", "", None, [], "")
  }

  /** A template literal's rendering of a property that may be `undefined`. */
  function Interpolate(v: Option<string>): string
  {
    match v
    case Some(s) => s
    case None => "undefined"
  }

  /** A value that could not be cast to its schema type, such as a malformed
      document identifier. */
  function HandleCastErrorDB(e: Error, statusOf: int -> string): (r: Error)
    ensures r.statusCode == Some(400) && r.status == Some(statusOf(400)) && r.isOperational
    ensures r.message == "Invalid " + e.path + ": " + e.value
    ensures KindOf(r) == Unclassified
  {
    AppError("Invalid " + e.path + ": " + e.value, 400, statusOf)
  }

  /** A unique-index violation. `keyValue` is what the production copy of
      the error holds under that property: the `name` entry of the
      duplicated key, if it has one. */
  function HandleDuplicateError(keyValue: Option<string>, statusOf: int -> string): (r: Error)
    ensures r.statusCode == Some(409) && r.status == Some(statusOf(409)) && r.isOperational
    ensures r.message == "Duplicate field value: " + Interpolate(keyValue) + ". Please use another value"
    ensures KindOf(r) == Unclassified
  {
    AppError("Duplicate field value: " + Interpolate(keyValue) + ". Please use another value", 409, statusOf)
  }

  /** A login token that does not verify. */
  function HandleJWTError(statusOf: int -> string): (r: Error)
    ensures r.statusCode == Some(401) && r.status == Some(statusOf(401)) && r.isOperational
    ensures r.message == "Invalid token. Please login again!"
    ensures KindOf(r) == Unclassified
  {
    AppError("Invalid token. Please login again!", 401, statusOf)
  }

  /** A login token past its expiry time. */
  function HandleJWTExpiredError(statusOf: int -> string): (r: Error)
    ensures r.statusCode == Some(401) && r.status == Some(statusOf(401)) && r.isOperational
    ensures r.message == "Your token has expired. Please login again!"
    ensures KindOf(r) == Unclassified
  {
    AppError("Your token has expired. Please login again!", 401, statusOf)
  }

  /** A failed schema validation: every field message, joined by `. `. */
  function HandleValidationError(e: Error, statusOf: int -> string): (r: Error)
    ensures r.statusCode == Some(400) && r.status == Some(statusOf(400)) && r.isOperational
    ensures r.message == "Invalid input data. " + Join(e.fieldMessages, ". ")
    ensures KindOf(r) == Unclassified
  {
    AppError("Invalid input data. " + Join(e.fieldMessages, ". "), 400, statusOf)
  }

  /** `err.keyValue?.name`: `undefined` when there is no key or it has no
      `name` entry. */
  function KeyValueName(keyValue: Option<map<string, string>>): (r: Option<string>)
    ensures r.Some? <==> keyValue.Some? && "name" in keyValue.value
    ensures r.Some? ==> r.value == keyValue.value["name"]
  {
    match keyValue
    case Some(m) => if "name" in m then Some(m["name"]) else None
    case None => None
  }

  /** The production reclassification: five checks in a fixed order, each
      on the result of the one before. */
  function Classify(e: Error, statusOf: int -> string): (r: Error)
    ensures KindOf(e) == Unclassified ==> r == e
    ensures KindOf(e) != Unclassified ==>
      r.isOperational && r.statusCode.Some? && r.statusCode.value in {400, 401, 409}
    ensures KindOf(r) == Unclassified
  {
    var e1 := if e.name == "CastError" then HandleCastErrorDB(e, statusOf) else e;
    var e2 := if e1.code == Some(11000) then HandleDuplicateError(KeyValueName(e.keyValue), statusOf) else e1;
    var e3 := if e2.name == "ValidationError" then HandleValidationError(e2, statusOf) else e2;
    var e4 := if e3.name == "JsonWebTokenError" then HandleJWTError(statusOf) else e3;
    if e4.name == "TokenExpiredError" then HandleJWTExpiredError(statusOf) else e4
  }

  /** The kinds of error the production handler recognises. */
  datatype Kind = CastInvalid | DuplicateKey | ValidationFailed | TokenInvalid | TokenExpired | Unclassified

  /** The kind of an error: the first of the five tests it passes. */
  function KindOf(e: Error): Kind
  {
    if e.name == "CastError" then CastInvalid
    else if e.code == Some(11000) then DuplicateKey
    else if e.name == "ValidationError" then ValidationFailed
    else if e.name == "JsonWebTokenError" then TokenInvalid
    else if e.name == "TokenExpiredError" then TokenExpired
    else Unclassified
  }

  // ---------------------------------------------------------------------
  // Responses

  const Title: string := "Something went wrong"

  /** The JSON body of an error response. */
  datatype Body =
    | DevBody(status: string, error: Error, message: string, stack: string)
    | ProdBody(status: string, message: string)

  /** What the handler sends: JSON, the rendered error page, or nothing. */
  datatype Response =
    | Json(statusCode: int, body: Body)
    | Render(statusCode: int, title: string, msg: string)
    | NoResponse

  /** `req.originalUrl.startsWith('/api')`. */
  predicate IsApi(url: string) {
    "/api" <= url
  }

  /** The development response: the whole error for an API request, its
      message on the page otherwise. */
  function SendErrorDev(e: Error, url: string): (r: Response)
    requires Filled(e)
    ensures r.Json? <==> IsApi(url)
    ensures r.Json? ==> r == Json(e.statusCode.value, DevBody(e.status.value, e, e.message, e.stack))
    ensures r.Render? ==> r == Render(e.statusCode.value, Title, e.message)
    ensures !r.NoResponse?
  {
    if IsApi(url) then Json(e.statusCode.value, DevBody(e.status.value, e, e.message, e.stack))
    else Render(e.statusCode.value, Title, e.message)
  }

  /** The production response: status and message of an operational error;
      a generic 500 for any other error of an API request; the page with a
      generic message, at the error's own status code, for any other error
      of a page request. */
  function SendErrorProd(e: Error, url: string): (r: Response)
    requires Filled(e)
    ensures r.Json? <==> IsApi(url)
    ensures e.isOperational && r.Json? ==> r == Json(e.statusCode.value, ProdBody(e.status.value, e.message))
    ensures !e.isOperational && r.Json? ==> r == Json(500, ProdBody("error", "Something went wrong!"))
    ensures r.Render? ==> r.statusCode == e.statusCode.value && r.title == Title
    ensures r.Render? ==> r.msg == if e.isOperational then e.message else "Please try again later"
    ensures !r.NoResponse?
  {
    if IsApi(url) then
      if e.isOperational then Json(e.statusCode.value, ProdBody(e.status.value, e.message))
      else Json(500, ProdBody("error", "Something went wrong!"))
    else if e.isOperational then Render(e.statusCode.value, Title, e.message)
    else Render(e.statusCode.value, Title, "Please try again later")
  }

  /** Everything the handler does, as a function of the error it received,
      the request URL and the environment it runs in. */
  function Respond(e: Error, url: string, env: string, statusOf: int -> string): (r: Response)
    ensures r.NoResponse? <==> env != "development" && env != "production"
    ensures env == "development" ==> r.statusCode == FillDefaults(e).statusCode.value
    ensures env == "development" && r.Json? ==> r.body.DevBody? && r.body.error == FillDefaults(e)
    ensures env == "development" && r.Render? ==> r.msg == e.message
    ensures env == "production" && KindOf(e) == Unclassified ==> r == SendErrorProd(FillDefaults(e), url)
    ensures env == "production" && KindOf(e) != Unclassified ==>
      r.statusCode in {400, 401, 409} && (r.Json? ==> r.body.ProdBody?)
  {
    var f := FillDefaults(e);
    if env == "development" then SendErrorDev(f, url)
    else if env == "production" then SendErrorProd(Classify(f, statusOf), url)
    else NoResponse
  }

  /** The handler: writes the defaults into the error object, then in
      production builds a copy of it and runs the classifiers over the copy
      one after the other. */
  method GlobalErrorHandler(err: ErrorObject, url: string, env: string, statusOf: int -> string)
    returns (res: Response)
    modifies err
    ensures err.Snapshot() == FillDefaults(old(err.Snapshot()))
    ensures res == Respond(old(err.Snapshot()), url, env, statusOf)
  {
    if !HasStatusCode(err.Snapshot()) {
      err.statusCode := Some(500);
    }
    if !HasStatus(err.Snapshot()) {
      err.status := Some("error");
    }
    if env == "development" {
      res := SendErrorDev(err.Snapshot(), url);
    } else if env == "production" {
      var error := err.Snapshot();
      var keyValueName := KeyValueName(err.keyValue);
      if error.name == "CastError" {
        error := HandleCastErrorDB(error, statusOf);
      }
      if error.code == Some(11000) {
        error := HandleDuplicateError(keyValueName, statusOf);
      }
      if error.name == "ValidationError" {
        error := HandleValidationError(error, statusOf);
      }
      if error.name == "JsonWebTokenError" {
        error := HandleJWTError(statusOf);
      }
      if error.name == "TokenExpiredError" {
        error := HandleJWTExpiredError(statusOf);
      }
      res := SendErrorProd(error, url);
    } else {
      res := NoResponse;
    }
  }

  // ---------------------------------------------------------------------
  // Properties

  /** The checks run in sequence, but a replaced error is named `Error` and
      has no code, so no later check fires: the outcome is decided by the
      first test the error passes. An unrecognised error goes through
      unchanged. */
  lemma ClassifyIsFirstMatch(e: Error, statusOf: int -> string)
    ensures KindOf(e) == CastInvalid ==> Classify(e, statusOf) == HandleCastErrorDB(e, statusOf)
    ensures KindOf(e) == DuplicateKey ==>
      Classify(e, statusOf) == HandleDuplicateError(KeyValueName(e.keyValue), statusOf)
    ensures KindOf(e) == ValidationFailed ==> Classify(e, statusOf) == HandleValidationError(e, statusOf)
    ensures KindOf(e) == TokenInvalid ==> Classify(e, statusOf) == HandleJWTError(statusOf)
    ensures KindOf(e) == TokenExpired ==> Classify(e, statusOf) == HandleJWTExpiredError(statusOf)
    ensures KindOf(e) == Unclassified ==> Classify(e, statusOf) == e
  {
  }

  /** A recognised error becomes operational with status 400, 401 or 409
      and keeps that status; an unrecognised one keeps its status code and
      its own operational flag. */
  lemma ClassifiedStatus(e: Error, statusOf: int -> string)
    ensures var c := Classify(e, statusOf);
      KindOf(e) != Unclassified ==> c.isOperational && c.statusCode.Some? && c.statusCode.value in {400, 401, 409}
    ensures var c := Classify(e, statusOf);
      KindOf(e) == Unclassified ==> c.statusCode == e.statusCode && c.isOperational == e.isOperational
    ensures Filled(e) ==> Filled(Classify(e, statusOf))
  {
    ClassifyIsFirstMatch(e, statusOf);
  }

  /** A request is answered with JSON exactly when its URL starts with
      `/api`, and with the page exactly when it does not, in either mode. */
  lemma ResponseFormFollowsUrl(e: Error, url: string, env: string, statusOf: int -> string)
    requires env == "development" || env == "production"
    ensures Respond(e, url, env, statusOf).Json? <==> IsApi(url)
    ensures Respond(e, url, env, statusOf).Render? <==> !IsApi(url)
  {
    ClassifiedStatus(FillDefaults(e), statusOf);
  }

  /** In development nothing is reclassified: a database or token error is
      answered with its own (defaulted) status code, status, message and
      stack, and with the error itself. */
  lemma DevelopmentShowsError(e: Error, url: string, statusOf: int -> string)
    ensures var r := Respond(e, url, "development", statusOf);
      var f := FillDefaults(e);
      IsApi(url) ==> r == Json(f.statusCode.value, DevBody(f.status.value, f, e.message, e.stack))
    ensures var r := Respond(e, url, "development", statusOf);
      !IsApi(url) ==> r == Render(FillDefaults(e).statusCode.value, Title, e.message)
  {
  }

  /** In production an error that is not operational, and not one of the
      five recognised kinds, never shows its own message: API clients get a
      generic 500, pages a generic text at the error's status code. */
  lemma ProductionHidesInternals(e: Error, url: string, statusOf: int -> string)
    requires !e.isOperational && KindOf(e) == Unclassified
    ensures var r := Respond(e, url, "production", statusOf);
      IsApi(url) ==> r == Json(500, ProdBody("error", "Something went wrong!"))
    ensures var r := Respond(e, url, "production", statusOf);
      !IsApi(url) ==> r == Render(FillDefaults(e).statusCode.value, Title, "Please try again later")
  {
    ClassifyIsFirstMatch(FillDefaults(e), statusOf);
  }

  /** In production a page is always rendered at the error's own status
      code (after reclassification), never at a forced 500. */
  lemma ProductionPageKeepsStatus(e: Error, url: string, statusOf: int -> string)
    requires !IsApi(url)
    ensures Respond(e, url, "production", statusOf).Render?
    ensures Respond(e, url, "production", statusOf).statusCode
      == Classify(FillDefaults(e), statusOf).statusCode.value
  {
    ClassifiedStatus(FillDefaults(e), statusOf);
  }

  /** An operational error keeps its status and message in production. */
  lemma ProductionShowsOperational(e: Error, url: string, statusOf: int -> string)
    requires e.isOperational && KindOf(e) == Unclassified
    ensures var r := Respond(e, url, "production", statusOf);
      var f := FillDefaults(e);
      IsApi(url) ==> r == Json(f.statusCode.value, ProdBody(f.status.value, e.message))
    ensures var r := Respond(e, url, "production", statusOf);
      !IsApi(url) ==> r == Render(FillDefaults(e).statusCode.value, Title, e.message)
  {
    ClassifyIsFirstMatch(FillDefaults(e), statusOf);
  }

  /** Outside development and production the handler sends nothing. */
  lemma OtherEnvironmentSendsNothing(e: Error, url: string, env: string, statusOf: int -> string)
    requires env != "development" && env != "production"
    ensures Respond(e, url, env, statusOf) == NoResponse
  {
  }

  /** A malformed identifier in production: 400 with the path and value. */
  lemma ProductionCastError(e: Error, url: string, statusOf: int -> string)
    requires e.name == "CastError" && IsApi(url)
    ensures Respond(e, url, "production", statusOf)
      == Json(400, ProdBody(statusOf(400), "Invalid " + e.path + ": " + e.value))
  {
    ClassifyIsFirstMatch(FillDefaults(e), statusOf);
  }

  /** A duplicate tour name in production: 409 naming the duplicated value,
      whatever the error's own status code and operational flag. */
  lemma ProductionDuplicateName(e: Error, url: string, statusOf: int -> string, dup: string)
    requires e.name != "CastError" && e.code == Some(11000)
    requires e.keyValue == Some(map["name" := dup]) && IsApi(url)
    ensures Respond(e, url, "production", statusOf)
      == Json(409, ProdBody(statusOf(409), "Duplicate field value: " + dup + ". Please use another value"))
  {
    ClassifyIsFirstMatch(FillDefaults(e), statusOf);
  }

  /** A second tour named `Everest` is answered 409, with a message that
      starts by naming the duplicated value. */
  lemma ProductionDuplicateEverest(e: Error, url: string, statusOf: int -> string)
    requires e.name == "MongoServerError" && e.code == Some(11000)
    requires e.keyValue == Some(map["name" := "Everest"]) && IsApi(url)
    ensures var r := Respond(e, url, "production", statusOf);
      r.Json? && r.statusCode == 409 && "Duplicate field value: Everest" <= r.body.message
  {
    ProductionDuplicateName(e, url, statusOf, "Everest");
    var head := "Duplicate field value: " + "Everest";
    assert head == "Duplicate field value: Everest";
    assert head <= head + ". Please use another value";
  }

  /** Only the `name` entry of a duplicated key is reported: a duplicate on
      any other field is reported as the value `undefined`. */
  lemma DuplicateOtherFieldIsUndefined(e: Error, url: string, statusOf: int -> string, field: string, dup: string)
    requires e.name != "CastError" && e.code == Some(11000) && field != "name"
    requires e.keyValue == Some(map[field := dup]) && IsApi(url)
    ensures Respond(e, url, "production", statusOf)
      == Json(409, ProdBody(statusOf(409), "Duplicate field value: " + "undefined" + ". Please use another value"))
  {
    assert "name" !in map[field := dup];
    assert KeyValueName(e.keyValue) == None;
    ClassifyIsFirstMatch(FillDefaults(e), statusOf);
  }

  /** A failed validation in production reports 400 with every field
      message of the error in its message. */
  lemma ProductionValidationError(e: Error, url: string, statusOf: int -> string, i: nat)
    requires e.name == "ValidationError" && e.code != Some(11000) && i < |e.fieldMessages|
    ensures var c := Classify(FillDefaults(e), statusOf);
      c.statusCode == Some(400) && c.isOperational
    ensures exists before, after ::
      Classify(FillDefaults(e), statusOf).message == "Invalid input data. " + before + e.fieldMessages[i] + after
  {
    var f := FillDefaults(e);
    ClassifyIsFirstMatch(f, statusOf);
    JoinKeepsEach(e.fieldMessages, ". ", i);
    var before, after :| Join(e.fieldMessages, ". ") == before + e.fieldMessages[i] + after;
    assert Classify(f, statusOf).message == "Invalid input data. " + before + e.fieldMessages[i] + after;
  }

  /** Both login-token errors are answered 401 in production. */
  lemma ProductionTokenErrors(e: Error, url: string, statusOf: int -> string)
    requires KindOf(e) == TokenInvalid || KindOf(e) == TokenExpired
    requires IsApi(url)
    ensures var r := Respond(e, url, "production", statusOf);
      r.Json? && r.statusCode == 401 && r.body.ProdBody?
    ensures var r := Respond(e, url, "production", statusOf);
      r.body.message == if KindOf(e) == TokenInvalid then "Invalid token. Please login again!"
                        else "Your token has expired. Please login again!"
  {
    ClassifyIsFirstMatch(FillDefaults(e), statusOf);
  }
}
