/**
 * The error-handling middleware of src/middleware/error.js: an ordered chain
 * of tests on the error's `name` and `code`, the first that matches deciding
 * the status and the body; anything unmatched is 500, with the message shown
 * only in development. The custom error classes only set `name` (and, for a
 * missing field, build the message).
 */
module ErrorHandling {
  import opened Common

  /** An error's `code`: absent, a number (MongoDB's) or a string (multer's). */
  datatype Code = NoCode | NumCode(n: int) | TextCode(s: string)

  /** A `ValidationError` entry, and a `{ field, message }` of the response; `field` may be undefined. */
  datatype FieldError = FieldError(field: Option<string>, message: string)

  /** The parts of a thrown error that the handler reads. */
  datatype Failure = Failure(
    name: string,
    message: string,
    code: Code,
    entries: seq<FieldError>,   // `Object.values(err.errors)`, each with its `path`
    keyPattern: seq<string>)    // `Object.keys(err.keyPattern)`

  datatype Body = Errors(errors: seq<FieldError>) | Message(error: string)

  datatype Reply = Reply(status: int, body: Body)

  /** `new Error(message)` with the `name` a custom class sets. */
  function Named(name: string, message: string): (e: Failure)
    ensures e.name == name && e.message == message && e.code == NoCode
  {
    Failure(name, message, NoCode, [], [])
  }

  function NotFoundError(message: string): Failure { Named("NotFoundError", message) }
  function UnauthorizedError(message: string): Failure { Named("UnauthorizedError", message) }
  function ForbiddenError(message: string): Failure { Named("ForbiddenError", message) }
  function ServiceUnavailableError(message: string): Failure { Named("ServiceUnavailableError", message) }

  /** `new MissingRequiredField(field)`: the message names the field. */
  function MissingRequiredField(field: string): (e: Failure)
    ensures e.name == "MissingRequiredField" && e.message == "Missing required field: " + field
  {
    Named("MissingRequiredField", "Missing required field: " + field)
  }

  /** The number of tests in the chain; rule `RuleCount` is the 500 fallback. */
  const RuleCount := 11

  /** Whether test `i` of the chain matches `err`. */
  predicate Matches(err: Failure, i: nat) {
    match i
    case 0 => err.name == "ValidationError"
    case 1 => err.code == NumCode(11000)
    case 2 => err.name == "JsonWebTokenError"
    case 3 => err.name == "TokenExpiredError"
    case 4 => err.code == TextCode("LIMIT_FILE_SIZE")
    case 5 => err.code == TextCode("LIMIT_UNEXPECTED_FILE")
    case 6 => err.name == "MissingRequiredField"
    case 7 => err.name == "NotFoundError"
    case 8 => err.name == "UnauthorizedError"
    case 9 => err.name == "ForbiddenError"
    case 10 => err.name == "ServiceUnavailableError"
    case _ => true
  }

  /** The first test that matches, `RuleCount` when none does. */
  function FirstRule(err: Failure, from: nat): (i: nat)
    requires from <= RuleCount
    ensures from <= i <= RuleCount && Matches(err, i)
    ensures forall j :: from <= j < i ==> !Matches(err, j)
    decreases RuleCount - from
  {
    if from == RuleCount || Matches(err, from) then from else FirstRule(err, from + 1)
  }

  /** The `{ field, message }` entry of a duplicate-key error. */
  function DuplicateKey(keyPattern: seq<string>): (e: FieldError)
    ensures |keyPattern| > 0 ==> e == FieldError(Some(keyPattern[0]), "A record with this " + keyPattern[0] + " already exists")
    ensures |keyPattern| == 0 ==> e.field.None?
  {
    if |keyPattern| > 0 then FieldError(Some(keyPattern[0]), "A record with this " + keyPattern[0] + " already exists")
    else FieldError(None, "A record with this undefined already exists")
  }

  /** The reply of each test of the chain, and of the fallback. */
  function RuleReply(i: nat, err: Failure, development: bool): Reply {
    match i
    case 0 => Reply(400, Errors(err.entries))
    case 1 => Reply(400, Errors([DuplicateKey(err.keyPattern)]))
    case 2 => Reply(401, Message("Invalid token"))
    case 3 => Reply(401, Message("Token expired"))
    case 4 => Reply(400, Message("File size too large"))
    case 5 => Reply(400, Message("Unexpected file upload"))
    case 6 => Reply(400, Message(err.message))
    case 7 => Reply(404, Message(err.message))
    case 8 => Reply(401, Message(err.message))
    case 9 => Reply(403, Message(err.message))
    case 10 => Reply(503, Message(err.message))
    case _ => Reply(500, Message(if development then err.message else "An unexpected error occurred"))
  }

  /** `errorHandler`: the chain of tests, in the order the middleware runs them. */
  function Classify(err: Failure, development: bool): (r: Reply)
    ensures r.status in {400, 401, 403, 404, 500, 503}
    ensures r.status == 500 ==> r.body == Message(if development then err.message else "An unexpected error occurred")
    ensures r.status == 500 ==> !Matches(err, 0) && !Matches(err, 6) && !Matches(err, 7)
  {
    if err.name == "ValidationError" then Reply(400, Errors(err.entries))
    else if err.code == NumCode(11000) then Reply(400, Errors([DuplicateKey(err.keyPattern)]))
    else if err.name == "JsonWebTokenError" then Reply(401, Message("Invalid token"))
    else if err.name == "TokenExpiredError" then Reply(401, Message("Token expired"))
    else if err.code == TextCode("LIMIT_FILE_SIZE") then Reply(400, Message("File size too large"))
    else if err.code == TextCode("LIMIT_UNEXPECTED_FILE") then Reply(400, Message("Unexpected file upload"))
    else if err.name == "MissingRequiredField" then Reply(400, Message(err.message))
    else if err.name == "NotFoundError" then Reply(404, Message(err.message))
    else if err.name == "UnauthorizedError" then Reply(401, Message(err.message))
    else if err.name == "ForbiddenError" then Reply(403, Message(err.message))
    else if err.name == "ServiceUnavailableError" then Reply(503, Message(err.message))
    else Reply(500, Message(if development then err.message else "An unexpected error occurred"))
  }

  /**
   * The chain is the table read top-down: the reply is that of the first test
   * that matches, and the fallback 500 is reached exactly when none does.
   */
  lemma ClassifyIsFirstMatch(err: Failure, development: bool)
    ensures Classify(err, development) == RuleReply(FirstRule(err, 0), err, development)
    ensures Classify(err, development).status == 500 <==> FirstRule(err, 0) == RuleCount
  {
    var i := FirstRule(err, 0);
    assert Matches(err, i);
    if i >= 1 { assert !Matches(err, 0); }
    if i >= 2 { assert !Matches(err, 1); }
    if i >= 3 { assert !Matches(err, 2); }
    if i >= 4 { assert !Matches(err, 3); }
    if i >= 5 { assert !Matches(err, 4); }
    if i >= 6 { assert !Matches(err, 5); }
    if i >= 7 { assert !Matches(err, 6); }
    if i >= 8 { assert !Matches(err, 7); }
    if i >= 9 { assert !Matches(err, 8); }
    if i >= 10 { assert !Matches(err, 9); }
    if i >= 11 { assert !Matches(err, 10); }
  }

  /** Each custom class is answered with its own status and its own message. */
  lemma CustomErrorsClassified(message: string, field: string, development: bool)
    ensures Classify(NotFoundError(message), development) == Reply(404, Message(message))
    ensures Classify(UnauthorizedError(message), development) == Reply(401, Message(message))
    ensures Classify(ForbiddenError(message), development) == Reply(403, Message(message))
    ensures Classify(ServiceUnavailableError(message), development) == Reply(503, Message(message))
    ensures Classify(MissingRequiredField(field), development) == Reply(400, Message("Missing required field: " + field))
  {
  }

  /** A validation error lists one entry per invalid path, in order, whatever its code. */
  lemma ValidationListsEveryEntry(err: Failure, development: bool)
    requires err.name == "ValidationError"
    ensures Classify(err, development) == Reply(400, Errors(err.entries))
  {
  }

  /** The first match wins: a token error that also carries a file-upload code is still a token error. */
  lemma EarlierTestWins(message: string, development: bool)
    ensures Classify(Failure("TokenExpiredError", message, TextCode("LIMIT_FILE_SIZE"), [], []), development)
      == Reply(401, Message("Token expired"))
    ensures Classify(Failure("NotFoundError", message, NumCode(11000), [], ["email"]), development)
      == Reply(400, Errors([DuplicateKey(["email"])]))
    ensures DuplicateKey(["email"]).field == Some("email")
  {
  }

  /** An unrecognised error hides its message outside development. */
  lemma UnknownErrorHidden(err: Failure)
    requires FirstRule(err, 0) == RuleCount
    ensures Classify(err, true) == Reply(500, Message(err.message))
    ensures Classify(err, false) == Reply(500, Message("An unexpected error occurred"))
  {
  }
}
