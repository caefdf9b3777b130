/** The errors the core raises or lets through. The application's own error
    classes (`BadRequestError`, `UnauthorizedError`, `NotFoundError`,
    `ConflictError`) carry a `statusCode`; errors from Mongoose, MongoDB,
    jsonwebtoken and the JavaScript runtime carry none. */
module Errors {
  import opened Wrappers
  import Crypto
  import Js

  /** One failed path of a Mongoose validation, with the validator's message. */
  datatype FieldFailure = FieldFailure(path: string, message: string)

  datatype Error =
    | BadRequest(message: string)
    | Unauthorized(message: string)
    | NotFound(message: string)
    | Conflict(message: string)
      /** Mongoose `ValidationError` raised by `save` of a document of `model`, or by
          update validators, which know no document and leave `model` empty. */
    | Validation(model: string, failures: seq<FieldFailure>)
      /** MongoDB duplicate-key error (code E11000) on a unique index. */
    | DuplicateKey(collection: string, index: string)
      /** Mongoose `CastError`: a query value that does not cast to the path's type. */
    | Cast(kind: string, value: string, path: string, model: string)
      /** What `jwt.verify` throws. */
    | Jwt(reason: Crypto.JwtError)
      /** A `TypeError` from the JavaScript runtime. */
    | Type(message: string)
      /** The `URIError` `decodeURIComponent` throws on a malformed escape. */
    | UriMalformed

  /** The `statusCode` property of the error object, absent for foreign errors. */
  function StatusCode(e: Error): (c: Option<int>)
    ensures c.Some? <==> (e.BadRequest? || e.Unauthorized? || e.NotFound? || e.Conflict?)
  {
    match e
    case BadRequest(_) => Some(400)
    case Unauthorized(_) => Some(401)
    case NotFound(_) => Some(404)
    case Conflict(_) => Some(409)
    case _ => None
  }

  function FailureText(f: FieldFailure): string
  {
    f.path + ": " + f.message
  }

  /** The `message` property of the error object. */
  function Message(e: Error): string
  {
    match e
    case BadRequest(m) => m
    case Unauthorized(m) => m
    case NotFound(m) => m
    case Conflict(m) => m
    case Validation(model, failures) =>
      (if model == "" then "Validation failed: " else model + " validation failed: ") +
      Js.Join(seq(|failures|, i requires 0 <= i < |failures| => FailureText(failures[i])), ", ")
    case DuplicateKey(collection, index) =>
      "E11000" + " duplicate key error collection: " + collection + " index: " + index
    case Cast(kind, value, path, model) =>
      "Cast to " + kind + " failed for value \"" + value + "\" at path \"" + path + "\" for model \"" + model + "\""
    case Jwt(reason) =>
      (match reason
       case JwtMalformed => "jwt malformed"
       case JwtInvalidSignature => "invalid signature"
       case JwtExpired => "jwt expired")
    case Type(m) => m
    case UriMalformed => "URI malformed"
  }

  /** A duplicate-key error is recognisable by the text "E11000" in its message. */
  lemma DuplicateKeyMentionsCode(collection: string, index: string)
    ensures Js.Includes(Message(DuplicateKey(collection, index)), "E11000")
  {
    var m := Message(DuplicateKey(collection, index));
    assert m == "E11000" + (" duplicate key error collection: " + collection + " index: " + index);
    assert Js.OccursAt(m, "E11000", 0);
  }
}
