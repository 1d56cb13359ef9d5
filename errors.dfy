/**
 * Error classification in `src/lib/errorHandler.ts`. A thrown value is an
 * `Error` instance (possibly one of the `AppError` classes), a string, a
 * plain object, or some other primitive; the helpers turn it into a
 * message, a code and an HTTP status.
 */
module Errors {
  import opened Wrappers
  import opened Text
  import opened Records

  /**
   * A plain `Error`, or an `AppError` with the fields its constructor sets
   * once. The `AppError` constructor resets the prototype to
   * `AppError.prototype` (line 144), so an instance of a subclass is an
   * `AppError` but not an instance of its own subclass: only its `name`
   * and its `code` tell the subclasses apart.
   */
  datatype ErrorClass = PlainError | AppErr(code: string, statusCode: int, isOperational: bool)

  /** An `Error` instance: its `name`, `message`, class, and any further own properties. */
  datatype ErrorObject = ErrorObject(name: string, message: string, cls: ErrorClass, props: Record)

  /** Whatever a `catch` can receive. */
  datatype Thrown =
    | ErrorValue(err: ErrorObject)
    | StringValue(s: string)
    | ObjectValue(fields: Record)
    | OtherValue

  const UnknownErrorMessage := "알 수 없는 오류가 발생했습니다"
  const InvalidInputMessage := "유효하지 않은 입력입니다"

  // ------------------------------------------------------------------ messages

  /** Lines 3-17 */
  function HandleApiError(e: Thrown): (msg: string)
    ensures e.ErrorValue? ==> msg == e.err.message
    ensures e.StringValue? ==> msg == e.s
    ensures e.ObjectValue? && "message" in e.fields ==> msg == Stringify(Some(e.fields["message"]))
    ensures e.OtherValue? || (e.ObjectValue? && "message" !in e.fields) ==> msg == UnknownErrorMessage
  {
    match e
    case ErrorValue(err) => err.message
    case StringValue(s) => s
    case ObjectValue(fields) => if "message" in fields then Stringify(Some(fields["message"])) else UnknownErrorMessage
    case OtherValue => UnknownErrorMessage
  }

  /** `key in error` for an `Error` instance: `message` and `name` come with every error, `code` with every `AppError`. */
  predicate ErrorHasKey(err: ErrorObject, key: string) {
    key == "message" || key == "name" || (err.cls.AppErr? && (key == "code" || key == "statusCode" || key == "isOperational")) ||
    key in err.props
  }

  /** Lines 32-40: a non-null object with `message`, `code` and `timestamp`. */
  predicate IsApiError(e: Thrown) {
    match e
    case ErrorValue(err) => ErrorHasKey(err, "message") && ErrorHasKey(err, "code") && ErrorHasKey(err, "timestamp")
    case ObjectValue(fields) => "message" in fields && "code" in fields && "timestamp" in fields
    case _ => false
  }

  /**
   * Only objects qualify; a plain object needs all three keys, and an `Error`
   * (whose `message` always resolves) needs a `timestamp` property and, unless
   * it is an `AppError`, a `code` property.
   */
  lemma ApiErrorShape(e: Thrown)
    ensures e.StringValue? || e.OtherValue? ==> !IsApiError(e)
    ensures e.ObjectValue? ==> (IsApiError(e) <==> "message" in e.fields && "code" in e.fields && "timestamp" in e.fields)
    ensures e.ErrorValue? ==>
      (IsApiError(e) <==> "timestamp" in e.err.props && (e.err.cls.AppErr? || "code" in e.err.props))
  {
  }

  /** Lines 19-30: the object `createApiError` builds; `details` is only written when given. */
  function CreateApiError(message: string, code: string, details: Option<Value>, isoNow: string): (r: Record)
    ensures "message" in r && "code" in r && "timestamp" in r
    ensures r["message"] == Str(message) && r["code"] == Str(code) && r["timestamp"] == Str(isoNow)
    ensures ("details" in r) == details.Some?
  {
    var base := map["message" := Str(message), "code" := Str(code), "timestamp" := Str(isoNow)];
    if details.Some? then base["details" := details.value] else base
  }

  /** Lines 56-62: the API error's own message, otherwise `handleApiError`. */
  function GetErrorMessage(e: Thrown): string {
    if IsApiError(e) then
      match e
      case ErrorValue(err) => err.message
      case ObjectValue(fields) => Stringify(Some(fields["message"]))
      case _ => UnknownErrorMessage
    else HandleApiError(e)
  }

  /** Whenever the message is text, `getErrorMessage` and `handleApiError` give the same answer. */
  lemma GetErrorMessageIsHandleApiError(e: Thrown)
    requires e.ObjectValue? && "message" in e.fields ==> e.fields["message"].Str?
    ensures GetErrorMessage(e) == HandleApiError(e)
  {
  }

  /** An error built by `createApiError` is recognised, and its message and code read back. */
  lemma CreatedApiErrorRoundTrip(message: string, code: string, details: Option<Value>, isoNow: string)
    ensures IsApiError(ObjectValue(CreateApiError(message, code, details, isoNow)))
    ensures GetErrorMessage(ObjectValue(CreateApiError(message, code, details, isoNow))) == message
    ensures GetErrorCode(ObjectValue(CreateApiError(message, code, details, isoNow))) == Str(code)
  {
  }

  // ------------------------------------------------------------------ validation lists

  /** `String(x)` as `Array.prototype.join` writes it: `null` becomes the empty string. */
  function JoinText(v: Value): string {
    if v == Null then "" else Stringify(Some(v))
  }

  /** Lines 47-53: one piece of text per element. */
  function Segment(e: Thrown): string {
    match e
    case StringValue(s) => s
    case ErrorValue(err) => err.message
    case ObjectValue(fields) => if "message" in fields then JoinText(fields["message"]) else InvalidInputMessage
    case OtherValue => InvalidInputMessage
  }

  function Segments(errors: seq<Thrown>): (r: seq<string>)
    ensures |r| == |errors|
    ensures forall i :: 0 <= i < |errors| && errors[i].StringValue? ==> r[i] == errors[i].s
  {
    seq(|errors|, i requires 0 <= i < |errors| => Segment(errors[i]))
  }

  /** Lines 42-54; `None` is an argument that is not an array. */
  function FormatValidationErrors(errors: Option<seq<Thrown>>): (msg: string)
    ensures errors.None? || errors.value == [] ==> msg == InvalidInputMessage
    ensures errors.Some? && errors.value != [] ==> msg == Join(Segments(errors.value), ", ")
  {
    if errors.None? || |errors.value| == 0 then InvalidInputMessage
    else Join(Segments(errors.value), ", ")
  }

  /** A single string error comes back verbatim. */
  lemma FormatSingleString(s: string)
    ensures FormatValidationErrors(Some([StringValue(s)])) == s
  {
    assert Segments([StringValue(s)]) == [s];
  }

  /** String errors are kept verbatim: one more error adds ", " and its text at the end. */
  lemma FormatAppendsString(errors: seq<Thrown>, s: string)
    requires errors != []
    ensures FormatValidationErrors(Some(errors + [StringValue(s)])) == FormatValidationErrors(Some(errors)) + ", " + s
  {
    SegmentsSnoc(errors, StringValue(s));
    JoinSnoc(Segments(errors), s, ", ");
  }

  /** One more error adds its segment at the end. */
  lemma SegmentsSnoc(errors: seq<Thrown>, e: Thrown)
    ensures Segments(errors + [e]) == Segments(errors) + [Segment(e)]
  {
  }

  // ------------------------------------------------------------------ AppError classes

  /** Lines 128-146: `new AppError(message, code, statusCode = 500, isOperational = true)`; its name stays "Error". */
  function NewAppError(message: string, code: string, statusCode: Option<int>, isOperational: Option<bool>): (e: ErrorObject)
    ensures e.message == message && e.name == "Error" && e.cls.AppErr? && e.cls.code == code
    ensures e.cls.statusCode == (if statusCode.Some? then statusCode.value else 500)
    ensures e.cls.isOperational == (isOperational.None? || isOperational.value)
  {
    ErrorObject("Error", message,
      AppErr(code, if statusCode.Some? then statusCode.value else 500,
             if isOperational.Some? then isOperational.value else true),
      map[])
  }

  /** Lines 148-157: a non-empty field name is written in front of the message. */
  function NewValidationError(message: string, field: Option<string>): (e: ErrorObject)
    ensures e.message == if Truthy(field) then field.value + ": " + message else message
  {
    ErrorObject("ValidationError", if Truthy(field) then field.value + ": " + message else message,
      AppErr("VALIDATION_ERROR", 400, true), map[])
  }

  /** Lines 159-164 */
  function NewNotFoundError(resource: string): (e: ErrorObject)
    ensures e.message == resource + "을(를) 찾을 수 없습니다"
  {
    ErrorObject("NotFoundError", resource + "을(를) 찾을 수 없습니다", AppErr("NOT_FOUND", 404, true), map[])
  }

  /** The default parameter applies only when no message is passed. */
  function OrDefault(message: Option<string>, default: string): string {
    if message.Some? then message.value else default
  }

  /** Lines 166-171 */
  function NewUnauthorizedError(message: Option<string>): ErrorObject {
    ErrorObject("UnauthorizedError", OrDefault(message, "인증이 필요합니다"), AppErr("UNAUTHORIZED", 401, true), map[])
  }

  /** Lines 173-178 */
  function NewForbiddenError(message: Option<string>): ErrorObject {
    ErrorObject("ForbiddenError", OrDefault(message, "접근 권한이 없습니다"), AppErr("FORBIDDEN", 403, true), map[])
  }

  /** Lines 180-185 */
  function NewNetworkError(message: Option<string>): ErrorObject {
    ErrorObject("NetworkError", OrDefault(message, "네트워크 오류가 발생했습니다"), AppErr("NETWORK_ERROR", 0, true), map[])
  }

  // ------------------------------------------------------------------ classification

  /**
   * Lines 187-194. The `instanceof NetworkError` test is never true (see
   * `ErrorClass`), so an `Error` is a network error by its name or its
   * message alone.
   */
  predicate IsNetworkError(e: Thrown): (b: bool)
    ensures b ==> e.ErrorValue?
  {
    e.ErrorValue? &&
    (e.err.name == "NetworkError" ||
     Contains(e.err.message, "네트워크") ||
     Contains(e.err.message, "network"))
  }

  /** The `code` an API-error-shaped value carries. */
  function ApiCode(e: Thrown): Value
    requires IsApiError(e)
  {
    match e
    case ErrorValue(err) => if err.cls.AppErr? then Str(err.cls.code) else err.props["code"]
    case ObjectValue(fields) => fields["code"]
  }

  /**
   * Lines 196-202. As with network errors, the `instanceof ValidationError`
   * test is never true: an `Error` named 'ValidationError', or an API-error
   * shaped value with the code 'VALIDATION_ERROR', is a validation error.
   */
  predicate IsValidationError(e: Thrown): (b: bool)
    ensures b ==> e.ErrorValue? || e.ObjectValue?
  {
    (e.ErrorValue? && e.err.name == "ValidationError") ||
    (IsApiError(e) && ApiCode(e) == Str("VALIDATION_ERROR"))
  }

  /** Lines 204-218: the `AppError` code, else the API error code, else the error's name, else 'UNKNOWN_ERROR'. */
  function GetErrorCode(e: Thrown): (code: Value)
    ensures e.ErrorValue? && e.err.cls.AppErr? ==> code == Str(e.err.cls.code)
    ensures e.ErrorValue? && !e.err.cls.AppErr? && IsApiError(e) ==> code == e.err.props["code"]
    ensures e.ObjectValue? && IsApiError(e) ==> code == e.fields["code"]
    ensures e.ErrorValue? && !e.err.cls.AppErr? && !IsApiError(e) ==> code == Str(e.err.name)
    ensures e.StringValue? || e.OtherValue? ==> code == Str("UNKNOWN_ERROR")
    ensures e.ObjectValue? && !IsApiError(e) ==> code == Str("UNKNOWN_ERROR")
  {
    if e.ErrorValue? && e.err.cls.AppErr? then Str(e.err.cls.code)
    else if IsApiError(e) then ApiCode(e)
    else if e.ErrorValue? then Str(e.err.name)
    else Str("UNKNOWN_ERROR")
  }

  /** Lines 220-226 */
  function GetErrorStatusCode(e: Thrown): (status: int)
    ensures e.ErrorValue? && e.err.cls.AppErr? ==> status == e.err.cls.statusCode
    ensures !(e.ErrorValue? && e.err.cls.AppErr?) ==> status == 500
  {
    if e.ErrorValue? && e.err.cls.AppErr? then e.err.cls.statusCode else 500
  }

  /** Each subclass carries its fixed code and HTTP status, whatever the message. */
  lemma SubclassCodes(message: Option<string>, resource: string, field: Option<string>, text: string)
    ensures GetErrorStatusCode(ErrorValue(NewValidationError(text, field))) == 400
    ensures GetErrorCode(ErrorValue(NewValidationError(text, field))) == Str("VALIDATION_ERROR")
    ensures GetErrorStatusCode(ErrorValue(NewNotFoundError(resource))) == 404
    ensures GetErrorCode(ErrorValue(NewNotFoundError(resource))) == Str("NOT_FOUND")
    ensures GetErrorStatusCode(ErrorValue(NewUnauthorizedError(message))) == 401
    ensures GetErrorCode(ErrorValue(NewUnauthorizedError(message))) == Str("UNAUTHORIZED")
    ensures GetErrorStatusCode(ErrorValue(NewForbiddenError(message))) == 403
    ensures GetErrorCode(ErrorValue(NewForbiddenError(message))) == Str("FORBIDDEN")
    ensures GetErrorStatusCode(ErrorValue(NewNetworkError(message))) == 0
    ensures GetErrorCode(ErrorValue(NewNetworkError(message))) == Str("NETWORK_ERROR")
  {
  }

  /** The classifiers recognise their own classes, and nothing but an `Error` is a network error. */
  lemma ClassifiersRecogniseOwnClasses(message: Option<string>, field: Option<string>, text: string, e: Thrown)
    ensures IsNetworkError(ErrorValue(NewNetworkError(message)))
    ensures IsValidationError(ErrorValue(NewValidationError(text, field)))
    ensures !e.ErrorValue? ==> !IsNetworkError(e)
  {
  }

  /**
   * The classifiers look only at the name, the message and the code: two
   * errors that agree on those are classified alike whatever class built
   * them. So a `NetworkError` or `ValidationError` whose name is reset to
   * 'Error' and whose message gives no hint is recognised as neither.
   */
  lemma ClassifiersIgnoreSubclass(a: ErrorObject, b: ErrorObject, message: string)
    requires a.name == b.name && a.message == b.message && a.props == b.props
    requires a.cls.AppErr? <==> b.cls.AppErr?
    requires a.cls.AppErr? ==> a.cls.code == b.cls.code
    requires !Contains(message, "네트워크") && !Contains(message, "network")
    ensures IsNetworkError(ErrorValue(a)) == IsNetworkError(ErrorValue(b))
    ensures IsValidationError(ErrorValue(a)) == IsValidationError(ErrorValue(b))
    ensures !IsNetworkError(ErrorValue(NewNetworkError(Some(message)).(name := "Error")))
    ensures !IsValidationError(ErrorValue(NewValidationError(message, None).(name := "Error")))
  {
    var n := NewNetworkError(Some(message)).(name := "Error");
    assert n.message == message;
  }

  /** `handleApiError` reports an `AppError`'s own message; a validation error with a field gets "field: message". */
  lemma AppErrorMessages(text: string, field: string, resource: string)
    requires field != ""
    ensures HandleApiError(ErrorValue(NewValidationError(text, Some(field)))) == field + ": " + text
    ensures HandleApiError(ErrorValue(NewValidationError(text, None))) == text
    ensures HandleApiError(ErrorValue(NewNotFoundError(resource))) == resource + "을(를) 찾을 수 없습니다"
    ensures HandleApiError(ErrorValue(NewUnauthorizedError(None))) == "인증이 필요합니다"
  {
  }
}
