/** Shared vocabulary of the booking site's API layer: optional values, results, the
    error taxonomy the route handlers throw, and the shape of an incoming request. */
module Common {

  datatype Option<+T> = None | Some(value: T)

  datatype Result<+T, +E> = Ok(value: T) | Err(error: E)

  /** Why a request was answered with "bad request". */
  datatype BadRequestReason =
    | WrongContentType     // body is not declared as application/json
    | PayloadTooLarge      // body longer than the allowed bound
    | InvalidJson          // body text does not parse as JSON
    | ValidationFailed     // a schema rejected the parsed body
    | InvalidDate          // a date string that does not parse reached a query

  datatype UnauthorizedReason = MissingSignature | InvalidSignature

  datatype ConflictReason = SlotFull | DuplicateBooking

  /** Plain errors (not produced by the API error helper) thrown by the handlers. */
  datatype InternalReason =
    | MissingMetadata | InvalidCourseId | InvalidDateField | InvalidUserId
    | InvalidBookingType | InvalidDateFormat
    | CourseMissing | UserMissing | CapacityExceeded
    | WebhookSecretMissing | StripeNotConfigured | NoBaseUrl | ProviderFailure

  /** The error taxonomy of the API layer. How each kind is turned into an HTTP status is
      decided by an error handler that is not part of this model. */
  datatype ApiError =
    | BadRequest(badRequest: BadRequestReason)
    | Unauthorized(unauthorized: UnauthorizedReason)
    | Forbidden
    | NotFound
    | Conflict(conflict: ConflictReason)
    | Internal(internal: InternalReason)

  /** A JavaScript value found under one key of a parsed JSON object, as far as the
      schemas look at it: missing, a string, a (finite) number, or anything else. */
  datatype JsonField = Absent | Str(s: string) | Num(x: real) | OtherValue

  /** The parts of an HTTP request the handlers read. A header is None when it is absent. */
  datatype HttpRequest = HttpRequest(
    contentType: Option<string>,
    forwardedFor: Option<string>,
    userAgent: Option<string>,
    path: string,
    body: string)

  /** JavaScript truthiness of an optional string: absent and "" are both falsy. */
  predicate Truthy(s: Option<string>)
  {
    s.Some? && s.value != ""
  }

  /** `s || fallback` for an optional string. */
  function OrElse(s: Option<string>, fallback: string): (r: string)
    ensures Truthy(s) ==> r == s.value
    ensures !Truthy(s) ==> r == fallback
  {
    if Truthy(s) then s.value else fallback
  }
}
