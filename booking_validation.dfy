/** The booking schemas, as predicates over the fields of a parsed JSON body. A date string
    is accepted when the date-parse oracle `parse` (standing for `Date.parse`, None for NaN)
    gives a timestamp. */
module BookingValidation {
  import opened Common

  /** The JSON body of a booking creation request. */
  datatype CreateBookingBody = CreateBookingBody(userId: JsonField, courseId: JsonField, date: JsonField)

  /** The validated creation input. */
  datatype CreateBookingInput = CreateBookingInput(userId: string, courseId: string, date: string)

  /** The JSON body of a booking update request. */
  datatype UpdateBookingBody = UpdateBookingBody(
    status: JsonField, stripePaymentIntentId: JsonField, paymentStatus: JsonField,
    amount: JsonField, currency: JsonField, date: JsonField)

  const BookingStatuses: set<string> := {"PENDING", "CONFIRMED", "CANCELLED"}

  /** `z.string().min(1)`. */
  predicate NonEmptyString(f: JsonField)
  {
    f.Str? && |f.s| >= 1
  }

  /** The date refinement: a string that `Date.parse` does not turn into NaN. */
  predicate ParsableDate(f: JsonField, parse: string -> Option<int>)
  {
    f.Str? && parse(f.s).Some?
  }

  /** `createBookingSchema.parse`: the validated input, or None for a schema error. */
  function ValidateCreateBooking(body: CreateBookingBody, parse: string -> Option<int>)
    : (r: Option<CreateBookingInput>)
    ensures r.Some? <==> NonEmptyString(body.userId) && NonEmptyString(body.courseId) &&
                         ParsableDate(body.date, parse)
    ensures r.Some? ==> r.value.userId == body.userId.s && r.value.courseId == body.courseId.s &&
                        r.value.date == body.date.s
    ensures r.Some? ==> r.value.userId != "" && r.value.courseId != "" && parse(r.value.date).Some?
  {
    if NonEmptyString(body.userId) && NonEmptyString(body.courseId) && ParsableDate(body.date, parse)
    then Some(CreateBookingInput(body.userId.s, body.courseId.s, body.date.s))
    else None
  }

  /** `.optional()`: the field may be missing; when present it satisfies `ok`. */
  predicate OptionalField(f: JsonField, ok: bool)
  {
    f.Absent? || ok
  }

  /** `updateBookingSchema`: every field is optional; each present field is checked. */
  predicate ValidUpdateBooking(body: UpdateBookingBody, parse: string -> Option<int>)
    ensures body == UpdateBookingBody(Absent, Absent, Absent, Absent, Absent, Absent) ==>
              ValidUpdateBooking(body, parse)
  {
    && OptionalField(body.status, body.status.Str? && body.status.s in BookingStatuses)
    && OptionalField(body.stripePaymentIntentId, NonEmptyString(body.stripePaymentIntentId))
    && OptionalField(body.paymentStatus, body.paymentStatus.Str?)
    && OptionalField(body.amount, body.amount.Num? && body.amount.x > 0.0)
    && OptionalField(body.currency, body.currency.Str?)
    && OptionalField(body.date, ParsableDate(body.date, parse))
  }

  /** What a valid update guarantees field by field: the empty update is accepted, and in
      an accepted update a present status is one of the three statuses, a present
      payment-intent id a non-empty string and a present amount a strictly positive number. */
  lemma UpdateBookingFields(body: UpdateBookingBody, parse: string -> Option<int>)
    ensures ValidUpdateBooking(UpdateBookingBody(Absent, Absent, Absent, Absent, Absent, Absent), parse)
    ensures ValidUpdateBooking(body, parse) && !body.status.Absent? ==>
              body.status in {Str("PENDING"), Str("CONFIRMED"), Str("CANCELLED")}
    ensures ValidUpdateBooking(body, parse) && !body.amount.Absent? ==>
              body.amount.Num? && body.amount.x > 0.0
    ensures ValidUpdateBooking(body, parse) && !body.stripePaymentIntentId.Absent? ==>
              body.stripePaymentIntentId.Str? && body.stripePaymentIntentId.s != ""
  {
  }

  /** Any one bad field rejects the whole update, whatever the others hold: a status that is
      not a string or not one of the three, an amount that is not a number or not positive. */
  lemma UpdateBookingRejects(body: UpdateBookingBody, parse: string -> Option<int>)
    ensures body.status.Str? && body.status.s !in BookingStatuses ==> !ValidUpdateBooking(body, parse)
    ensures !body.status.Absent? && !body.status.Str? ==> !ValidUpdateBooking(body, parse)
    ensures body.amount.Num? && body.amount.x <= 0.0 ==> !ValidUpdateBooking(body, parse)
    ensures !body.amount.Absent? && !body.amount.Num? ==> !ValidUpdateBooking(body, parse)
  {
  }
}
