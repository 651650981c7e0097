/** POST /api/webhook: payment provider notifications. Signature verification is the
    oracle `constructEvent` (None when it throws). Only a completed checkout session reaches
    the booking table: its metadata is validated, an existing active booking is returned
    unchanged, and otherwise one CONFIRMED row is inserted in one atomic step, guarded by the
    slot's CONFIRMED count against the course capacity. */
module Webhook {
  import opened Common
  import opened Ledger
  import Checkout

  datatype ValidatedMetadata = ValidatedMetadata(courseId: string, date: string, userId: string,
                                                 bookingType: string)

  /** The fields of a provider checkout session the handler reads. */
  datatype CheckoutSession = CheckoutSession(
    id: string, metadata: Option<map<string, string>>, paymentIntent: Option<string>,
    amountTotal: Option<int>, currency: Option<string>)

  /** A verified event; `session` is its data object when that is a checkout session. */
  datatype StripeEvent = StripeEvent(eventType: string, id: string, session: CheckoutSession)

  datatype WebhookResponse = Ack(eventType: string, eventId: string) | Failed(error: ApiError)

  const CompletedEvent := "checkout.session.completed"

  function Field(m: map<string, string>, key: string): Option<string>
  {
    if key in m then Some(m[key]) else None
  }

  /** What a session's metadata must satisfy to be accepted: present, with non-empty course,
      date and user, the booking type tag, and a date that parses. */
  predicate AcceptableMetadata(metadata: Option<map<string, string>>, parse: string -> Option<int>)
    ensures AcceptableMetadata(metadata, parse) ==>
              metadata.Some? && {"courseId", "date", "userId", "bookingType"} <= metadata.value.Keys
  {
    && metadata.Some?
    && "courseId" in metadata.value && metadata.value["courseId"] != ""
    && "date" in metadata.value && metadata.value["date"] != ""
    && "userId" in metadata.value && metadata.value["userId"] != ""
    && "bookingType" in metadata.value && metadata.value["bookingType"] == Checkout.BookingType
    && parse(metadata.value["date"]).Some?
  }

  /** `validateSessionMetadata`: the checks in order (metadata, course id, date, user id,
      booking type, date format); each failure is a plain error. */
  function ValidateSessionMetadata(metadata: Option<map<string, string>>, parse: string -> Option<int>)
    : (r: Result<ValidatedMetadata, ApiError>)
    ensures r.Ok? <==> AcceptableMetadata(metadata, parse)
    ensures r.Ok? ==> r.value == ValidatedMetadata(metadata.value["courseId"], metadata.value["date"],
                                                   metadata.value["userId"], Checkout.BookingType)
    ensures metadata.None? ==> r == Err(Internal(MissingMetadata))
    ensures metadata.Some? && !Truthy(Field(metadata.value, "courseId")) ==> r == Err(Internal(InvalidCourseId))
    ensures (metadata.Some? && Truthy(Field(metadata.value, "courseId")) &&
             !Truthy(Field(metadata.value, "date"))) ==> r == Err(Internal(InvalidDateField))
    ensures (metadata.Some? && Truthy(Field(metadata.value, "courseId")) && Truthy(Field(metadata.value, "date")) &&
             !Truthy(Field(metadata.value, "userId"))) ==> r == Err(Internal(InvalidUserId))
    ensures (metadata.Some? && Truthy(Field(metadata.value, "courseId")) && Truthy(Field(metadata.value, "date")) &&
             Truthy(Field(metadata.value, "userId")) && Field(metadata.value, "bookingType") != Some(Checkout.BookingType))
            ==> r == Err(Internal(InvalidBookingType))
    ensures r.Err? && r.error == Internal(InvalidDateFormat) ==>
              metadata.Some? && "date" in metadata.value && parse(metadata.value["date"]).None?
  {
    if metadata.None? then Err(Internal(MissingMetadata))
    else
      var m := metadata.value;
      var courseId := Field(m, "courseId");
      var date := Field(m, "date");
      var userId := Field(m, "userId");
      if !Truthy(courseId) then Err(Internal(InvalidCourseId))
      else if !Truthy(date) then Err(Internal(InvalidDateField))
      else if !Truthy(userId) then Err(Internal(InvalidUserId))
      else if Field(m, "bookingType") != Some(Checkout.BookingType) then Err(Internal(InvalidBookingType))
      else if parse(date.value).None? then Err(Internal(InvalidDateFormat))
      else Ok(ValidatedMetadata(courseId.value, date.value, userId.value, Checkout.BookingType))
  }

  /** The metadata a checkout session carries passes validation whenever its ids and date
      are non-empty and its date parses, and comes back verbatim. */
  lemma MetadataRoundTrip(data: Checkout.CheckoutRequest, parse: string -> Option<int>)
    requires data.courseId != "" && data.userId != "" && data.date != "" && parse(data.date).Some?
    ensures ValidateSessionMetadata(Some(Checkout.SessionMetadata(data)), parse)
            == Ok(ValidatedMetadata(data.courseId, data.date, data.userId, Checkout.BookingType))
  {
  }

  /** The row a confirmation inserts: CONFIRMED and PAID, the provider's payment intent, the
      total in minor units (0 when the provider reports none or 0), and the session currency
      or "eur". */
  function ConfirmedRow(id: nat, md: ValidatedMetadata, date: int, session: CheckoutSession): (b: Booking)
    ensures b.id == id && b.courseId == md.courseId && b.userId == md.userId && b.date == date
    ensures b.status == CONFIRMED && b.paymentStatus == Some("PAID")
    ensures b.stripePaymentIntentId == session.paymentIntent
    ensures b.amountMinor.Some? && b.amountMinor.value == (if session.amountTotal.Some? then session.amountTotal.value else 0)
    ensures b.currency.Some? && b.currency.value != ""
    ensures b.currency == (if Truthy(session.currency) then session.currency else Some("eur"))
  {
    var amount := if session.amountTotal.Some? && session.amountTotal.value != 0 then session.amountTotal.value else 0;
    Booking(id, md.courseId, md.userId, date, CONFIRMED, Some("PAID"), session.paymentIntent,
            Some(amount), Some(OrElse(session.currency, "eur")))
  }

  /** What `createConfirmedBooking` answers for a table snapshot: the course must exist, then
      the user; an active booking of the user for the slot is returned as it is; otherwise
      the slot's CONFIRMED count must be below capacity and the new row is the answer. */
  function Confirmation(courses: map<string, Course>, users: set<string>, bs: seq<Booking>,
                        md: ValidatedMetadata, date: int, session: CheckoutSession): (r: Result<Booking, ApiError>)
    ensures md.courseId !in courses ==> r == Err(Internal(CourseMissing))
    ensures md.courseId in courses && md.userId !in users ==> r == Err(Internal(UserMissing))
    ensures md.courseId in courses && md.userId in users && FindActive(bs, md.courseId, md.userId, date).Some?
            ==> r == Ok(bs[FindActive(bs, md.courseId, md.userId, date).value])
    ensures md.courseId in courses && md.userId in users && FindActive(bs, md.courseId, md.userId, date).None?
            ==> (r.Ok? <==> SlotCount(bs, md.courseId, date, ConfirmedOnly) < courses[md.courseId].capacity)
    ensures md.courseId in courses && md.userId in users && FindActive(bs, md.courseId, md.userId, date).None? &&
            SlotCount(bs, md.courseId, date, ConfirmedOnly) >= courses[md.courseId].capacity
            ==> r == Err(Internal(CapacityExceeded))
    ensures r.Err? ==> r.error.Internal? && r.error.internal in {CourseMissing, UserMissing, CapacityExceeded}
    ensures r.Ok? ==> IsActiveFor(r.value, md.courseId, md.userId, date)
    ensures r.Ok? && FindActive(bs, md.courseId, md.userId, date).None? ==>
              r.value == ConfirmedRow(|bs|, md, date, session)
  {
    if md.courseId !in courses then Err(Internal(CourseMissing))
    else if md.userId !in users then Err(Internal(UserMissing))
    else
      var existing := FindActive(bs, md.courseId, md.userId, date);
      if existing.Some? then Ok(bs[existing.value])
      else if SlotCount(bs, md.courseId, date, ConfirmedOnly) >= courses[md.courseId].capacity then
        Err(Internal(CapacityExceeded))
      else Ok(ConfirmedRow(|bs|, md, date, session))
  }

  /** The table after a confirmation: one row more exactly when a new row was the answer. */
  function Recorded(bs: seq<Booking>, md: ValidatedMetadata, date: int, r: Result<Booking, ApiError>)
    : seq<Booking>
  {
    if r.Ok? && FindActive(bs, md.courseId, md.userId, date).None? then bs + [r.value] else bs
  }

  /** The confirmation's capacity check counts CONFIRMED rows only, so it can take a slot's
      active (PENDING + CONFIRMED) count above capacity: one PENDING row of another user
      already fills a course of capacity 1, and the confirmation still inserts. */
  lemma ConfirmationCanOverfillActive(session: CheckoutSession)
    ensures var courses := map["yoga" := Course("Vinyasa", "Flowing sequence", 2000, 60, 1, "ALL_LEVELS")];
            var bs := [Booking(0, "yoga", "ann", 7, PENDING, None, None, None, None)];
            var md := ValidatedMetadata("yoga", "2026-03-02", "bob", Checkout.BookingType);
            var r := Confirmation(courses, {"ann", "bob"}, bs, md, 7, session);
            && WithinCapacity(courses, bs, Active)
            && r.Ok? && r.value.status == CONFIRMED
            && !WithinCapacity(courses, Recorded(bs, md, 7, r), Active)
  {
    var courses := map["yoga" := Course("Vinyasa", "Flowing sequence", 2000, 60, 1, "ALL_LEVELS")];
    var pending := Booking(0, "yoga", "ann", 7, PENDING, None, None, None, None);
    var md := ValidatedMetadata("yoga", "2026-03-02", "bob", Checkout.BookingType);
    assert [pending][1..] == [];
    forall courseId, date | courseId in courses
      ensures SlotCount([pending], courseId, date, Active) <= courses[courseId].capacity
    {
    }
    var r := Confirmation(courses, {"ann", "bob"}, [pending], md, 7, session);
    assert r == Ok(ConfirmedRow(1, md, 7, session));
    var after := [pending, r.value];
    assert Recorded([pending], md, 7, r) == after;
    assert after[1..] == [r.value] && [r.value][1..] == [];
    assert SlotCount(after, "yoga", 7, Active) == 2;
  }

  /** Confirming the same session again against the table the first confirmation left gives
      the same answer and leaves the table as it is: the webhook is idempotent. */
  lemma ConfirmationIsIdempotent(courses: map<string, Course>, users: set<string>, bs: seq<Booking>,
                                 md: ValidatedMetadata, date: int, session: CheckoutSession)
    ensures var r := Confirmation(courses, users, bs, md, date, session);
            var bs' := Recorded(bs, md, date, r);
            Confirmation(courses, users, bs', md, date, session) == r &&
            Recorded(bs', md, date, r) == bs'
  {
    var r := Confirmation(courses, users, bs, md, date, session);
    if r.Ok? && FindActive(bs, md.courseId, md.userId, date).None? {
      AppendedRowIsFound(bs, r.value);
    }
  }

  /** `createConfirmedBooking`: the answer of `Confirmation` on the table as it was, with the
      new row inserted when there is one. The check of the CONFIRMED count and the insert are
      one transaction. The caller has validated the metadata, so its date parses. */
  method CreateConfirmedBooking(store: BookingStore, md: ValidatedMetadata, session: CheckoutSession,
                                parse: string -> Option<int>) returns (r: Result<Booking, ApiError>)
    requires store.Valid()
    requires parse(md.date).Some?
    modifies store
    ensures store.Valid()
    ensures store.courses == old(store.courses) && store.users == old(store.users)
    ensures r == Confirmation(store.courses, store.users, old(store.bookings), md, parse(md.date).value, session)
    ensures store.bookings == Recorded(old(store.bookings), md, parse(md.date).value, r)
  {
    if md.courseId !in store.courses {
      return Err(Internal(CourseMissing));
    }
    var course := store.courses[md.courseId];
    if md.userId !in store.users {
      return Err(Internal(UserMissing));
    }
    var date := parse(md.date).value;
    var existing := FindActive(store.bookings, md.courseId, md.userId, date);
    if existing.Some? {
      return Ok(store.bookings[existing.value]);
    }
    var bookingCount := SlotCount(store.bookings, md.courseId, date, ConfirmedOnly);
    if bookingCount >= course.capacity {
      return Err(Internal(CapacityExceeded));
    }
    var booking := ConfirmedRow(|store.bookings|, md, date, session);
    AppendKeepsNoDuplicate(store.bookings, booking);
    AppendKeepsCapacity(store.courses, store.bookings, booking, ConfirmedOnly);
    store.bookings := store.bookings + [booking];
    r := Ok(booking);
  }

  /** What `handleCheckoutSessionCompleted` answers: a metadata error as it is, otherwise the
      confirmation of the validated metadata at its parsed date. */
  function Completion(courses: map<string, Course>, users: set<string>, bs: seq<Booking>,
                      session: CheckoutSession, parse: string -> Option<int>): (r: Result<Booking, ApiError>)
    ensures ValidateSessionMetadata(session.metadata, parse).Err? ==>
              r == Err(ValidateSessionMetadata(session.metadata, parse).error)
    ensures r.Ok? ==> AcceptableMetadata(session.metadata, parse)
    ensures r.Ok? ==> var m := session.metadata.value;
                      IsActiveFor(r.value, m["courseId"], m["userId"], parse(m["date"]).value)
  {
    match ValidateSessionMetadata(session.metadata, parse)
    case Err(e) => Err(e)
    case Ok(md) => Confirmation(courses, users, bs, md, parse(md.date).value, session)
  }

  /** The table after a completion: unchanged on a metadata error. */
  function Completed(bs: seq<Booking>, session: CheckoutSession, parse: string -> Option<int>,
                     r: Result<Booking, ApiError>): seq<Booking>
  {
    match ValidateSessionMetadata(session.metadata, parse)
    case Err(_) => bs
    case Ok(md) => Recorded(bs, md, parse(md.date).value, r)
  }

  /** `handleCheckoutSessionCompleted`: validation, then the confirmation; any error is
      passed on to the caller. */
  method HandleCheckoutSessionCompleted(store: BookingStore, session: CheckoutSession,
                                        parse: string -> Option<int>) returns (r: Result<Booking, ApiError>)
    requires store.Valid()
    modifies store
    ensures store.Valid()
    ensures store.courses == old(store.courses) && store.users == old(store.users)
    ensures r == Completion(store.courses, store.users, old(store.bookings), session, parse)
    ensures store.bookings == Completed(old(store.bookings), session, parse, r)
  {
    var metadata := ValidateSessionMetadata(session.metadata, parse);
    if metadata.Err? {
      return Err(metadata.error);
    }
    r := CreateConfirmedBooking(store, metadata.value, session, parse);
  }

  /** A completion changes the table only by appending one CONFIRMED row, after an answer
      that is that row. */
  lemma CompletionAppendsAtMostOne(courses: map<string, Course>, users: set<string>, bs: seq<Booking>,
                                   session: CheckoutSession, parse: string -> Option<int>)
    ensures var r := Completion(courses, users, bs, session, parse);
            var bs' := Completed(bs, session, parse, r);
            bs' == bs || (r.Ok? && r.value.status == CONFIRMED && bs' == bs + [r.value])
  {
  }

  /** The webhook handler: signature present, secret configured, signature verified, then the
      dispatch on the event type. Only a completed session can change the table; every other
      event type is acknowledged with its type and id. */
  method Post(store: BookingStore, body: string, signature: Option<string>, webhookSecret: Option<string>,
              constructEvent: (string, string, string) -> Option<StripeEvent>,
              parse: string -> Option<int>) returns (resp: WebhookResponse)
    requires store.Valid()
    modifies store
    ensures store.Valid()
    ensures store.courses == old(store.courses) && store.users == old(store.users)
    ensures !Truthy(signature) ==> resp == Failed(Unauthorized(MissingSignature))
    ensures Truthy(signature) && !Truthy(webhookSecret) ==> resp == Failed(Internal(WebhookSecretMissing))
    ensures Truthy(signature) && Truthy(webhookSecret) &&
            constructEvent(body, signature.value, webhookSecret.value).None? ==>
              resp == Failed(Unauthorized(InvalidSignature))
    ensures !Truthy(signature) || !Truthy(webhookSecret) ||
            constructEvent(body, signature.value, webhookSecret.value).None? ||
            constructEvent(body, signature.value, webhookSecret.value).value.eventType != CompletedEvent
            ==> store.bookings == old(store.bookings)
    ensures Truthy(signature) && Truthy(webhookSecret) &&
            constructEvent(body, signature.value, webhookSecret.value).Some? ==>
              var event := constructEvent(body, signature.value, webhookSecret.value).value;
              && (event.eventType != CompletedEvent ==> resp == Ack(event.eventType, event.id))
              && (event.eventType == CompletedEvent ==>
                    var r := Completion(old(store.courses), old(store.users), old(store.bookings),
                                        event.session, parse);
                    && store.bookings == Completed(old(store.bookings), event.session, parse, r)
                    && resp == (if r.Ok? then Ack(event.eventType, event.id) else Failed(r.error)))
  {
    if !Truthy(signature) {
      return Failed(Unauthorized(MissingSignature));
    }
    if !Truthy(webhookSecret) {
      return Failed(Internal(WebhookSecretMissing));
    }
    var verified := constructEvent(body, signature.value, webhookSecret.value);
    if verified.None? {
      return Failed(Unauthorized(InvalidSignature));
    }
    var event := verified.value;
    if event.eventType == CompletedEvent {
      var outcome := HandleCheckoutSessionCompleted(store, event.session, parse);
      if outcome.Err? {
        return Failed(outcome.error);
      }
    }
    // "checkout.session.expired", "payment_intent.payment_failed" and unknown types are
    // only logged.
    resp := Ack(event.eventType, event.id);
  }

  /** Delivering the same completed session twice gives the same answer both times and adds
      at most one row. */
  method ReplayCompletedSession(store: BookingStore, session: CheckoutSession, parse: string -> Option<int>)
    returns (first: Result<Booking, ApiError>, second: Result<Booking, ApiError>)
    requires store.Valid()
    modifies store
    ensures store.Valid()
    ensures first == second
    ensures store.bookings == Completed(old(store.bookings), session, parse, first)
  {
    ghost var before := store.bookings;
    first := HandleCheckoutSessionCompleted(store, session, parse);
    var md := ValidateSessionMetadata(session.metadata, parse);
    if md.Ok? {
      ConfirmationIsIdempotent(store.courses, store.users, before, md.value, parse(md.value.date).value, session);
    }
    second := HandleCheckoutSessionCompleted(store, session, parse);
  }

  /** The two halves of a paid booking: a user who exists opens a session for a slot with
      room, and the completion notice carrying that session's metadata then leaves the user
      with an active booking for exactly that course and date, a new CONFIRMED row unless one
      was already active. */
  method CheckoutThenComplete(store: BookingStore, data: Checkout.CheckoutRequest, cfg: Checkout.CheckoutConfig,
                              nowMs: nat, parse: string -> Option<int>,
                              stripeCreate: Checkout.StripeSessionParams -> Option<Checkout.SessionInfo>,
                              paymentIntent: Option<string>, amountTotal: Option<int>, currency: Option<string>)
    returns (opening: Result<Checkout.SessionInfo, ApiError>, confirmed: Result<Booking, ApiError>)
    requires store.Valid()
    requires data.courseId != "" && data.userId != "" && data.date != "" && data.userId in store.users
    modifies store
    ensures store.Valid()
    ensures opening == Checkout.CreateSession(old(store.courses), old(store.bookings), data, data.userId,
                                              cfg, nowMs, parse, stripeCreate)
    ensures opening.Ok? ==> confirmed.Ok?
    ensures opening.Ok? ==> IsActiveFor(confirmed.value, data.courseId, data.userId, parse(data.date).value)
    ensures (opening.Ok? && FindActive(old(store.bookings), data.courseId, data.userId, parse(data.date).value).None?)
            ==> confirmed.value.status == CONFIRMED && store.bookings == old(store.bookings) + [confirmed.value]
  {
    opening := Checkout.CreateSession(store.courses, store.bookings, data, data.userId, cfg, nowMs, parse, stripeCreate);
    if opening.Err? {
      return opening, Err(opening.error);
    }
    var date := parse(data.date).value;
    SlotCountMonotone(store.bookings, data.courseId, date, ConfirmedOnly, Active);
    MetadataRoundTrip(data, parse);
    var session := CheckoutSession(opening.value.sessionId, Some(Checkout.SessionMetadata(data)),
                                   paymentIntent, amountTotal, currency);
    confirmed := HandleCheckoutSessionCompleted(store, session, parse);
  }
}
