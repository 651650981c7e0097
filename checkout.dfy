/** POST /api/create-checkout-session: checks that the caller books for themselves, that
    the course exists and that its slot has room (PENDING + CONFIRMED rows), then opens a
    payment session, or a simulated one in demo mode. Session initiation only reads the
    booking table: it is a function of a snapshot (courses, bookings). The payment
    provider's session creation is the oracle `stripeCreate` (None when the provider call
    throws); the clock is `nowMs`. */
module Checkout {
  import opened Common
  import opened Ledger
  import Strings
  import RateLimit
  import Security

  datatype CheckoutRequest = CheckoutRequest(courseId: string, date: string, userId: string)

  /** The answer of session creation: an id and a hosted-page url (the provider may give none). */
  datatype SessionInfo = SessionInfo(sessionId: string, url: Option<string>)

  /** Deployment settings: demo mode, whether a provider secret key is configured, and the
      base url (`NEXT_PUBLIC_BASE_URL || NEXTAUTH_URL || ''`). */
  datatype CheckoutConfig = CheckoutConfig(demoMode: bool, stripeConfigured: bool, baseUrl: string)

  datatype LineItem = LineItem(
    currency: string, name: string, description: string,
    productMetadata: map<string, string>, unitAmount: int, quantity: nat)

  /** What is sent to the payment provider to open a live session. */
  datatype StripeSessionParams = StripeSessionParams(
    paymentMethodTypes: seq<string>, lineItem: LineItem, mode: string,
    successUrl: string, cancelUrl: string, metadata: map<string, string>,
    expiresAt: int, billingAddressCollection: string, customerCreation: string,
    paymentIntentMetadata: map<string, string>)

  const BookingType := "course_booking"
  const DemoUrlPrefix := "https://checkout.stripe.com/pay/"
  const DemoIdPrefix := "demo_"
  /** Sessions expire 30 minutes after creation. */
  const SessionLifetimeSeconds := 30 * 60

  /** The session metadata: the request's course, date and user, verbatim, and the booking
      type tag the confirmation handler checks. */
  function SessionMetadata(data: CheckoutRequest): (m: map<string, string>)
    ensures m.Keys == {"courseId", "date", "userId", "bookingType"}
    ensures m["courseId"] == data.courseId && m["date"] == data.date && m["userId"] == data.userId
    ensures m["bookingType"] == BookingType
  {
    map["courseId" := data.courseId, "date" := data.date, "userId" := data.userId,
        "bookingType" := BookingType]
  }

  /** `Math.floor(Date.now() / 1000) + 30 * 60`: the expiry in seconds. */
  function ExpiresAt(nowMs: int): (t: int)
    ensures (t - SessionLifetimeSeconds) * 1000 <= nowMs < (t - SessionLifetimeSeconds + 1) * 1000
  {
    nowMs / 1000 + SessionLifetimeSeconds
  }

  /** The live session request for `data` and its course. */
  function StripeSessionRequest(data: CheckoutRequest, course: Course, baseUrl: string, nowMs: int)
    : (p: StripeSessionParams)
    ensures p.paymentMethodTypes == ["card"] && p.mode == "payment"
    ensures p.metadata == SessionMetadata(data)
    ensures p.expiresAt == ExpiresAt(nowMs)
    ensures p.lineItem.currency == "eur" && p.lineItem.quantity == 1
    ensures p.lineItem.unitAmount == course.priceCents
    ensures p.lineItem.description == course.description
    ensures p.lineItem.productMetadata.Keys == {"courseId", "level"}
    ensures p.lineItem.productMetadata["courseId"] == data.courseId && p.lineItem.productMetadata["level"] == course.level
    ensures p.billingAddressCollection == "required" && p.customerCreation == "always"
    ensures p.successUrl == baseUrl + "/reservation/success?session_id={CHECKOUT_SESSION_ID}"
    ensures p.cancelUrl == baseUrl + "/reservation/cancel"
    ensures p.paymentIntentMetadata == map["courseId" := data.courseId, "userId" := data.userId]
  {
    StripeSessionParams(
      ["card"],
      LineItem("eur",
               course.title + " - S\U{00E9}ance de " + Strings.NatToString(course.duration) + " minutes",
               course.description,
               map["courseId" := data.courseId, "level" := course.level],
               course.priceCents, 1),
      "payment",
      baseUrl + "/reservation/success?session_id={CHECKOUT_SESSION_ID}",
      baseUrl + "/reservation/cancel",
      SessionMetadata(data),
      ExpiresAt(nowMs),
      "required",
      "always",
      map["courseId" := data.courseId, "userId" := data.userId])
  }

  /** `createDemoSession`: id `demo_<timestamp>`, url on the provider's pay page. */
  function DemoSession(nowMs: nat): (s: SessionInfo)
    ensures s.url.Some?
  {
    var id := DemoIdPrefix + Strings.NatToString(nowMs);
    SessionInfo(id, Some(DemoUrlPrefix + id))
  }

  /** The demo session's url is the provider pay page followed by the id, the id is `demo_`
      followed by decimal digits, and those digits read back as the timestamp. */
  lemma DemoSessionShape(nowMs: nat)
    ensures var s := DemoSession(nowMs);
            && s.url == Some(DemoUrlPrefix + s.sessionId)
            && s.sessionId[..|DemoIdPrefix|] == DemoIdPrefix
            && (forall k :: |DemoIdPrefix| <= k < |s.sessionId| ==> Strings.IsDigit(s.sessionId[k]))
            && |s.sessionId| > |DemoIdPrefix|
            && Strings.DecimalValue(s.sessionId[|DemoIdPrefix|..]) == nowMs
            && (DemoUrlPrefix + DemoIdPrefix) <= s.url.value
  {
    var digits := Strings.NatToString(nowMs);
    var s := DemoSession(nowMs);
    assert s.sessionId[|DemoIdPrefix|..] == digits;
    assert s.url.value == DemoUrlPrefix + DemoIdPrefix + digits;
    Strings.DecimalRoundTrip(nowMs);
  }

  /** The guards of `createSession` pass: the caller books for themselves, the course
      exists, the date parses and the slot's PENDING + CONFIRMED rows are below capacity. */
  predicate Available(courses: map<string, Course>, bookings: seq<Booking>, data: CheckoutRequest,
                      authUserId: string, parse: string -> Option<int>)
  {
    && data.userId == authUserId && data.courseId in courses && parse(data.date).Some?
    && SlotCount(bookings, data.courseId, parse(data.date).value, Active) < courses[data.courseId].capacity
  }

  /** `createSession`: ownership, course lookup, availability (PENDING + CONFIRMED rows of
      the slot against the capacity), then demo or live session. In live mode the provider
      must be configured, then the base url must be non-empty, then the provider is asked. It
      reads the snapshot only. A date that does not parse is reported when the availability
      query needs it. */
  function CreateSession(courses: map<string, Course>, bookings: seq<Booking>, data: CheckoutRequest,
                         authUserId: string, cfg: CheckoutConfig, nowMs: nat,
                         parse: string -> Option<int>,
                         stripeCreate: StripeSessionParams -> Option<SessionInfo>): (r: Result<SessionInfo, ApiError>)
    ensures data.userId != authUserId ==> r == Err(Forbidden)
    ensures data.userId == authUserId && data.courseId !in courses ==> r == Err(NotFound)
    ensures data.userId == authUserId && data.courseId in courses && parse(data.date).None? ==>
              r == Err(BadRequest(InvalidDate))
    ensures data.userId == authUserId && data.courseId in courses && parse(data.date).Some? &&
            SlotCount(bookings, data.courseId, parse(data.date).value, Active) >= courses[data.courseId].capacity
            ==> r == Err(Conflict(SlotFull))
    ensures r.Ok? ==> Available(courses, bookings, data, authUserId, parse)
    ensures Available(courses, bookings, data, authUserId, parse) && cfg.demoMode ==> r == Ok(DemoSession(nowMs))
    ensures Available(courses, bookings, data, authUserId, parse) && !cfg.demoMode && !cfg.stripeConfigured ==>
              r == Err(Internal(StripeNotConfigured))
    ensures (Available(courses, bookings, data, authUserId, parse) && !cfg.demoMode && cfg.stripeConfigured &&
             cfg.baseUrl == "") ==> r == Err(Internal(NoBaseUrl))
    ensures (Available(courses, bookings, data, authUserId, parse) && !cfg.demoMode && cfg.stripeConfigured &&
             cfg.baseUrl != "") ==>
              var created := stripeCreate(StripeSessionRequest(data, courses[data.courseId], cfg.baseUrl, nowMs));
              r == (if created.Some? then Ok(created.value) else Err(Internal(ProviderFailure)))
    ensures r.Err? && r.error.Internal? ==> !cfg.demoMode
  {
    if data.userId != authUserId then Err(Forbidden)
    else if data.courseId !in courses then Err(NotFound)
    else
      var course := courses[data.courseId];
      match parse(data.date)
      case None => Err(BadRequest(InvalidDate))
      case Some(date) =>
        if SlotCount(bookings, data.courseId, date, Active) >= course.capacity then Err(Conflict(SlotFull))
        else if cfg.demoMode then Ok(DemoSession(nowMs))
        else if !cfg.stripeConfigured then Err(Internal(StripeNotConfigured))
        else if cfg.baseUrl == "" then Err(Internal(NoBaseUrl))
        else
          match stripeCreate(StripeSessionRequest(data, course, cfg.baseUrl, nowMs))
          case None => Err(Internal(ProviderFailure))
          case Some(session) => Ok(session)
  }

  /** When every guard passes, the session opens: in demo mode always, in live mode when the
      provider and the base url are configured and the provider answers. */
  lemma CreateSessionSucceeds(courses: map<string, Course>, bookings: seq<Booking>, data: CheckoutRequest,
                              cfg: CheckoutConfig, nowMs: nat, parse: string -> Option<int>,
                              stripeCreate: StripeSessionParams -> Option<SessionInfo>)
    requires data.courseId in courses && parse(data.date).Some?
    requires SlotCount(bookings, data.courseId, parse(data.date).value, Active) < courses[data.courseId].capacity
    requires cfg.demoMode || (cfg.stripeConfigured && cfg.baseUrl != "" &&
             stripeCreate(StripeSessionRequest(data, courses[data.courseId], cfg.baseUrl, nowMs)).Some?)
    ensures CreateSession(courses, bookings, data, data.userId, cfg, nowMs, parse, stripeCreate).Ok?
  {
  }

  /** A full slot is refused whatever the mode: the availability check comes before demo mode. */
  lemma FullSlotRefusedInEveryMode(courses: map<string, Course>, bookings: seq<Booking>, data: CheckoutRequest,
                                   cfg: CheckoutConfig, nowMs: nat, parse: string -> Option<int>,
                                   stripeCreate: StripeSessionParams -> Option<SessionInfo>)
    requires data.courseId in courses && parse(data.date).Some?
    requires SlotCount(bookings, data.courseId, parse(data.date).value, Active) >= courses[data.courseId].capacity
    ensures CreateSession(courses, bookings, data, data.userId, cfg.(demoMode := true), nowMs, parse, stripeCreate)
            == CreateSession(courses, bookings, data, data.userId, cfg.(demoMode := false), nowMs, parse, stripeCreate)
            == Err(Conflict(SlotFull))
  {
  }

  /** The rate limit of this route: 60 requests per 10 minutes per client and path. */
  const CheckoutLimit := RateLimit.Options(10 * 60 * 1000, 60, Some("checkout"))

  /** The body of the handler's answer; the success status is 201 and the rate-limited one 429. */
  datatype CheckoutResponse =
    | Created(session: SessionInfo, headers: RateLimit.Headers)
    | TooManyRequests(headers: RateLimit.Headers)
    | Failed(error: ApiError)

  function CheckoutKey(req: HttpRequest): string
  {
    RateLimit.Key(CheckoutLimit.keyPrefix, RateLimit.ClientIp(req.forwardedFor, req.userAgent), req.path)
  }

  /** `handleCreateCheckoutSession`: rate limit first, then the JSON guard (`jsonParse` is
      `JSON.parse`) and the request schema (`schema`, not part of this model beyond being an
      oracle), then `createSession` on the store as it is. Only the rate limiter changes. */
  method HandleCreateCheckoutSession<J>(limiter: RateLimit.RateLimiter, store: BookingStore, req: HttpRequest,
                                        authUserId: string, cfg: CheckoutConfig, nowMs: nat,
                                        parse: string -> Option<int>, jsonParse: string -> Option<J>,
                                        schema: J -> Option<CheckoutRequest>,
                                        stripeCreate: StripeSessionParams -> Option<SessionInfo>)
    returns (resp: CheckoutResponse)
    modifies limiter
    ensures store.bookings == old(store.bookings) && store.courses == old(store.courses)
    ensures limiter.store == old(limiter.store)[CheckoutKey(req) :=
              RateLimit.NextCounter(old(limiter.Lookup(CheckoutKey(req))), nowMs, CheckoutLimit.windowMs)]
    ensures var d := RateLimit.Decide(limiter.store[CheckoutKey(req)], CheckoutLimit.max, nowMs);
            && (d.blocked ==> resp == TooManyRequests(d.headers))
            && (!d.blocked ==> !resp.TooManyRequests?)
            && (resp.Created? ==> resp.headers == d.headers)
    ensures var body := Security.ParseJson(req.contentType, req.body, Security.DefaultMaxBytes, jsonParse);
            !resp.TooManyRequests? ==>
              && (body.Err? ==> resp == Failed(body.error))
              && (body.Ok? && schema(body.value).None? ==> resp == Failed(BadRequest(ValidationFailed)))
              && (body.Ok? && schema(body.value).Some? ==>
                    var r := CreateSession(store.courses, store.bookings, schema(body.value).value, authUserId,
                                           cfg, nowMs, parse, stripeCreate);
                    (r.Ok? ==> resp.Created? && resp.session == r.value) && (r.Err? ==> resp == Failed(r.error)))
  {
    var rl := limiter.Check(req, CheckoutLimit, nowMs);
    if rl.blocked {
      return TooManyRequests(rl.headers);
    }
    var raw := Security.ParseJson(req.contentType, req.body, Security.DefaultMaxBytes, jsonParse);
    if raw.Err? {
      return Failed(raw.error);
    }
    var validated := schema(raw.value);
    if validated.None? {
      return Failed(BadRequest(ValidationFailed));
    }
    var result := CreateSession(store.courses, store.bookings, validated.value, authUserId,
                                cfg, nowMs, parse, stripeCreate);
    match result
    case Ok(session) => resp := Created(session, rl.headers);
    case Err(e) => resp := Failed(e);
  }
}
