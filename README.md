# Studio booking core, modelled in Dafny

This project models the server-side core of a yoga-studio booking site. At its centre is a
slot-booking ledger: a table of courses and bookings, where a slot is a (course, date) pair
and a booking is PENDING, CONFIRMED or CANCELLED. Three request handlers act on it:

- **direct booking** (`POST /api/bookings`) appends one PENDING row, after guards on
  ownership, course, capacity and duplicates;
- **checkout initiation** (`POST /api/create-checkout-session`) checks ownership, the course
  and slot availability, then opens a payment session, real or simulated, and never writes
  to the table;
- **payment confirmation** (`POST /api/webhook`) validates the completed session's
  metadata, returns an existing active booking as it is, or inserts one CONFIRMED row after
  re-checking the slot's CONFIRMED count against the course capacity.

Around the ledger the project models:

- the in-memory fixed-window rate limiter;
- the JSON body guard;
- the booking and course schemas;
- the credentials check and the JWT/session callbacks of the authentication setup;
- the web-vitals rating, score and listener registry;
- the schema.org LocalBusiness builder.

Modules follow the source files:

- `Common`: shared result, option and error types.
- `Strings`: `includes`, `trim`, `split(',')[0]` and decimal rendering.
- `Security`: `lib/security.ts`.
- `RateLimit`: `lib/rate-limit.ts`.
- `BookingValidation` and `CourseValidation`: `lib/validations/*`.
- `Ledger`: the records, slot counts, table invariants and the `BookingStore` class.
- `BookingsRoute`, `Checkout` and `Webhook`: the three routes.
- `Auth`: `lib/auth/next-auth.config.ts`.
- `WebVitals`: `WebVitalsMonitor.tsx`.
- `JsonLd`: `lib/seo/local-business-jsonld.ts`.

Code that changes state is modelled as classes with `modifies` clauses:
`Ledger.BookingStore`, `RateLimit.RateLimiter`, `Auth.Token`, `Auth.Session` and
`WebVitals.PerformanceMonitor`.

Pure logic is functions of values. Checkout initiation is a function of a snapshot of the
table.

The table invariant `BookingStore.Valid()` has three parts:

- row ids are positions;
- no two active rows share course, user and date;
- no slot holds more CONFIRMED rows than its course's capacity.

Every mutating handler preserves it.

The direct-booking route also preserves the stronger "active rows within capacity" property
(`BookingsRoute.CreateBooking`). The confirmation route does not, because it counts only
CONFIRMED rows. `Webhook.ConfirmationCanOverfillActive` exhibits a table where the
confirmation itself does this.

Foreign code and ambient inputs are parameters:

- date parsing (`Date.parse` / `new Date`) is `parse: string -> Option<int>`, with None
  standing for NaN;
- `JSON.parse` is `jsonParse`;
- the checkout request schema is `schema`;
- the payment provider's session creation is `stripeCreate` (None when it throws);
- webhook signature verification is `constructEvent` (None when it throws);
- bcrypt's `compare` is `compare`;
- the clock is `now` / `nowMs`.

## Model

| member | source | states |
|---|---|---|
| Strings.Contains | lib/security.ts:10 | `includes`: true exactly when the pattern occurs at some position |
| Strings.Trim | lib/rate-limit.ts:19 | the result is a slice of the input with only whitespace cut from either end, and it neither starts nor ends with whitespace |
| Strings.TrimIdempotent | lib/rate-limit.ts:19 | trimming twice is trimming once |
| Strings.FirstField | lib/rate-limit.ts:19-20 | `split(',')[0]`: the longest prefix without a comma |
| Strings.NatToString | app/api/create-checkout-session/route.ts:160 | `String(n)` of a natural number: non-empty, decimal digits only, no leading zero |
| Strings.DecimalRoundTrip | app/api/create-checkout-session/route.ts:160 | the decimal rendering of a timestamp reads back as that timestamp |
| Security.ParseJson | lib/security.ts:8-24 | content type not containing `application/json` gives a bad request first, then a body longer than the bound, then a parse failure; success exactly when all three pass, with the parsed value |
| Security.GuardOrder | lib/security.ts:9-19 | a wrong content type is reported whatever the body and parser; an oversized body whatever the parser |
| Security.BoundIsInclusive | lib/security.ts:8-17 | a body of exactly 20000 characters is not refused for size |
| RateLimit.ClientIp | lib/rate-limit.ts:16-24 | trimmed first X-Forwarded-For element, `unknown` when it is blank; without the header the User-Agent, else `unknown`; never empty |
| RateLimit.Key | lib/rate-limit.ts:28-29 | key is `prefix:ip:path`, prefix defaulting to `rl` |
| RateLimit.NextCounter | lib/rate-limit.ts:34-39 | no counter or `resetAt < now` starts a window (count 1, reset now + window); otherwise the count grows by exactly one, blocked or not, and `now == resetAt` stays in the old window |
| RateLimit.CeilDiv1000 | lib/rate-limit.ts:53 | `Math.ceil(x / 1000)` on integers, including negative ones |
| RateLimit.Decide | lib/rate-limit.ts:41-57 | blocked iff count > max; remaining = max(max − count, 0) ≥ 0; reset = floor(resetAt / 1000); Retry-After present iff blocked, 0 iff the window has ended, otherwise the ceiling of the remaining seconds |
| RateLimit.RequestsWithinWindow | lib/rate-limit.ts:34-39 | requests inside one window only add to its count |
| RateLimit.BurstCountsEveryRequest | lib/rate-limit.ts:34-43 | after n requests within one window of a fresh key the count is n, and the last is blocked iff n > max: the max-th request passes |
| RateLimit.BlockedUntilWindowEnds | lib/rate-limit.ts:34-43 | once blocked, every further request in the same window is blocked |
| RateLimit.RateLimiter.Lookup | lib/rate-limit.ts:32 | `store.get(key)`: present exactly when the key is stored, with its counter |
| RateLimit.RateLimiter.Check | lib/rate-limit.ts:26-58 | the store changes only at the computed key, to the next counter; the answer is the decision for that counter |
| BookingValidation.ValidateCreateBooking | lib/validations/booking.ts:3-9 | accepted iff userId and courseId are non-empty strings and the date string parses; the input is copied verbatim |
| BookingValidation.ValidUpdateBooking | lib/validations/booking.ts:13-22 | every field optional, each present one checked: the body with every field absent is accepted |
| BookingValidation.UpdateBookingFields | lib/validations/booking.ts:13-22 | the empty update is valid; a present status is one of the three, a present amount is > 0, a present payment intent id is non-empty |
| BookingValidation.UpdateBookingRejects | lib/validations/booking.ts:14-17 | a present status that is not a string or not one of the three, or a present amount that is not a number or not positive, makes an update invalid whatever the other fields hold |
| CourseValidation.ValidCreateCourse | lib/validations/course.ts:10-17 | `createCourseSchema`: a valid body has every field present |
| CourseValidation.ValidUpdateCourse | lib/validations/course.ts:21 | `createCourseSchema.partial()`: the body with every field absent is accepted |
| CourseValidation.PartialIsCreateWithoutPresence | lib/validations/course.ts:10-21 | a body satisfies the create schema iff every field is present and it satisfies the partial schema; the empty update is valid |
| CourseValidation.CreateCourseGuarantees | lib/validations/course.ts:3-17 | title ≥ 2 and description ≥ 10 characters, price > 0, duration and capacity whole numbers ≥ 1, level among the four |
| Ledger.SlotCount | app/api/bookings/route.ts:56-62 | the number of rows of the slot with a counted status; zero iff no such row |
| Ledger.SlotCountAppend | app/api/bookings/route.ts:56-89 | appending a row adds one to its own slot's count and nothing elsewhere |
| Ledger.SlotCountMonotone | app/api/webhook/route.ts:105-111 | the CONFIRMED count of a slot never exceeds its PENDING + CONFIRMED count |
| Ledger.FindActive | app/api/webhook/route.ts:91-98 | `findFirst` over active rows of (course, user, date): the first such row, or None iff there is none |
| Ledger.AppendKeepsCapacity | app/api/webhook/route.ts:104-117 | appending a row whose slot had room keeps every slot within capacity |
| Ledger.AppendKeepsNoDuplicate | app/api/bookings/route.ts:68-89 | appending a row for a user with no active booking of the slot keeps the table free of duplicates |
| Ledger.AppendedRowIsFound | app/api/webhook/route.ts:91-102 | after the insert, the same lookup finds exactly the new row |
| Ledger.ActiveCapacityBoundsConfirmed | app/api/create-checkout-session/route.ts:72-93 | a table within capacity for active rows is within capacity for CONFIRMED rows |
| BookingsRoute.PendingRow | app/api/bookings/route.ts:82-89 | the new row is PENDING, for the request's course, user and date, with no payment fields |
| BookingsRoute.CreateBooking | app/api/bookings/route.ts:41-91 | Forbidden, then NotFound, then Conflict on a full slot, then Conflict on a duplicate; when all four guards pass, Ok with the new PENDING row; nothing written on error; on success exactly that row appended; both table invariants kept, and the active-capacity property preserved |
| BookingsRoute.Post | app/api/bookings/route.ts:36-95 | a non-JSON body and a schema failure are bad requests before any guard; a valid body gets Forbidden, then NotFound, then Conflict on a full slot, then Conflict on a duplicate; it succeeds exactly when all four guards pass, with the new PENDING row for the request's course, user and date; on success exactly that row is appended |
| Checkout.SessionMetadata | app/api/create-checkout-session/route.ts:135-140 | exactly the keys courseId, date, userId, bookingType; the first three verbatim, the tag `course_booking` |
| Checkout.ExpiresAt | app/api/create-checkout-session/route.ts:141 | floor(now / 1000) + 1800 |
| Checkout.StripeSessionRequest | app/api/create-checkout-session/route.ts:113-150 | card payment in `payment` mode; one line item in eur at the course price, quantity 1, with the course description and course id and level as product metadata; success and cancel urls under the base url; the session metadata; expiry; billing address `required` and customer creation `always`; payment-intent metadata with course and user |
| Checkout.DemoSession | app/api/create-checkout-session/route.ts:157-163 | `createDemoSession`: the simulated session always has a url |
| Checkout.DemoSessionShape | app/api/create-checkout-session/route.ts:157-163 | the id is `demo_` followed by the digits of the timestamp, and the url is the provider pay page followed by the id |
| Checkout.CreateSession | app/api/create-checkout-session/route.ts:101-190 | Forbidden, NotFound, unparseable date, Conflict on a full slot (PENDING + CONFIRMED); when those pass: the demo session in demo mode, otherwise provider not configured, then missing base url, then the provider's session or an internal error when the provider call fails; success only when the slot had room |
| Checkout.CreateSessionSucceeds | app/api/create-checkout-session/route.ts:168-190 | when every guard passes and the mode is usable and the provider answers, a session opens |
| Checkout.FullSlotRefusedInEveryMode | app/api/create-checkout-session/route.ts:176-182 | a full slot is refused identically in demo and live mode |
| Checkout.HandleCreateCheckoutSession | app/api/create-checkout-session/route.ts:196-232 | the booking table is unchanged; the limiter counts the request; a blocked request gets 429 before the body is read; then the JSON guard, the schema and `createSession` decide; success carries the limiter headers |
| Webhook.AcceptableMetadata | app/api/webhook/route.ts:36-63 | accepted metadata is present and carries all four keys (course id, date, user id, booking type) |
| Webhook.ValidateSessionMetadata | app/api/webhook/route.ts:36-63 | metadata, then course id, date, user id (present and non-empty), then the exact booking type, then a parsable date; Ok iff all hold, with the fields verbatim |
| Webhook.MetadataRoundTrip | app/api/webhook/route.ts:36-63 | the metadata a checkout session carries passes validation whenever its ids and date are non-empty and the date parses |
| Webhook.ConfirmedRow | app/api/webhook/route.ts:117-130 | the inserted row is CONFIRMED and PAID, with the payment intent, the total (0 when absent or zero) and the currency (or `eur`) |
| Webhook.Confirmation | app/api/webhook/route.ts:71-146 | course missing, then user missing; an active booking of the slot is answered as it is; otherwise the new row when the CONFIRMED count is below capacity, and `CapacityExceeded` when it is not |
| Webhook.ConfirmationCanOverfillActive | app/api/webhook/route.ts:104-117 | a concrete table within active capacity where the confirmation still inserts a CONFIRMED row and takes the slot's active count over capacity |
| Webhook.ConfirmationIsIdempotent | app/api/webhook/route.ts:91-102 | confirming again against the table the first confirmation left gives the same answer and writes nothing |
| Webhook.CreateConfirmedBooking | app/api/webhook/route.ts:71-146 | answers as `Confirmation` on the old table; the table grows by the new row exactly when one was created; `Valid()` (CONFIRMED count ≤ capacity, no duplicates) is preserved |
| Webhook.Completion | app/api/webhook/route.ts:152-161 | a metadata error is passed on as it is; success implies valid metadata and an active booking for its course, user and date |
| Webhook.HandleCheckoutSessionCompleted | app/api/webhook/route.ts:152-161 | answers as `Completion` on the old table and leaves the table as `Completed` |
| Webhook.CompletionAppendsAtMostOne | app/api/webhook/route.ts:104-136 | a completion leaves the table as it was or appends exactly its CONFIRMED answer |
| Webhook.Post | app/api/webhook/route.ts:179-236 | missing signature is unauthorized before the secret is consulted; missing secret is an internal error; failed verification is unauthorized; other event types are acknowledged with their type and id and write nothing; a completed session is acknowledged only when its processing succeeds |
| Webhook.ReplayCompletedSession | app/api/webhook/route.ts:91-102 | delivering the same session twice gives the same answer and adds at most one row |
| Webhook.CheckoutThenComplete | app/api/create-checkout-session/route.ts:168-190 | a session opened for a slot with room, completed with its own metadata, leaves the user with an active booking for that course and date, a new CONFIRMED row unless one was active |
| Auth.Authorize | lib/auth/next-auth.config.ts:21-46 | missing email or password first; unknown email, no stored password and wrong password give the same error; success iff the pair matches, with id, email, name and role only |
| Auth.MissingCredentialsBeforeLookup | lib/auth/next-auth.config.ts:22-28 | incomplete credentials get the same answer whatever the user table and comparison |
| Auth.FailuresAreIndistinguishable | lib/auth/next-auth.config.ts:30-38 | complete credentials that do not match always get `Invalid credentials` |
| Auth.NowSeconds | lib/auth/next-auth.config.ts:58 | floor(Date.now() / 1000) |
| Auth.NextExp | lib/auth/next-auth.config.ts:56-67 | a non-zero expiry with under a day left becomes now + 7 days; otherwise it stays; it never decreases and stays 0 iff it was 0 |
| Auth.RefreshIsIdempotent | lib/auth/next-auth.config.ts:56-67 | running the callback twice at the same moment gives the same expiry as once |
| Auth.RefreshLeavesADay | lib/auth/next-auth.config.ts:58-63 | after the callback a token with an expiry has at least a day left |
| Auth.Jwt | lib/auth/next-auth.config.ts:50-68 | with a user the token gets its id and role; a due token is answered by a fresh copy with the new expiry, any other by itself |
| Auth.SessionCallback | lib/auth/next-auth.config.ts:69-75 | when the session has a user, its id and role become the token's; the same session is returned |
| WebVitals.ThresholdsOf | WebVitalsMonitor.tsx:39-45 | the recommended thresholds; every pair satisfies 0 < good < needsImprovement |
| WebVitals.Rate | WebVitalsMonitor.tsx:82-88 | good iff value ≤ good; needs improvement iff good < value ≤ needsImprovement; poor iff above |
| WebVitals.Points | WebVitalsMonitor.tsx:101 | 100, 50 or 0 |
| WebVitals.RatingMonotone | WebVitalsMonitor.tsx:82-88 | a larger value never earns more points |
| WebVitals.Contribution | WebVitalsMonitor.tsx:99-103 | an entry counts iff it is a vital with a non-null value; it adds between 0 and 100 |
| WebVitals.TallyOf | WebVitalsMonitor.tsx:98-104 | the count is at most the number of entries and the total at most 100 per counted entry |
| WebVitals.Score | WebVitalsMonitor.tsx:106 | 0 with nothing counted; otherwise total / count rounded half up |
| WebVitals.ScoreIsPercentage | WebVitalsMonitor.tsx:93-107 | the overall score lies in [0, 100] |
| WebVitals.UniformScores | WebVitalsMonitor.tsx:101-106 | all-good gives 100 and all-poor gives 0 |
| WebVitals.AllGoodTally | WebVitalsMonitor.tsx:98-104 | when every counted vital rates good, the total is 100 per counted entry |
| WebVitals.AllPoorTally | WebVitalsMonitor.tsx:98-104 | when every counted vital rates poor, the total is 0 |
| WebVitals.UniformMetricScores | WebVitalsMonitor.tsx:93-107 | over a metrics record: every recorded vital good (at least one recorded) gives 100, every recorded vital poor gives 0 |
| WebVitals.DescriptiveFieldsIgnored | WebVitalsMonitor.tsx:99 | timestamp, url and userAgent entries never change the totals |
| WebVitals.Without | WebVitalsMonitor.tsx:60 | the filter removes every registration of the callback and only those |
| WebVitals.WithoutAppend | WebVitalsMonitor.tsx:60 | the filter distributes over concatenation, so the remaining listeners keep their order |
| WebVitals.WithoutAbsent | WebVitalsMonitor.tsx:60 | removing a callback that is not registered changes nothing |
| WebVitals.SubscribeThenUnsubscribe | WebVitalsMonitor.tsx:57-62 | subscribing a new callback and calling its unsubscribe function restores the list |
| WebVitals.Broadcast | WebVitalsMonitor.tsx:75-77 | one call per listener, in order, each with the same record |
| WebVitals.PerformanceMonitor.AddListener | WebVitalsMonitor.tsx:57-58 | the callback is appended; nothing else changes |
| WebVitals.PerformanceMonitor.RemoveListener | WebVitalsMonitor.tsx:59-61 | the listeners become the filtered list; nothing else changes |
| WebVitals.PerformanceMonitor.NotifyListeners | WebVitalsMonitor.tsx:75-77 | the calls made are exactly the broadcast to the current listeners |
| WebVitals.PerformanceMonitor.UpdateMetric | WebVitalsMonitor.tsx:67-70 | only the named key is overwritten, a new key goes to the end of the entry order, then every listener is called once with the new record |
| WebVitals.PerformanceMonitor.OverallScore | WebVitalsMonitor.tsx:93-107 | on a registry whose entry order lists each recorded key once, the accumulator loop computes the score of the entries in order, within [0, 100] |
| JsonLd.MapHours | lib/seo/local-business-jsonld.ts:42-47 | same length and order as the configuration; each entry copies days, opens and closes |
| JsonLd.Qualifying | lib/seo/local-business-jsonld.ts:55 | a link is kept iff it is a non-empty string |
| JsonLd.Filter | lib/seo/local-business-jsonld.ts:49-55 | the `filter` over the links keeps at most as many as it is given |
| JsonLd.FilterKeepsExactly | lib/seo/local-business-jsonld.ts:55 | a url is kept iff it is one of the links and non-empty |
| JsonLd.FilterAppend | lib/seo/local-business-jsonld.ts:49-55 | the filter distributes over concatenation |
| JsonLd.SameAsInOrder | lib/seo/local-business-jsonld.ts:49-55 | the kept links are the non-empty ones in the order instagram, facebook, youtube, twitter, linkedin |
| JsonLd.NoSameAsIff | lib/seo/local-business-jsonld.ts:81 | no link is kept iff none of the five is a non-empty string |
| JsonLd.Build | lib/seo/local-business-jsonld.ts:39-83 | `@context` is schema.org and `@type` LocalBusiness; the address maps city, region and country code to locality, region and country; hours as mapped; `sameAs` absent iff no link qualifies, else the filtered links |

## Left out

- Payment provider SDK: session creation and signature verification are parameters. The provider's session record is reduced to the fields the handler reads.
- Database I/O and concurrency: the table is in memory, and each handler runs alone. The confirmation transaction is one atomic step. Row ids are positions, not generated identifiers. Included relations (course title, user email) are not modelled.
- Date handling: parsing is an oracle, and dates are compared as parsed timestamps.
- Checkout.CreateSession: an unparseable date in a checkout request is reported as its own bad request. The source would fail inside the availability query, with a status that the error handler decides.
- Webhook.ConfirmedRow: the amount is kept in integer minor units, `amount_total` as the provider gives it. The source divides by 100 into a floating-point number.
- Checkout.StripeSessionRequest: the unit amount is the course price held in minor units. The source computes it from a floating-point price with `Math.round(price * 100)`.
- Checkout.CreateSession: a provider call that throws (None from `stripeCreate`) is modelled as the internal error `ProviderFailure`. The thrown value goes to the error handler, and its status is not part of this model.
- BookingsRoute.Post: a body that `request.json()` cannot parse throws a SyntaxError. The handler passes it to the error handler, which is not part of this model. The model names the case `BadRequest(InvalidJson)`: it assumes the error handler answers a JSON syntax error with a bad request. It promises nothing about the HTTP status.
- Security.ParseJson: the length is counted in characters. JavaScript counts UTF-16 code units.
- Strings.Trim: the whitespace set is the ECMAScript one, taken per character. Surrogate pairs are not treated specially.
- BookingValidation.ValidateCreateBooking: schema failures are a single bad request. The list of issues zod reports is not modelled.
- The HTTP status mapping of the error handler (`lib/api/error-handler`) is not part of this model. Errors are an abstract taxonomy (bad request, unauthorized, forbidden, not found, conflict, internal), and plain `Error`s are internal errors, except the JSON syntax error of `request.json()` (see `BookingsRoute.Post` above).
- The checkout request schema (`lib/validations/checkout`) is not part of this model. It is the parameter `schema`.
- RateLimit.RateLimiter.Check: the headers are numbers. Their rendering with `String` is not modelled.
- Response bodies: timestamps, ISO strings, `success`/`message` texts and logging are not modelled.
- The demo webhook branch expected by the webhook tests does not exist in the route and is not modelled.
- Auth.Jwt: only the id, role, email and expiry claims are modelled. The spread copies every other claim unchanged. A non-numeric `exp` (NaN) is not modelled.
- The sign-in event that stamps `lastLogin` is a database write and is not modelled.
- WebVitals.PerformanceMonitor.NotifyListeners: a listener's call is recorded, not run. A listener that changes the registry while being notified is not modelled.
- WebVitals.Rate: measurements are exact reals. NaN and floating-point rounding are not modelled.
- Analytics reporting (`sendToAnalytics`), the React hook and the dashboard component are UI and I/O.
- The business configuration's contents are not part of this model. The builder takes the configuration as a parameter.
- `GET /api/bookings` is a read-only listing and is not modelled.
