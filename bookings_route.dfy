/** POST /api/bookings: an authenticated user books a slot directly. The guards run in the
    order of the handler (schema, ownership, course, capacity over PENDING + CONFIRMED rows,
    duplicate), then one PENDING row is appended. */
module BookingsRoute {
  import opened Common
  import opened Ledger
  import BookingValidation

  /** The row a direct booking creates: PENDING, with no payment fields. */
  function PendingRow(id: nat, input: BookingValidation.CreateBookingInput, date: int): (b: Booking)
    ensures b.status == PENDING && b.status in Active
    ensures b.courseId == input.courseId && b.userId == input.userId && b.date == date && b.id == id
    ensures b.paymentStatus.None? && b.stripePaymentIntentId.None? && b.amountMinor.None? && b.currency.None?
  {
    Booking(id, input.courseId, input.userId, date, PENDING, None, None, None, None)
  }

  /** The four guards of the handler pass: the caller books for themselves, the course
      exists, the slot's PENDING + CONFIRMED rows are below capacity and the user has no
      active booking of the slot. */
  predicate Admissible(courses: map<string, Course>, bookings: seq<Booking>,
                       input: BookingValidation.CreateBookingInput, authUserId: string, date: int)
  {
    && input.userId == authUserId && input.courseId in courses
    && SlotCount(bookings, input.courseId, date, Active) < courses[input.courseId].capacity
    && FindActive(bookings, input.courseId, input.userId, date).None?
  }

  /** The guard chain and the insert, for a body that passed the schema; `date` is the
      parsed timestamp of `input.date`. */
  method CreateBooking(store: BookingStore, input: BookingValidation.CreateBookingInput,
                       authUserId: string, date: int) returns (r: Result<Booking, ApiError>)
    requires store.Valid()
    modifies store
    ensures store.Valid()
    ensures store.courses == old(store.courses) && store.users == old(store.users)
    ensures input.userId != authUserId ==> r == Err(Forbidden)
    ensures input.userId == authUserId && input.courseId !in store.courses ==> r == Err(NotFound)
    ensures input.userId == authUserId && input.courseId in store.courses &&
            SlotCount(old(store.bookings), input.courseId, date, Active) >= store.courses[input.courseId].capacity
            ==> r == Err(Conflict(SlotFull))
    ensures input.userId == authUserId && input.courseId in store.courses &&
            SlotCount(old(store.bookings), input.courseId, date, Active) < store.courses[input.courseId].capacity &&
            FindActive(old(store.bookings), input.courseId, input.userId, date).Some?
            ==> r == Err(Conflict(DuplicateBooking))
    ensures Admissible(old(store.courses), old(store.bookings), input, authUserId, date) ==>
              r == Ok(PendingRow(|old(store.bookings)|, input, date))
    ensures r.Err? ==> store.bookings == old(store.bookings)
    ensures r.Ok? ==> store.bookings == old(store.bookings) + [r.value] &&
                      r.value == PendingRow(|old(store.bookings)|, input, date)
    ensures WithinCapacity(store.courses, old(store.bookings), Active) ==>
              WithinCapacity(store.courses, store.bookings, Active)
  {
    if input.userId != authUserId {
      return Err(Forbidden);
    }
    if input.courseId !in store.courses {
      return Err(NotFound);
    }
    var course := store.courses[input.courseId];
    var existingCount := SlotCount(store.bookings, input.courseId, date, Active);
    if existingCount >= course.capacity {
      return Err(Conflict(SlotFull));
    }
    var duplicate := FindActive(store.bookings, input.courseId, input.userId, date);
    if duplicate.Some? {
      return Err(Conflict(DuplicateBooking));
    }
    var booking := PendingRow(|store.bookings|, input, date);
    AppendKeepsNoDuplicate(store.bookings, booking);
    AppendKeepsCapacity(store.courses, store.bookings, booking, ConfirmedOnly);
    if WithinCapacity(store.courses, store.bookings, Active) {
      AppendKeepsCapacity(store.courses, store.bookings, booking, Active);
    }
    store.bookings := store.bookings + [booking];
    r := Ok(booking);
  }

  /** The whole handler: `body` is None when the request body is not JSON; the schema runs
      before any guard on the store. */
  method Post(store: BookingStore, body: Option<BookingValidation.CreateBookingBody>,
              authUserId: string, parse: string -> Option<int>) returns (r: Result<Booking, ApiError>)
    requires store.Valid()
    modifies store
    ensures store.Valid()
    ensures store.courses == old(store.courses) && store.users == old(store.users)
    ensures body.None? ==> r == Err(BadRequest(InvalidJson))
    ensures body.Some? && BookingValidation.ValidateCreateBooking(body.value, parse).None? ==>
              r == Err(BadRequest(ValidationFailed))
    ensures r.Err? ==> store.bookings == old(store.bookings)
    ensures r.Ok? ==> store.bookings == old(store.bookings) + [r.value] && r.value.status == PENDING
    ensures r.Ok? ==> r.value.userId == authUserId && body.Some? &&
                      BookingValidation.ValidateCreateBooking(body.value, parse).Some?
    ensures body.Some? && BookingValidation.ValidateCreateBooking(body.value, parse).Some? ==>
              var input := BookingValidation.ValidateCreateBooking(body.value, parse).value;
              var date := parse(input.date).value;
              && (input.userId != authUserId ==> r == Err(Forbidden))
              && (input.userId == authUserId && input.courseId !in old(store.courses) ==> r == Err(NotFound))
              && ((input.userId == authUserId && input.courseId in old(store.courses) &&
                   SlotCount(old(store.bookings), input.courseId, date, Active)
                     >= old(store.courses)[input.courseId].capacity) ==> r == Err(Conflict(SlotFull)))
              && ((input.userId == authUserId && input.courseId in old(store.courses) &&
                   SlotCount(old(store.bookings), input.courseId, date, Active)
                     < old(store.courses)[input.courseId].capacity &&
                   FindActive(old(store.bookings), input.courseId, input.userId, date).Some?)
                  ==> r == Err(Conflict(DuplicateBooking)))
              && (r.Ok? <==> Admissible(old(store.courses), old(store.bookings), input, authUserId, date))
              && (r.Ok? ==> r.value == PendingRow(|old(store.bookings)|, input, date))
    ensures WithinCapacity(store.courses, old(store.bookings), Active) ==>
              WithinCapacity(store.courses, store.bookings, Active)
  {
    if body.None? {
      return Err(BadRequest(InvalidJson));
    }
    var input := BookingValidation.ValidateCreateBooking(body.value, parse);
    if input.None? {
      return Err(BadRequest(ValidationFailed));
    }
    r := CreateBooking(store, input.value, authUserId, parse(input.value.date).value);
  }
}
