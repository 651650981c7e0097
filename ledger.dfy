/** The booking ledger: course and booking records, per-slot counts, the two invariants of
    the table (capacity per slot, no duplicate active booking), and the store the routes
    update. A slot is a (course id, date) pair; dates are parsed timestamps compared by
    equality. */
module Ledger {
  import opened Common

  datatype Status = PENDING | CONFIRMED | CANCELLED

  /** A course row, keyed by its id in the store. The price is kept in minor currency units. */
  datatype Course = Course(
    title: string, description: string, priceCents: int,
    duration: nat, capacity: nat, level: string)

  /** A booking row. Payment fields are unset (None) on a row created before payment. */
  datatype Booking = Booking(
    id: nat, courseId: string, userId: string, date: int, status: Status,
    paymentStatus: Option<string>, stripePaymentIntentId: Option<string>,
    amountMinor: Option<int>, currency: Option<string>)

  /** The statuses that hold a place: PENDING and CONFIRMED. */
  const Active: set<Status> := {PENDING, CONFIRMED}

  const ConfirmedOnly: set<Status> := {CONFIRMED}

  predicate InSlot(b: Booking, courseId: string, date: int, statuses: set<Status>)
  {
    b.courseId == courseId && b.date == date && b.status in statuses
  }

  /** The number of rows of slot (courseId, date) whose status is in `statuses` (the
      `booking.count` queries). */
  function SlotCount(bs: seq<Booking>, courseId: string, date: int, statuses: set<Status>): (n: nat)
    ensures n <= |bs|
    ensures n == 0 <==> forall i :: 0 <= i < |bs| ==> !InSlot(bs[i], courseId, date, statuses)
  {
    if bs == [] then 0
    else
      var rest := SlotCount(bs[1..], courseId, date, statuses);
      assert forall i :: 1 <= i < |bs| ==> bs[i] == bs[1..][i - 1];
      (if InSlot(bs[0], courseId, date, statuses) then 1 else 0) + rest
  }

  lemma {:induction false} SlotCountAppend(bs: seq<Booking>, b: Booking, courseId: string,
                                           date: int, statuses: set<Status>)
    ensures SlotCount(bs + [b], courseId, date, statuses)
            == SlotCount(bs, courseId, date, statuses) + (if InSlot(b, courseId, date, statuses) then 1 else 0)
  {
    if bs != [] {
      assert (bs + [b])[1..] == bs[1..] + [b];
      SlotCountAppend(bs[1..], b, courseId, date, statuses);
    }
  }

  /** Counting fewer statuses gives fewer rows: the CONFIRMED count of a slot never exceeds
      its active count. */
  lemma {:induction false} SlotCountMonotone(bs: seq<Booking>, courseId: string, date: int,
                                             fewer: set<Status>, more: set<Status>)
    requires fewer <= more
    ensures SlotCount(bs, courseId, date, fewer) <= SlotCount(bs, courseId, date, more)
  {
    if bs != [] {
      SlotCountMonotone(bs[1..], courseId, date, fewer, more);
    }
  }

  /** `b` is an active booking of user `userId` for slot (courseId, date). */
  predicate IsActiveFor(b: Booking, courseId: string, userId: string, date: int)
  {
    b.courseId == courseId && b.userId == userId && b.date == date && b.status in Active
  }

  /** The position of the first active booking of `userId` for the slot (the `findFirst`
      queries), or None when there is none. */
  function FindActive(bs: seq<Booking>, courseId: string, userId: string, date: int): (r: Option<nat>)
    ensures r.Some? ==> r.value < |bs| && IsActiveFor(bs[r.value], courseId, userId, date)
    ensures r.Some? ==> forall j :: 0 <= j < r.value ==> !IsActiveFor(bs[j], courseId, userId, date)
    ensures r.None? <==> forall i :: 0 <= i < |bs| ==> !IsActiveFor(bs[i], courseId, userId, date)
  {
    if bs == [] then None
    else if IsActiveFor(bs[0], courseId, userId, date) then Some(0)
    else
      var rest := FindActive(bs[1..], courseId, userId, date);
      assert forall i :: 1 <= i < |bs| ==> bs[i] == bs[1..][i - 1];
      match rest
      case None => None
      case Some(k) => Some(k + 1)
  }

  /** Every slot of every known course holds at most `capacity` rows with a status in
      `statuses`. */
  ghost predicate WithinCapacity(courses: map<string, Course>, bs: seq<Booking>, statuses: set<Status>)
  {
    forall courseId, date :: courseId in courses ==>
      SlotCount(bs, courseId, date, statuses) <= courses[courseId].capacity
  }

  /** No two active rows share course, user and date. */
  ghost predicate NoDuplicateActive(bs: seq<Booking>)
  {
    forall i, j :: 0 <= i < j < |bs| && IsActiveFor(bs[i], bs[j].courseId, bs[j].userId, bs[j].date) ==>
      bs[j].status !in Active
  }

  /** Appending a row keeps a capacity invariant when the row's own slot still had room, or
      when the row's status is not counted. */
  lemma AppendKeepsCapacity(courses: map<string, Course>, bs: seq<Booking>, b: Booking,
                            statuses: set<Status>)
    requires WithinCapacity(courses, bs, statuses)
    requires b.status in statuses && b.courseId in courses ==>
               SlotCount(bs, b.courseId, b.date, statuses) < courses[b.courseId].capacity
    ensures WithinCapacity(courses, bs + [b], statuses)
  {
    forall courseId, date | courseId in courses
      ensures SlotCount(bs + [b], courseId, date, statuses) <= courses[courseId].capacity
    {
      SlotCountAppend(bs, b, courseId, date, statuses);
    }
  }

  /** Appending a row for which the user has no active booking yet keeps the table free of
      duplicates. */
  lemma AppendKeepsNoDuplicate(bs: seq<Booking>, b: Booking)
    requires NoDuplicateActive(bs)
    requires FindActive(bs, b.courseId, b.userId, b.date).None?
    ensures NoDuplicateActive(bs + [b])
  {
    var bs' := bs + [b];
    assert forall i :: 0 <= i < |bs| ==> bs'[i] == bs[i];
    assert bs'[|bs|] == b;
  }

  /** After an active row has been appended for a user with no active booking for the slot,
      the lookup finds exactly that row: a second request for the same slot sees it. */
  lemma AppendedRowIsFound(bs: seq<Booking>, b: Booking)
    requires b.status in Active
    requires FindActive(bs, b.courseId, b.userId, b.date).None?
    ensures FindActive(bs + [b], b.courseId, b.userId, b.date) == Some(|bs|)
  {
    var bs' := bs + [b];
    assert IsActiveFor(bs'[|bs|], b.courseId, b.userId, b.date);
    assert forall j :: 0 <= j < |bs| ==> bs'[j] == bs[j];
  }

  /** An active-capacity invariant implies the confirmed-capacity one. */
  lemma ActiveCapacityBoundsConfirmed(courses: map<string, Course>, bs: seq<Booking>)
    requires WithinCapacity(courses, bs, Active)
    ensures WithinCapacity(courses, bs, ConfirmedOnly)
  {
    forall courseId, date | courseId in courses
      ensures SlotCount(bs, courseId, date, ConfirmedOnly) <= courses[courseId].capacity
    {
      SlotCountMonotone(bs, courseId, date, ConfirmedOnly, Active);
    }
  }

  /** The booking and course tables, with the user ids that exist. */
  class BookingStore {
    var courses: map<string, Course>
    var users: set<string>
    var bookings: seq<Booking>

    /** Row ids are positions; no duplicate active booking; no slot holds more CONFIRMED
        rows than its course's capacity. */
    ghost predicate Valid()
      reads this
    {
      && (forall i :: 0 <= i < |bookings| ==> bookings[i].id == i)
      && NoDuplicateActive(bookings)
      && WithinCapacity(courses, bookings, ConfirmedOnly)
    }

    constructor (courses: map<string, Course>, users: set<string>)
      ensures Valid()
      ensures this.courses == courses && this.users == users && bookings == []
    {
      this.courses := courses;
      this.users := users;
      bookings := [];
    }
  }
}
