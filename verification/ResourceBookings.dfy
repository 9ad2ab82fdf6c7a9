/** Bookings of shared resources: book_resource and cancel_resource_booking of backend/api/resource_routes.py, whose
    conflict query spells overlap in three clauses. Times are seconds, one request at a time. */
module ResourceBookings {
  import opened Options
  import opened Intervals

  type ResourceId = string
  type BookingId = string
  type UserId = string

  const MINUTE := 60
  const HOUR := 3600

  datatype Resource = Resource(isActive: bool, capacity: Option<int>, minBookingDuration: int, maxBookingDuration: int,
                               minNoticeHours: int, hourlyRate: Option<real>, requiresApproval: bool)

  datatype Status = Pending | Approved | Cancelled

  datatype Booking = Booking(resource: ResourceId, user: UserId, interval: Interval, attendees: int, status: Status,
                             totalCost: Option<real>)

  datatype Request = Request(resource: ResourceId, interval: Interval, attendees: int)

  datatype Reply = Booked(id: BookingId) | NotFound | NotAvailable | OverCapacity | TooShort | TooLong | TooSoon

  datatype CancelReply = CancelDone | NoSuchBooking | AlreadyCancelled

  datatype State = State(resources: map<ResourceId, Resource>, bookings: map<BookingId, Booking>)

  predicate Live(b: Booking) {
    b.status != Cancelled
  }

  /** The conflict query: b covers the requested start, b covers the requested end, or b lies inside the request. */
  predicate ThreeClauses(b: Interval, r: Interval) {
    || (b.start <= r.start && b.end > r.start)
    || (b.start < r.end && b.end >= r.end)
    || (b.start >= r.start && b.end <= r.end)
  }

  predicate Conflicts(bookings: map<BookingId, Booking>, q: Request) {
    exists id :: id in bookings && bookings[id].resource == q.resource && Live(bookings[id]) &&
      ThreeClauses(bookings[id].interval, q.interval)
  }

  /** Every demand the endpoint makes of a request for a resource that exists and is free. */
  predicate Acceptable(r: Resource, q: Request, now: int) {
    && (r.capacity.None? || r.capacity.value == 0 || q.attendees <= r.capacity.value)
    && MINUTE * r.minBookingDuration <= q.interval.end - q.interval.start <= MINUTE * r.maxBookingDuration
    && (r.minNoticeHours > 0 ==> q.interval.start >= now + HOUR * r.minNoticeHours)
  }

  function Cost(seconds: int, hourlyRate: real): real {
    seconds as real / 3600.0 * hourlyRate
  }

  function Row(r: Resource, q: Request, user: UserId): Booking {
    Booking(q.resource, user, q.interval, q.attendees, if r.requiresApproval then Pending else Approved,
            if r.hourlyRate.None? || r.hourlyRate.value == 0.0 then None
            else Some(Cost(q.interval.end - q.interval.start, r.hourlyRate.value)))
  }

  /** The row says what was asked, by whom, and what the resource makes of it. */
  predicate Fills(b: Booking, r: Resource, q: Request, user: UserId) {
    && b.resource == q.resource && b.user == user && b.interval == q.interval && b.attendees == q.attendees
    && (b.status == Pending <==> r.requiresApproval) && (b.status == Approved <==> !r.requiresApproval)
    && (r.hourlyRate == None || r.hourlyRate == Some(0.0) ==> b.totalCost == None)
    && (r.hourlyRate.Some? && r.hourlyRate.value != 0.0 ==>
      b.totalCost.Some? &&
      3600.0 * b.totalCost.value == (q.interval.end - q.interval.start) as real * r.hourlyRate.value)
  }

  /** Whether book_resource accepts. */
  predicate Grants(s: State, q: Request, now: int) {
    && q.resource in s.resources
    && s.resources[q.resource].isActive
    && !Conflicts(s.bookings, q)
    && Acceptable(s.resources[q.resource], q, now)
  }

  datatype Event =
    | PutResource(resource: ResourceId, settings: Resource)
    | Book(id: BookingId, request: Request, user: UserId, now: int)
    | Cancel(booking: BookingId, caller: UserId)

  function Next(s: State, e: Event): State {
    match e
    case PutResource(r, settings) => s.(resources := s.resources[r := settings])
    case Book(id, q, user, now) =>
      if Grants(s, q, now) then s.(bookings := s.bookings[id := Row(s.resources[q.resource], q, user)]) else s
    case Cancel(id, caller) =>
      if id in s.bookings && s.bookings[id].user == caller
      then s.(bookings := s.bookings[id := s.bookings[id].(status := Cancelled)]) else s
  }

  /** New bookings get new ids, and no resource lets a booking be shorter than a minute. */
  predicate Enabled(s: State, e: Event) {
    match e
    case PutResource(_, settings) => settings.minBookingDuration >= 1
    case Book(id, _, _, _) => id !in s.bookings
    case Cancel(_, _) => true
  }

  /** The two tables. */
  class Database {
    var resources: map<ResourceId, Resource>
    var bookings: map<BookingId, Booking>

    ghost function View(): State
      reads this
    {
      State(resources, bookings)
    }

    method BookResource(id: BookingId, q: Request, user: UserId, now: int) returns (reply: Reply)
      requires id !in bookings
      modifies this`bookings
      ensures View() == Next(old(View()), Book(id, q, user, now))
      ensures reply.Booked? <==> id in bookings
      ensures reply.Booked? ==> reply.id == id
      ensures reply.NotFound? <==> q.resource !in resources || !resources[q.resource].isActive
      ensures reply.NotAvailable? <==> !reply.NotFound? && Conflicts(old(bookings), q)
      ensures !reply.NotFound? && !reply.NotAvailable? ==>
        var r, seconds := resources[q.resource], q.interval.end - q.interval.start;
        reply == if r.capacity.Some? && r.capacity.value != 0 && q.attendees > r.capacity.value then OverCapacity
                 else if seconds < 60 * r.minBookingDuration then TooShort
                 else if seconds > 60 * r.maxBookingDuration then TooLong
                 else if r.minNoticeHours > 0 && q.interval.start < now + 3600 * r.minNoticeHours then TooSoon
                 else Booked(id)
      ensures reply.Booked? ==> bookings == old(bookings)[id := bookings[id]] && Fills(bookings[id],
                                                                                   resources[q.resource], q, user)
      ensures !reply.Booked? ==> bookings == old(bookings)
    {
      if q.resource !in resources || !resources[q.resource].isActive {
        return NotFound;
      }
      var resource := resources[q.resource];
      if Conflicts(bookings, q) {
        return NotAvailable;
      }
      if resource.capacity.Some? && resource.capacity.value != 0 && q.attendees > resource.capacity.value {
        return OverCapacity;
      }
      var duration := q.interval.end - q.interval.start;
      if duration < MINUTE * resource.minBookingDuration {
        return TooShort;
      }
      if duration > MINUTE * resource.maxBookingDuration {
        return TooLong;
      }
      if resource.minNoticeHours > 0 {
        var minStart := now + HOUR * resource.minNoticeHours;
        if q.interval.start < minStart {
          return TooSoon;
        }
      }
      var totalCost := None;
      if resource.hourlyRate.Some? && resource.hourlyRate.value != 0.0 {
        totalCost := Some(Cost(duration, resource.hourlyRate.value));
      }
      var status := if resource.requiresApproval then Pending else Approved;
      bookings := bookings[id := Booking(q.resource, user, q.interval, q.attendees, status, totalCost)];
      return Booked(id);
    }

    method CancelResourceBooking(id: BookingId, caller: UserId) returns (reply: CancelReply)
      modifies this`bookings
      ensures View() == Next(old(View()), Cancel(id, caller))
      ensures reply.NoSuchBooking? <==> id !in old(bookings) || old(bookings)[id].user != caller
      ensures reply.CancelDone? ==> id in old(bookings) && Live(old(bookings)[id]) && !Live(bookings[id])
      ensures !reply.CancelDone? ==> bookings == old(bookings)
    {
      if id !in bookings || bookings[id].user != caller {
        return NoSuchBooking;
      }
      if bookings[id].status == Cancelled {
        return AlreadyCancelled;
      }
      bookings := bookings[id := bookings[id].(status := Cancelled)];
      return CancelDone;
    }
  }

  // ----- The overlap test -----

  /** For a nonempty request the three clauses say half-open overlap, or that an empty or inverted stored interval
      has both ends within the request. */
  lemma ThreeClausesExactly(b: Interval, r: Interval)
    requires r.start < r.end
    ensures ThreeClauses(b, r) <==> Overlaps(b, r) || (b.end <= b.start && r.start <= b.start && b.end <= r.end)
  {
  }

  /** On nonempty intervals the three clauses say that some instant is in both, whichever is the stored one. */
  lemma ThreeClausesIsOverlap(b: Interval, r: Interval)
    requires b.start < b.end && r.start < r.end
    ensures ThreeClauses(b, r) <==> Overlaps(b, r)
    ensures ThreeClauses(b, r) <==> ThreeClauses(r, b)
    ensures ThreeClauses(b, r) <==> exists t :: Covers(b, t) && Covers(r, t)
  {
    if Overlaps(b, r) {
      var t := if b.start < r.start then r.start else b.start;
      assert Covers(b, t) && Covers(r, t);
    }
  }

  // ----- Runs -----

  /** Both live, on one resource. */
  predicate Rivals(a: Booking, b: Booking) {
    a.resource == b.resource && Live(a) && Live(b)
  }

  ghost predicate Disjoint(bookings: map<BookingId, Booking>) {
    forall a, b :: a in bookings && b in bookings && a != b && Rivals(bookings[a], bookings[b]) ==>
      !Overlaps(bookings[a].interval, bookings[b].interval)
  }

  ghost predicate Inv(s: State) {
    && Disjoint(s.bookings)
    && (forall id :: id in s.bookings ==> s.bookings[id].interval.start < s.bookings[id].interval.end)
    && (forall r :: r in s.resources ==> s.resources[r].minBookingDuration >= 1)
  }

  lemma BookKeepsInv(s: State, id: BookingId, q: Request, user: UserId, now: int)
    requires Inv(s) && id !in s.bookings
    ensures Inv(Next(s, Book(id, q, user, now)))
  {
    if Grants(s, q, now) {
      forall other | other in s.bookings && s.bookings[other].resource == q.resource && Live(s.bookings[other])
        ensures !Overlaps(s.bookings[other].interval, q.interval) && !Overlaps(q.interval, s.bookings[other].interval)
      {
        ThreeClausesIsOverlap(s.bookings[other].interval, q.interval);
      }
    }
  }

  lemma NextKeepsInv(s: State, e: Event)
    requires Inv(s) && Enabled(s, e)
    ensures Inv(Next(s, e))
  {
    if e.Book? {
      BookKeepsInv(s, e.id, e.request, e.user, e.now);
    }
  }

  ghost predicate Leads(s: State, es: seq<Event>, s': State)
    decreases |es|
  {
    if es == [] then s == s' else Enabled(s, es[0]) && Leads(Next(s, es[0]), es[1..], s')
  }

  const EMPTY := State(map[], map[])

  lemma {:induction false} InvHolds(s: State, es: seq<Event>, s': State)
    requires Inv(s) && Leads(s, es, s')
    ensures Inv(s')
    decreases |es|
  {
    if es != [] {
      NextKeepsInv(s, es[0]);
      InvHolds(Next(s, es[0]), es[1..], s');
    }
  }

  /** At no instant do two live bookings hold the same resource. */
  lemma LiveBookingsAreDisjoint(es: seq<Event>, s: State, a: BookingId, b: BookingId, t: int)
    requires Leads(EMPTY, es, s) && a in s.bookings && b in s.bookings && a != b
    requires Rivals(s.bookings[a], s.bookings[b])
    ensures !(Covers(s.bookings[a].interval, t) && Covers(s.bookings[b].interval, t))
  {
    InvHolds(EMPTY, es, s);
    assert !Overlaps(s.bookings[a].interval, s.bookings[b].interval);
  }

  /** In every reachable state, an acceptable request for an active resource is granted exactly when no live booking
      of the resource shares an instant with it. */
  lemma GrantedIffFree(es: seq<Event>, s: State, q: Request, now: int)
    requires Leads(EMPTY, es, s) && q.resource in s.resources && s.resources[q.resource].isActive
    requires Acceptable(s.resources[q.resource], q, now)
    ensures Grants(s, q, now) <==>
      forall id :: id in s.bookings && s.bookings[id].resource == q.resource && s.bookings[id].status != Cancelled ==>
        !Overlaps(s.bookings[id].interval, q.interval)
  {
    InvHolds(EMPTY, es, s);
    forall id | id in s.bookings
      ensures ThreeClauses(s.bookings[id].interval, q.interval) <==> Overlaps(s.bookings[id].interval, q.interval)
    {
      ThreeClausesIsOverlap(s.bookings[id].interval, q.interval);
    }
  }

  /** A cancelled booking gives its time back: granted again to anyone, as soon as its owner cancels. */
  lemma CancellingFreesTheTime(es: seq<Event>, s: State, id: BookingId, q: Request, now: int)
    requires Leads(EMPTY, es, s) && id in s.bookings && Live(s.bookings[id])
    requires q.resource == s.bookings[id].resource && q.interval == s.bookings[id].interval
    requires q.resource in s.resources && s.resources[q.resource].isActive
    requires Acceptable(s.resources[q.resource], q, now)
    ensures !Grants(s, q, now)
    ensures Grants(Next(s, Cancel(id, s.bookings[id].user)), q, now)
  {
    var cancel := Cancel(id, s.bookings[id].user);
    var s' := Next(s, cancel);
    InvHolds(EMPTY, es, s);
    assert Overlaps(s.bookings[id].interval, q.interval);
    GrantedIffFree(es, s, q, now);
    NextKeepsInv(s, cancel);
    forall other | other in s'.bookings && s'.bookings[other].resource == q.resource && Live(s'.bookings[other])
      ensures !ThreeClauses(s'.bookings[other].interval, q.interval)
    {
      assert other != id && s'.bookings[other] == s.bookings[other];
      assert !Overlaps(s.bookings[other].interval, s.bookings[id].interval);
      ThreeClausesIsOverlap(s'.bookings[other].interval, q.interval);
    }
  }
}
