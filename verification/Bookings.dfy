/** Conflict control for an organizer's bookings: create_booking, cancel_booking, reschedule_booking and
    update_booking of backend/api/bookings.py, public reschedule and cancel of backend/api/public.py. Times are
    seconds. */
module Bookings {
  import opened Intervals

  type UserId = string
  type BookingId = string
  type TxId = nat

  datatype Status = Pending | Confirmed | Accepted | Rescheduled | Cancelled | Other(name: string)

  datatype Booking = Booking(organizer: UserId, interval: Interval, status: Status)

  type Table = map<BookingId, Booking>

  /** The statuses the public reschedule treats as occupying their time. */
  predicate Active(b: Booking) {
    b.status.Pending? || b.status.Confirmed? || b.status.Accepted? || b.status.Rescheduled?
  }

  /** create_booking's conflict query: every booking of the organizer, whatever its status. */
  predicate CreateConflict(t: Table, u: UserId, i: Interval) {
    exists id :: id in t && t[id].organizer == u && Overlaps(t[id].interval, i)
  }

  /** The public reschedule's conflict query: the organizer's other active bookings. */
  predicate RescheduleConflict(t: Table, id: BookingId, u: UserId, i: Interval) {
    exists other :: other in t && t[other].organizer == u && other != id && Active(t[other]) &&
      Overlaps(t[other].interval, i)
  }

  /** The unique index on organizer, start and end. */
  predicate Duplicate(t: Table, id: BookingId, u: UserId, i: Interval) {
    exists other :: other in t && other != id && t[other].organizer == u && t[other].interval == i
  }

  /** A create_booking transaction between its awaits; each holds its organizer's row lock. */
  datatype Transaction =
    | Locked(organizer: UserId, interval: Interval)
    | Checked(organizer: UserId, interval: Interval)

  /** bookings is the committed table. */
  datatype State = State(bookings: Table, rowLocks: map<UserId, TxId>, transactions: map<TxId, Transaction>)

  datatype Event =
    | LockOrganizer(tx: TxId, organizer: UserId, interval: Interval)
    | CheckConflict(tx: TxId)
    | Commit(tx: TxId, id: BookingId)
    | Abort(tx: TxId)
    | Cancel(id: BookingId)
    | Reschedule(id: BookingId, interval: Interval, now: int, outside: Outside)
    | OrganizerReschedule(id: BookingId, interval: Interval)
    | Update(id: BookingId, status: Status)

  function Release(s: State, tx: TxId): State
    requires tx in s.transactions
  {
    s.(transactions := s.transactions - {tx},
       rowLocks := map u | u in s.rowLocks && s.rowLocks[u] != tx :: s.rowLocks[u])
  }

  /** What the public endpoints find outside the bookings: the action token, the organizer's row, the time zone, the
      slot list and the calendar events. */
  datatype Outside =
    Outside(tokenValid: bool, organizerFound: bool, zoneValid: bool, slotOffered: bool, eventsFree: bool)

  const WILLING: Outside := Outside(true, true, true, true, true)

  datatype RescheduleReply =
    | NotFound | InvalidToken | CancelledBooking | OrganizerNotFound | InvalidZone | InThePast | SlotTaken | Conflict
    | EventConflict | DuplicateRow | Moved

  /** reschedule_public_booking: its reply and the table after it. */
  function ReschedulePublic(t: Table, id: BookingId, i: Interval, now: int, o: Outside): (RescheduleReply, Table) {
    if id !in t then (NotFound, t)
    else if !o.tokenValid then (InvalidToken, t)
    else if t[id].status.Cancelled? then (CancelledBooking, t)
    else if !o.organizerFound then (OrganizerNotFound, t)
    else if !o.zoneValid then (InvalidZone, t)
    else if i.start <= now then (InThePast, t)
    else if !o.slotOffered then (SlotTaken, t)
    else if RescheduleConflict(t, id, t[id].organizer, i) then (Conflict, t)
    else if !o.eventsFree then (EventConflict, t)
    else if Duplicate(t, id, t[id].organizer, i) then (DuplicateRow, t)
    else (Moved, t[id := t[id].(interval := i, status := Rescheduled)])
  }

  predicate Enabled(s: State, e: Event) {
    match e
    case LockOrganizer(tx, u, _) => tx !in s.transactions && u !in s.rowLocks
    case CheckConflict(tx) => tx in s.transactions && s.transactions[tx].Locked?
    case Commit(tx, id) => tx in s.transactions && s.transactions[tx].Checked? && id !in s.bookings
    case Abort(tx) => tx in s.transactions
    case Cancel(_) => true
    case Reschedule(_, _, _, _) => true
    case OrganizerReschedule(_, _) => true
    case Update(_, _) => true
  }

  /** reschedule_booking makes no conflict check; only the unique index can refuse. */
  function RescheduleUnchecked(t: Table, id: BookingId, i: Interval): Table {
    if id !in t || Duplicate(t, id, t[id].organizer, i) then t
    else t[id := t[id].(interval := i, status := Rescheduled)]
  }

  function SetStatus(t: Table, id: BookingId, status: Status): Table {
    if id in t then t[id := t[id].(status := status)] else t
  }

  function Next(s: State, e: Event): State
    requires Enabled(s, e)
  {
    match e
    case LockOrganizer(tx, u, i) =>
      s.(rowLocks := s.rowLocks[u := tx], transactions := s.transactions[tx := Locked(u, i)])
    case CheckConflict(tx) =>
      var Locked(u, i) := s.transactions[tx];
      if CreateConflict(s.bookings, u, i) then Release(s, tx)
      else s.(transactions := s.transactions[tx := Checked(u, i)])
    case Commit(tx, id) =>
      var Checked(u, i) := s.transactions[tx];
      if Duplicate(s.bookings, id, u, i) then Release(s, tx)
      else Release(s, tx).(bookings := s.bookings[id := Booking(u, i, Confirmed)])
    case Abort(tx) => Release(s, tx)
    case Cancel(id) => s.(bookings := SetStatus(s.bookings, id, Cancelled))
    case Reschedule(id, i, now, o) => s.(bookings := ReschedulePublic(s.bookings, id, i, now, o).1)
    case OrganizerReschedule(id, i) => s.(bookings := RescheduleUnchecked(s.bookings, id, i))
    case Update(id, status) => s.(bookings := SetStatus(s.bookings, id, status))
  }

  /** The bookings table with its row locks; each method is one step of an endpoint. */
  class Database {
    var bookings: Table
    var rowLocks: map<UserId, TxId>
    var transactions: map<TxId, Transaction>

    constructor ()
      ensures View() == State(map[], map[], map[])
    {
      bookings, rowLocks, transactions := map[], map[], map[];
    }

    function View(): State
      reads this
    {
      State(bookings, rowLocks, transactions)
    }

    /** Any step, whoever takes it. */
    method Take(e: Event)
      requires Enabled(View(), e)
      modifies this
      ensures View() == Next(old(View()), e)
    {
      var s := Next(View(), e);
      bookings, rowLocks, transactions := s.bookings, s.rowLocks, s.transactions;
    }

    method LockOrganizerRow(tx: TxId, u: UserId, i: Interval)
      requires Enabled(View(), LockOrganizer(tx, u, i))
      modifies this
      ensures View() == Next(old(View()), LockOrganizer(tx, u, i))
    {
      rowLocks := rowLocks[u := tx];
      transactions := transactions[tx := Locked(u, i)];
    }

    method EndTransaction(tx: TxId)
      requires tx in transactions
      modifies this`rowLocks, this`transactions
      ensures View() == Release(old(View()), tx)
    {
      transactions := transactions - {tx};
      rowLocks := map u | u in rowLocks && rowLocks[u] != tx :: rowLocks[u];
    }

    method QueryConflict(tx: TxId) returns (refused: bool)
      requires Enabled(View(), CheckConflict(tx))
      modifies this
      ensures View() == Next(old(View()), CheckConflict(tx))
      ensures refused <==> tx !in transactions
      ensures var Locked(u, i) := old(transactions[tx]);
        refused <==> exists id ::
          id in bookings && bookings[id].organizer == u &&
          bookings[id].interval.start < i.end && bookings[id].interval.end > i.start
      ensures bookings == old(bookings)
    {
      var Locked(u, i) := transactions[tx];
      if CreateConflict(bookings, u, i) {
        EndTransaction(tx);
        return true;
      }
      transactions := transactions[tx := Checked(u, i)];
      return false;
    }

    method InsertAndCommit(tx: TxId, id: BookingId) returns (inserted: bool)
      requires Enabled(View(), Commit(tx, id))
      modifies this
      ensures View() == Next(old(View()), Commit(tx, id))
      ensures inserted <==> id in bookings
      ensures var Checked(u, i) := old(transactions[tx]);
        && (inserted <==> forall other :: other in old(bookings) && old(bookings)[other].organizer == u ==>
              old(bookings)[other].interval != i)
        && bookings == if inserted then old(bookings)[id := Booking(u, i, Confirmed)] else old(bookings)
    {
      var Checked(u, i) := transactions[tx];
      inserted := !Duplicate(bookings, id, u, i);
      EndTransaction(tx);
      if inserted {
        bookings := bookings[id := Booking(u, i, Confirmed)];
      }
    }

    /** cancel_booking, for the organizer's own bookings. */
    method CancelBooking(id: BookingId, caller: UserId) returns (found: bool)
      modifies this`bookings
      ensures found <==> id in old(bookings) && old(bookings)[id].organizer == caller
      ensures View() == if found then Next(old(View()), Cancel(id)) else old(View())
      ensures found ==> bookings[id] == Booking(caller, old(bookings)[id].interval, Cancelled)
    {
      found := id in bookings && bookings[id].organizer == caller;
      if found {
        bookings := bookings[id := bookings[id].(status := Cancelled)];
      }
    }

    /** cancel_public_booking, for the holder of the action token; a second time it changes nothing. */
    method CancelPublicBooking(id: BookingId, tokenValid: bool) returns (accepted: bool)
      modifies this`bookings
      ensures accepted <==> id in old(bookings) && tokenValid
      ensures View() == if accepted then Next(old(View()), Cancel(id)) else old(View())
      ensures accepted ==> bookings[id].status == Cancelled
    {
      if id !in bookings || !tokenValid {
        return false;
      }
      if bookings[id].status.Cancelled? {
        return true;
      }
      bookings := bookings[id := bookings[id].(status := Cancelled)];
      return true;
    }

    /** reschedule_booking, for the organizer's own bookings; false stands for a refusal. */
    method RescheduleBooking(id: BookingId, caller: UserId, i: Interval) returns (moved: bool)
      modifies this`bookings
      ensures moved <==>
        id in old(bookings) && old(bookings)[id].organizer == caller && !Duplicate(old(bookings), id, caller, i)
      ensures View() == if moved then Next(old(View()), OrganizerReschedule(id, i)) else old(View())
      ensures moved ==> bookings == old(bookings)[id := Booking(caller, i, Rescheduled)]
    {
      if id !in bookings || bookings[id].organizer != caller || Duplicate(bookings, id, caller, i) {
        return false;
      }
      bookings := bookings[id := bookings[id].(interval := i)];
      bookings := bookings[id := bookings[id].(status := Rescheduled)];
      return true;
    }

    /** update_booking, which stores whatever status it is given. */
    method UpdateBooking(id: BookingId, caller: UserId, status: Status) returns (found: bool)
      modifies this`bookings
      ensures found <==> id in old(bookings) && old(bookings)[id].organizer == caller
      ensures View() == if found then Next(old(View()), Update(id, status)) else old(View())
      ensures found ==> bookings[id] == Booking(caller, old(bookings)[id].interval, status)
    {
      found := id in bookings && bookings[id].organizer == caller;
      if found {
        bookings := bookings[id := bookings[id].(status := status)];
      }
    }

    method ReschedulePublicBooking(id: BookingId, i: Interval, now: int, o: Outside) returns (reply: RescheduleReply)
      modifies this`bookings
      ensures View() == Next(old(View()), Reschedule(id, i, now, o))
      ensures reply == ReschedulePublic(old(bookings), id, i, now, o).0
      ensures reply == NotFound <==> id !in old(bookings)
      ensures reply == CancelledBooking ==> old(bookings)[id].status == Cancelled
      ensures reply == InThePast ==> i.start <= now
      ensures reply == Conflict ==> exists other ::
        other in bookings && other != id && bookings[other].organizer == bookings[id].organizer &&
        Active(bookings[other]) && bookings[other].interval.start < i.end && bookings[other].interval.end > i.start
      ensures reply == DuplicateRow ==> exists other ::
        other in bookings && other != id && bookings[other].organizer == bookings[id].organizer &&
        bookings[other].interval == i
      ensures reply == Moved ==>
        i.start > now && bookings == old(bookings)[id := Booking(old(bookings)[id].organizer, i, Rescheduled)]
      ensures reply != Moved ==> bookings == old(bookings)
    {
      if id !in bookings {
        return NotFound;
      }
      if !o.tokenValid {
        return InvalidToken;
      }
      var b := bookings[id];
      if b.status.Cancelled? {
        return CancelledBooking;
      }
      if !o.organizerFound {
        return OrganizerNotFound;
      }
      if !o.zoneValid {
        return InvalidZone;
      }
      if i.start <= now {
        return InThePast;
      }
      if !o.slotOffered {
        return SlotTaken;
      }
      if RescheduleConflict(bookings, id, b.organizer, i) {
        return Conflict;
      }
      if !o.eventsFree {
        return EventConflict;
      }
      if Duplicate(bookings, id, b.organizer, i) {
        return DuplicateRow;
      }
      b := b.(interval := i);
      b := b.(status := Rescheduled);
      bookings := bookings[id := b];
      return Moved;
    }
  }

  /** A create_booking transaction of the organizer has passed its check for an overlapping interval. */
  predicate CheckedConflict(s: State, u: UserId, i: Interval) {
    exists tx :: tx in s.transactions && s.transactions[tx].Checked? && s.transactions[tx].organizer == u &&
      Overlaps(s.transactions[tx].interval, i)
  }

  /** What a step outside the row lock must not do: give an active booking time that another active booking has, or that
      a transaction has already checked. The public reschedule makes the first half sure by itself. */
  predicate Harmless(s: State, e: Event) {
    match e
    case Reschedule(id, i, now, o) =>
      ReschedulePublic(s.bookings, id, i, now, o).0 == Moved ==> !CheckedConflict(s, s.bookings[id].organizer, i)
    case OrganizerReschedule(id, i) =>
      id in s.bookings && !Duplicate(s.bookings, id, s.bookings[id].organizer, i) ==> FreeFor(s, id, i)
    case Update(id, status) =>
      id in s.bookings && Active(s.bookings[id].(status := status)) ==> FreeFor(s, id, s.bookings[id].interval)
    case _ => true
  }

  predicate FreeFor(s: State, id: BookingId, i: Interval)
    requires id in s.bookings
  {
    var u := s.bookings[id].organizer;
    !RescheduleConflict(s.bookings, id, u, i) && !CheckedConflict(s, u, i)
  }

  // ----- Safety -----

  ghost predicate Disjoint(t: Table) {
    forall a, b :: a in t && b in t && a != b && t[a].organizer == t[b].organizer && Active(t[a]) && Active(t[b]) ==>
      !Overlaps(t[a].interval, t[b].interval)
  }

  ghost predicate LocksHeld(s: State) {
    forall tx :: tx in s.transactions ==>
      s.transactions[tx].organizer in s.rowLocks && s.rowLocks[s.transactions[tx].organizer] == tx
  }

  ghost predicate ChecksStand(s: State) {
    forall tx, id :: tx in s.transactions && s.transactions[tx].Checked? && id in s.bookings ==>
      var b, t := s.bookings[id], s.transactions[tx];
      b.organizer == t.organizer && Active(b) ==> !Overlaps(b.interval, t.interval)
  }

  ghost predicate Inv(s: State) {
    Disjoint(s.bookings) && LocksHeld(s) && ChecksStand(s)
  }

  lemma CommitKeepsInv(s: State, tx: TxId, id: BookingId)
    requires Inv(s) && Enabled(s, Commit(tx, id))
    ensures Inv(Next(s, Commit(tx, id)))
  {
  }

  /** The row of booking id alone is replaced, by an active one of the same organizer. */
  lemma ReplacingKeepsExactly(s: State, id: BookingId, b: Booking)
    requires Inv(s) && id in s.bookings && b.organizer == s.bookings[id].organizer && Active(b)
    ensures Inv(s.(bookings := s.bookings[id := b])) <==> FreeFor(s, id, b.interval)
  {
    var s' := s.(bookings := s.bookings[id := b]);
    if RescheduleConflict(s.bookings, id, b.organizer, b.interval) {
      var other :| other in s.bookings && s.bookings[other].organizer == b.organizer && other != id &&
        Active(s.bookings[other]) && Overlaps(s.bookings[other].interval, b.interval);
      assert s'.bookings[other] == s.bookings[other] && s'.bookings[id] == b;
      assert !Disjoint(s'.bookings);
    }
    if CheckedConflict(s, b.organizer, b.interval) {
      var tx :| tx in s.transactions && s.transactions[tx].Checked? && s.transactions[tx].organizer == b.organizer &&
        Overlaps(s.transactions[tx].interval, b.interval);
      assert s'.bookings[id] == b && s'.transactions[tx] == s.transactions[tx];
      assert !ChecksStand(s');
    }
  }

  /** A booking that is not active is in nobody's way. */
  lemma RetiringKeepsInv(s: State, id: BookingId, b: Booking)
    requires Inv(s) && id in s.bookings && b.organizer == s.bookings[id].organizer && !Active(b)
    ensures Inv(s.(bookings := s.bookings[id := b]))
  {
  }

  lemma SettingStatusKeepsExactly(s: State, id: BookingId, status: Status)
    requires Inv(s)
    ensures Inv(s.(bookings := SetStatus(s.bookings, id, status))) <==>
      (id in s.bookings && Active(s.bookings[id].(status := status)) ==> FreeFor(s, id, s.bookings[id].interval))
  {
    hide Inv;
    if id in s.bookings {
      var b := s.bookings[id].(status := status);
      if Active(b) {
        ReplacingKeepsExactly(s, id, b);
      } else {
        RetiringKeepsInv(s, id, b);
      }
    } else {
      assert s.(bookings := s.bookings) == s;
    }
  }

  lemma ReschedulingKeepsExactly(s: State, e: Event)
    requires Inv(s) && (e.Reschedule? || e.OrganizerReschedule?)
    ensures Inv(Next(s, e)) <==> Harmless(s, e)
  {
    hide Inv;
    if Next(s, e).bookings == s.bookings {
      assert Next(s, e) == s;
    }
    if e.id in s.bookings {
      ReplacingKeepsExactly(s, e.id, s.bookings[e.id].(interval := e.interval, status := Rescheduled));
    }
  }

  /** Exactly the harmless steps keep the bookings disjoint and the checks standing. */
  lemma NextKeepsExactly(s: State, e: Event)
    requires Inv(s) && Enabled(s, e)
    ensures Inv(Next(s, e)) <==> Harmless(s, e)
  {
    match e
    case Commit(tx, id) => CommitKeepsInv(s, tx, id);
    case Cancel(id) => SettingStatusKeepsExactly(s, id, Cancelled);
    case Update(id, status) => SettingStatusKeepsExactly(s, id, status);
    case Reschedule(_, _, _, _) => ReschedulingKeepsExactly(s, e);
    case OrganizerReschedule(_, _) => ReschedulingKeepsExactly(s, e);
    case _ =>
  }

  ghost predicate Leads(s: State, es: seq<Event>, s': State)
    decreases |es|
  {
    if es == [] then s == s' else Enabled(s, es[0]) && Leads(Next(s, es[0]), es[1..], s')
  }

  /** As Leads, every step being harmless. */
  ghost predicate LeadsHarmlessly(s: State, es: seq<Event>, s': State)
    decreases |es|
  {
    if es == [] then s == s'
    else Enabled(s, es[0]) && Harmless(s, es[0]) && LeadsHarmlessly(Next(s, es[0]), es[1..], s')
  }

  const EMPTY := State(map[], map[], map[])

  lemma {:induction false} InvHolds(s: State, es: seq<Event>, s': State)
    requires Inv(s) && LeadsHarmlessly(s, es, s')
    ensures Inv(s')
    decreases |es|
  {
    hide Inv, Harmless;
    if es != [] {
      NextKeepsExactly(s, es[0]);
      InvHolds(Next(s, es[0]), es[1..], s');
    }
  }

  /** However the transactions interleave, two active bookings of one organizer never overlap, as long as the steps
      outside the row lock are harmless. */
  lemma ActiveBookingsNeverOverlap(es: seq<Event>, s: State, a: BookingId, b: BookingId)
    requires LeadsHarmlessly(EMPTY, es, s) && a in s.bookings && b in s.bookings && a != b
    requires s.bookings[a].organizer == s.bookings[b].organizer
    requires s.bookings[a].status in {Pending, Confirmed, Accepted, Rescheduled}
    requires s.bookings[b].status in {Pending, Confirmed, Accepted, Rescheduled}
    ensures s.bookings[a].interval.end <= s.bookings[b].interval.start ||
            s.bookings[b].interval.end <= s.bookings[a].interval.start
  {
    InvHolds(EMPTY, es, s);
  }

  // ----- Cancelled bookings -----

  /** The steps that may bring a cancelled booking back; both belong to its organizer. */
  predicate MayRevive(e: Event, id: BookingId) {
    match e
    case OrganizerReschedule(id', _) => id' == id
    case Update(id', status) => id' == id && !status.Cancelled?
    case _ => false
  }

  /** A cancelled booking comes back exactly when its organizer reschedules it to times no other booking has, or
      gives it another status. No other step changes it at all. */
  lemma RevivedExactly(s: State, e: Event, id: BookingId)
    requires Enabled(s, e) && id in s.bookings && s.bookings[id].status.Cancelled?
    ensures id in Next(s, e).bookings
    ensures !Next(s, e).bookings[id].status.Cancelled? <==>
      MayRevive(e, id) && (e.OrganizerReschedule? ==> !Duplicate(s.bookings, id, s.bookings[id].organizer, e.interval))
    ensures !MayRevive(e, id) ==> Next(s, e).bookings[id] == s.bookings[id]
  {
    hide Duplicate, RescheduleConflict, CreateConflict;
  }

  /** Through every run without such a step a cancelled booking stays as it is. */
  lemma {:induction false} CancelledUntilRevived(s: State, es: seq<Event>, s': State, id: BookingId)
    requires Leads(s, es, s') && id in s.bookings && s.bookings[id].status.Cancelled?
    requires forall e :: e in es ==> !MayRevive(e, id)
    ensures id in s'.bookings && s'.bookings[id] == s.bookings[id]
    decreases |es|
  {
    hide Next, Enabled;
    if es != [] {
      assert es[0] in es && forall e :: e in es[1..] ==> e in es;
      RevivedExactly(s, es[0], id);
      CancelledUntilRevived(Next(s, es[0]), es[1..], s', id);
    }
  }

  /** create_booking refuses exactly the times that overlap some booking of the organizer, whatever its status. */
  lemma CreationRefusedExactly(s: State, tx: TxId)
    requires Enabled(s, CheckConflict(tx))
    ensures var Locked(u, i) := s.transactions[tx];
      tx !in Next(s, CheckConflict(tx)).transactions <==>
      exists id ::
        id in s.bookings && s.bookings[id].organizer == u &&
        s.bookings[id].interval.start < i.end && s.bookings[id].interval.end > i.start
  {
    var Locked(u, i) := s.transactions[tx];
    if CreateConflict(s.bookings, u, i) {
      var id :| id in s.bookings && s.bookings[id].organizer == u && Overlaps(s.bookings[id].interval, i);
      assert s.bookings[id].organizer == u;
    }
  }

  /** Tables that agree on the rows of organizer u, ids and times; everybody else's rows may differ. */
  ghost predicate SameRowsOf(t: Table, t': Table, u: UserId) {
    forall id :: (id in t && t[id].organizer == u) || (id in t' && t'[id].organizer == u) ==>
      id in t && id in t' && t[id].organizer == t'[id].organizer && t[id].interval == t'[id].interval
  }

  /** Other organizers' bookings never decide whether create_booking is refused, nor does any status. */
  lemma OtherRowsNeverDecide(s: State, tx: TxId, t: Table)
    requires Enabled(s, CheckConflict(tx)) && SameRowsOf(s.bookings, t, s.transactions[tx].organizer)
    ensures tx in Next(s.(bookings := t), CheckConflict(tx)).transactions <==>
            tx in Next(s, CheckConflict(tx)).transactions
  {
    CreationRefusedExactly(s, tx);
    CreationRefusedExactly(s.(bookings := t), tx);
    hide Next, CreateConflict;
  }

  /** Cancelled bookings count: cancelling a booking does not give its time back to create_booking. */
  lemma CancelledBookingsStillBlockCreation(s: State, tx: TxId, cancelled: BookingId)
    requires Enabled(s, CheckConflict(tx))
    ensures (tx in Next(Next(s, Cancel(cancelled)), CheckConflict(tx)).transactions) <==>
            (tx in Next(s, CheckConflict(tx)).transactions)
    ensures var Locked(u, i) := s.transactions[tx];
      cancelled in s.bookings && s.bookings[cancelled].organizer == u &&
      s.bookings[cancelled].interval.start < i.end && s.bookings[cancelled].interval.end > i.start ==>
        tx !in Next(Next(s, Cancel(cancelled)), CheckConflict(tx)).transactions
  {
    var t := SetStatus(s.bookings, cancelled, Cancelled);
    assert Next(s, Cancel(cancelled)) == s.(bookings := t);
    OtherRowsNeverDecide(s, tx, t);
    CreationRefusedExactly(s, tx);
    hide Next, CreateConflict;
  }

  /** For the public reschedule a cancelled booking is no obstacle, unless it has exactly the new times. */
  lemma CancellingFreesTheSlotForReschedule(t: Table, id: BookingId, i: Interval, now: int, o: Outside)
    ensures ReschedulePublic(t, id, i, now, o).0 == Moved <==>
      && id in t && !t[id].status.Cancelled? && i.start > now && o == WILLING
      && forall other :: other in t && other != id && t[other].organizer == t[id].organizer ==>
        t[other].interval != i &&
        (t[other].status in {Pending, Confirmed, Accepted, Rescheduled} ==> !Overlaps(t[other].interval, i))
  {
  }

  /** A transaction that finds the time free. */
  lemma ChecksFreely(s: State, tx: TxId, u: UserId, i: Interval, es: seq<Event>, s': State) returns (all: seq<Event>)
    requires tx !in s.transactions && u !in s.rowLocks && !CreateConflict(s.bookings, u, i)
    requires LeadsHarmlessly(s.(rowLocks := s.rowLocks[u := tx], transactions := s.transactions[tx := Checked(u, i)]),
      es, s')
    ensures LeadsHarmlessly(s, all, s')
  {
    hide LeadsHarmlessly, CreateConflict;
    var s1 := Next(s, LockOrganizer(tx, u, i));
    assert s1.transactions[tx := Checked(u, i)] == s.transactions[tx := Checked(u, i)];
    all := HarmlessFirst(s1, CheckConflict(tx), es, s');
    all := HarmlessFirst(s, LockOrganizer(tx, u, i), all, s');
  }

  /** Ada has booking "old", and transaction 1 has found the time from 20 to 30 free. */
  lemma ChecksAnotherBooking() returns (es: seq<Event>, s: State)
    ensures LeadsHarmlessly(EMPTY, es, s)
    ensures s == State(map["old" := Booking("ada", Interval(0, 10), Confirmed)], map["ada" := 1],
                       map[1 := Checked("ada", Interval(20, 30))])
  {
    var booked := State(map["old" := Booking("ada", Interval(0, 10), Confirmed)], map[], map[]);
    s := State(booked.bookings, map["ada" := 1], map[1 := Checked("ada", Interval(20, 30))]);
    assert LeadsHarmlessly(s, [], s);
    hide LeadsHarmlessly;
    es := ChecksFreely(booked, 1, "ada", Interval(20, 30), [], s);
    es := BooksFreely("old", Interval(0, 10), es, s);
  }

  lemma HarmlessFirst(s: State, e: Event, es: seq<Event>, s': State) returns (all: seq<Event>)
    requires Enabled(s, e) && Harmless(s, e) && LeadsHarmlessly(Next(s, e), es, s')
    ensures LeadsHarmlessly(s, all, s')
  {
    all := [e] + es;
    assert all[1..] == es;
  }

  /** Ada books a time and cancels, and her next transaction for the same time is refused, though no booking is
      active. */
  lemma CancelledTimeIsRefused() returns (es: seq<Event>, s: State)
    ensures LeadsHarmlessly(EMPTY, es, s)
    ensures s == State(map["x" := Booking("ada", Interval(0, 10), Cancelled)], map["ada" := 1],
                       map[1 := Locked("ada", Interval(0, 10))])
    ensures Enabled(s, CheckConflict(1)) && 1 !in Next(s, CheckConflict(1)).transactions
  {
    var i := Interval(0, 10);
    var booked := State(map["x" := Booking("ada", i, Confirmed)], map[], map[]);
    var cancelled := State(map["x" := Booking("ada", i, Cancelled)], map[], map[]);
    s := State(cancelled.bookings, map["ada" := 1], map[1 := Locked("ada", i)]);
    assert Overlaps(s.bookings["x"].interval, i);
    assert LeadsHarmlessly(s, [], s);
    hide LeadsHarmlessly;
    assert Next(cancelled, LockOrganizer(1, "ada", i)) == s;
    es := HarmlessFirst(cancelled, LockOrganizer(1, "ada", i), [], s);
    assert Next(booked, Cancel("x")) == cancelled;
    es := HarmlessFirst(booked, Cancel("x"), es, s);
    es := BooksFreely("x", i, es, s);
  }

  /** Ada's first booking. */
  lemma BooksFreely(id: BookingId, i: Interval, es: seq<Event>, s: State) returns (all: seq<Event>)
    requires LeadsHarmlessly(State(map[id := Booking("ada", i, Confirmed)], map[], map[]), es, s)
    ensures LeadsHarmlessly(EMPTY, all, s)
  {
    hide LeadsHarmlessly;
    var checked := State(map[], map["ada" := 0], map[0 := Checked("ada", i)]);
    assert Next(checked, Commit(0, id)) == State(map[id := Booking("ada", i, Confirmed)], map[], map[]);
    all := HarmlessFirst(checked, Commit(0, id), es, s);
    all := ChecksFreely(EMPTY, 0, "ada", i, all, s);
  }

  /** Two organizers book the same time in transactions that overlap, and both bookings stand. */
  lemma OrganizersDoNotCompete(u: UserId, v: UserId, i: Interval, a: BookingId, b: BookingId) returns (es: seq<Event>)
    requires u != v && a != b
    ensures LeadsHarmlessly(EMPTY, es,
                            State(map[a := Booking(u, i, Confirmed), b := Booking(v, i, Confirmed)], map[], map[]))
  {
    var s := State(map[a := Booking(u, i, Confirmed), b := Booking(v, i, Confirmed)], map[], map[]);
    var one := State(map[a := Booking(u, i, Confirmed)], map[v := 1], map[1 := Checked(v, i)]);
    var both := State(map[], map[u := 0, v := 1], map[0 := Checked(u, i), 1 := Checked(v, i)]);
    assert LeadsHarmlessly(s, [], s);
    hide LeadsHarmlessly;
    assert Next(one, Commit(1, b)) == s;
    es := HarmlessFirst(one, Commit(1, b), [], s);
    assert Next(both, Commit(0, a)) == one;
    es := HarmlessFirst(both, Commit(0, a), es, s);
    hide Next, Enabled, Harmless;
    es := ChecksFreely(State(map[], map[u := 0], map[0 := Checked(u, i)]), 1, v, i, es, s);
    es := ChecksFreely(EMPTY, 0, u, i, es, s);
  }

  /** A public reschedule that moves a booking onto time a transaction has already checked: the transaction commits, and
      two active bookings overlap. */
  lemma RescheduleInsideWindowOverlaps() returns (es: seq<Event>, s: State, move: Event, s': State)
    ensures LeadsHarmlessly(EMPTY, es, s) && Enabled(s, move) && move.Reschedule? && !Harmless(s, move)
    ensures Enabled(Next(s, move), Commit(1, "new")) && s' == Next(Next(s, move), Commit(1, "new"))
    ensures !Disjoint(s'.bookings)
  {
    hide LeadsHarmlessly;
    es, s := ChecksAnotherBooking();
    move := Reschedule("old", Interval(25, 35), 0, WILLING);
    assert ReschedulePublic(s.bookings, "old", Interval(25, 35), 0, WILLING).0 == Moved;
    assert s.transactions[1].Checked? && Overlaps(s.transactions[1].interval, Interval(25, 35));
    var s1 := Next(s, move);
    assert s1.bookings["old"] == Booking("ada", Interval(25, 35), Rescheduled);
    assert !Duplicate(s1.bookings, "new", "ada", Interval(20, 30));
    s' := Next(s1, Commit(1, "new"));
    assert s'.bookings["new"] == Booking("ada", Interval(20, 30), Confirmed);
    assert Overlaps(s'.bookings["old"].interval, s'.bookings["new"].interval);
  }
}
