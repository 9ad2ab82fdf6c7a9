/** create_booking as backend/api/bookings.py writes it: row lock, conflict query and insert in one transaction, and at
    each await a turn for everybody else. Every run of it is a run of Bookings. */
module BookingTransaction {
  import opened Intervals
  import opened Bookings

  /** The event is a step of transaction tx, or takes the id it will insert. */
  predicate Concerns(e: Event, tx: TxId, id: BookingId) {
    match e
    case LockOrganizer(tx', _, _) => tx' == tx
    case CheckConflict(tx') => tx' == tx
    case Commit(tx', id') => tx' == tx || id' == id
    case Abort(tx') => tx' == tx
    case _ => false
  }

  lemma OthersLeaveTransaction(s: State, e: Event, tx: TxId, id: BookingId)
    requires Enabled(s, e) && !Concerns(e, tx, id)
    ensures var s' := Next(s, e);
      && (tx in s.transactions <==> tx in s'.transactions)
      && (tx in s.transactions ==> s'.transactions[tx] == s.transactions[tx])
      && (id in s.bookings <==> id in s'.bookings)
  {
    hide CreateConflict, RescheduleConflict, Duplicate;
  }

  lemma {:induction false} LeadsThenOne(s: State, es: seq<Event>, s': State, e: Event)
    requires Leads(s, es, s') && Enabled(s', e)
    ensures Leads(s, es + [e], Next(s', e))
    decreases |es|
  {
    hide Next, Enabled;
    if es == [] {
      assert [e][1..] == [];
    } else {
      assert (es + [e])[0] == es[0] && (es + [e])[1..] == es[1..] + [e];
      LeadsThenOne(Next(s, es[0]), es[1..], s', e);
    }
  }

  datatype Reply = Created | SlotConflict | DuplicateTimes | LockTimedOut

  /** The reply of an undisturbed create_booking of organizer u for interval i over the bookings t: refused exactly when
      a booking of u overlaps i, by the unique index exactly when none does and yet one has the very times of i. */
  ghost predicate RepliesExactly(t: Table, u: UserId, i: Interval, reply: Reply) {
    var clash := exists id ::
      id in t && t[id].organizer == u && t[id].interval.start < i.end && t[id].interval.end > i.start;
    var same := exists id :: id in t && t[id].organizer == u && t[id].interval == i;
    reply == if clash then SlotConflict else if same then DuplicateTimes else Created
  }

  class Server {
    const db: Database
    const others: nat -> seq<Event>
    var awaits: nat
    ghost var history: seq<Event>

    constructor (db: Database, others: nat -> seq<Event>)
      requires db.View() == EMPTY
      ensures this.db == db && Faithful()
    {
      this.db, this.others, awaits := db, others, 0;
      history := [];
    }

    /** What happened so far is a run of the state machine. */
    ghost predicate Faithful()
      reads this, db
    {
      Leads(EMPTY, history, db.View())
    }

    /** Nobody else does anything. */
    ghost predicate Quiet() {
      forall k :: others(k) == []
    }

    ghost method Record(s: State, e: Event)
      requires Leads(EMPTY, history, s) && Enabled(s, e) && db.View() == Next(s, e)
      modifies this`history
      ensures Faithful()
    {
      hide Leads, Next, Enabled;
      LeadsThenOne(EMPTY, history, s, e);
      history := history + [e];
    }

    method Apply(e: Event)
      requires Faithful() && Enabled(db.View(), e)
      modifies this, db
      ensures Faithful() && db.View() == Next(old(db.View()), e)
    {
      hide Leads, Next;
      ghost var s := db.View();
      db.Take(e);
      Record(s, e);
    }

    /** An await in transaction tx. */
    method Await(tx: TxId, id: BookingId)
      requires Faithful() && id !in db.bookings
      modifies this, db
      ensures Faithful() && id !in db.bookings
      ensures tx in db.transactions <==> tx in old(db.transactions)
      ensures tx in db.transactions ==> db.transactions[tx] == old(db.transactions)[tx]
      ensures Quiet() ==> db.View() == old(db.View())
    {
      hide Leads, Next, Enabled;
      var script := others(awaits);
      awaits := awaits + 1;
      for i := 0 to |script|
        invariant Faithful() && id !in db.bookings
        invariant tx in db.transactions <==> tx in old(db.transactions)
        invariant tx in db.transactions ==> db.transactions[tx] == old(db.transactions)[tx]
        invariant Quiet() ==> db.View() == old(db.View())
      {
        if Enabled(db.View(), script[i]) && !Concerns(script[i], tx, id) {
          OthersLeaveTransaction(db.View(), script[i], tx, id);
          Apply(script[i]);
        }
      }
    }

    /** create_booking in transaction tx; patience bounds its wait for the row lock. Whatever others do, it is a
        run of the state machine that ends the transaction, and its reply tells whether the booking stands. */
    method CreateBooking(tx: TxId, u: UserId, i: Interval, id: BookingId, patience: nat) returns (reply: Reply)
      requires Faithful() && tx !in db.transactions && id !in db.bookings
      modifies this, db
      ensures Faithful() && tx !in db.transactions
      ensures reply.Created? <==> id in db.bookings
      ensures reply.Created? ==> db.bookings[id] == Booking(u, i, Confirmed)
      ensures Quiet() && u !in old(db.rowLocks) ==> RepliesExactly(old(db.bookings), u, i, reply)
      ensures Quiet() && u !in old(db.rowLocks) ==> u !in db.rowLocks
      ensures Quiet() && !reply.Created? ==> db.bookings == old(db.bookings)
      ensures Quiet() && reply.Created? ==> db.bookings == old(db.bookings)[id := Booking(u, i, Confirmed)]
    {
      hide Leads, CreateConflict, Duplicate;
      for turn := 0 to patience
        invariant Faithful() && tx !in db.transactions && id !in db.bookings
        invariant Quiet() ==> db.View() == old(db.View())
      {
        if u in db.rowLocks {
          Await(tx, id);
        }
      }
      if u in db.rowLocks {
        return LockTimedOut;
      }
      ghost var s := db.View();
      db.LockOrganizerRow(tx, u, i);
      Record(s, LockOrganizer(tx, u, i));
      Await(tx, id);
      s := db.View();
      var refused := db.QueryConflict(tx);
      Record(s, CheckConflict(tx));
      if refused {
        return SlotConflict;
      }
      Await(tx, id);
      s := db.View();
      var inserted := db.InsertAndCommit(tx, id);
      Record(s, Commit(tx, id));
      reply := if inserted then Created else DuplicateTimes;
    }
  }
}
