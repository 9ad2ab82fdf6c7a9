/** book_resource of backend/api/resource_routes.py with its conflict query and its insert as separate steps; it takes
    no lock. */
module ResourceRaces {
  import opened Options
  import opened Intervals
  import opened ResourceBookings

  type TxId = nat

  /** approved holds the rows that passed every test and are still to be inserted. */
  datatype Shared = Shared(tables: State, approved: map<TxId, Booking>)

  datatype Step =
    | Approve(tx: TxId, request: Request, user: UserId, now: int)
    | Insert(tx: TxId, id: BookingId)
    | Other(event: Event)

  /** What an insert would have to test again. */
  predicate Clashes(bookings: map<BookingId, Booking>, b: Booking) {
    exists id :: id in bookings && Rivals(bookings[id], b) && ThreeClauses(bookings[id].interval, b.interval)
  }

  predicate CanTake(s: Shared, e: Step) {
    match e
    case Approve(x, _, _, _) => x !in s.approved
    case Insert(x, id) => x in s.approved && id !in s.tables.bookings
    case Other(event) => !event.Book? && Enabled(s.tables, event)
  }

  function After(s: Shared, e: Step): Shared
    requires CanTake(s, e)
  {
    match e
    case Approve(x, q, user, now) =>
      if Grants(s.tables, q, now)
      then s.(approved := s.approved[x := Row(s.tables.resources[q.resource], q, user)]) else s
    case Insert(x, id) =>
      Shared(s.tables.(bookings := s.tables.bookings[id := s.approved[x]]), s.approved - {x})
    case Other(event) => s.(tables := Next(s.tables, event))
  }

  ghost predicate Sound(s: Shared) {
    && Inv(s.tables)
    && (forall x :: x in s.approved ==>
      Live(s.approved[x]) && s.approved[x].interval.start < s.approved[x].interval.end)
  }

  predicate Safe(s: Shared, e: Step) {
    e.Insert? && e.tx in s.approved ==> !Clashes(s.tables.bookings, s.approved[e.tx])
  }

  lemma InsertKeepsExactly(s: Shared, x: TxId, id: BookingId)
    requires Sound(s) && CanTake(s, Insert(x, id))
    ensures Sound(After(s, Insert(x, id))) <==> Safe(s, Insert(x, id))
  {
    var b, t, t' := s.approved[x], s.tables.bookings, After(s, Insert(x, id)).tables.bookings;
    forall other | other in t
      ensures ThreeClauses(t[other].interval, b.interval) <==> Overlaps(t[other].interval, b.interval)
      ensures Overlaps(t[other].interval, b.interval) <==> Overlaps(b.interval, t[other].interval)
    {
      ThreeClausesIsOverlap(t[other].interval, b.interval);
    }
    if Clashes(t, b) {
      var other :| other in t && Rivals(t[other], b) && ThreeClauses(t[other].interval, b.interval);
      assert t'[other] == t[other] && t'[id] == b && other != id;
      assert !Disjoint(t');
    }
  }

  lemma ApproveKeepsSound(s: Shared, e: Step)
    requires Sound(s) && e.Approve? && CanTake(s, e)
    ensures Sound(After(s, e))
  {
    hide Conflicts, Disjoint;
  }

  /** A step keeps live bookings disjoint exactly when it inserts no row that a live booking has come to clash with. */
  lemma StepKeepsExactly(s: Shared, e: Step)
    requires Sound(s) && CanTake(s, e)
    ensures Sound(After(s, e)) <==> Safe(s, e)
  {
    match e
    case Approve(_, _, _, _) => ApproveKeepsSound(s, e);
    case Insert(x, id) => InsertKeepsExactly(s, x, id);
    case Other(event) => NextKeepsInv(s.tables, event);
  }

  ghost predicate Runs(s: Shared, es: seq<Step>, s': Shared)
    decreases |es|
  {
    if es == [] then s == s' else CanTake(s, es[0]) && Runs(After(s, es[0]), es[1..], s')
  }

  ghost predicate AllSafe(s: Shared, es: seq<Step>, s': Shared)
    requires Runs(s, es, s')
    decreases |es|
  {
    es == [] || (Safe(s, es[0]) && AllSafe(After(s, es[0]), es[1..], s'))
  }

  lemma {:induction false} SafeRunsStaySound(s: Shared, es: seq<Step>, s': Shared)
    requires Sound(s) && Runs(s, es, s') && AllSafe(s, es, s')
    ensures Sound(s')
    decreases |es|
  {
    hide Sound, Safe, After, CanTake;
    if es != [] {
      StepKeepsExactly(s, es[0]);
      SafeRunsStaySound(After(s, es[0]), es[1..], s');
    }
  }

  const NOTHING: Shared := Shared(EMPTY, map[])

  /** Over every run of concurrent requests whose inserts are safe, no instant belongs to two live bookings. */
  lemma SafeInsertsStayDisjoint(es: seq<Step>, s: Shared, a: BookingId, b: BookingId, t: int)
    requires Runs(NOTHING, es, s) && AllSafe(NOTHING, es, s)
    requires a in s.tables.bookings && b in s.tables.bookings && a != b
    requires Rivals(s.tables.bookings[a], s.tables.bookings[b])
    ensures !(Covers(s.tables.bookings[a].interval, t) && Covers(s.tables.bookings[b].interval, t))
  {
    SafeRunsStaySound(NOTHING, es, s);
    assert !Overlaps(s.tables.bookings[a].interval, s.tables.bookings[b].interval);
  }

  lemma RunsFirst(s: Shared, e: Step, es: seq<Step>, s': Shared) returns (all: seq<Step>)
    requires CanTake(s, e) && Runs(After(s, e), es, s')
    ensures Runs(s, all, s')
  {
    hide After, CanTake;
    all := [e] + es;
    assert all[1..] == es;
  }

  const ROOM: Resource := Resource(true, None, 15, 480, 0, None, false)

  /** Two requests for the same hour of a room are both approved before either is inserted, and both hold it. */
  lemma BothRequestsPass() returns (es: seq<Step>, s: Shared)
    ensures Runs(NOTHING, es, s) && !Disjoint(s.tables.bookings)
  {
    var q := Request("room", Interval(0, HOUR), 1);
    var first, second := Row(ROOM, q, "ada"), Row(ROOM, q, "bob");
    var s1 := Shared(State(map["room" := ROOM], map[]), map[]);
    var s2 := Shared(s1.tables, map[0 := first]);
    var s3 := Shared(s1.tables, map[0 := first, 1 := second]);
    var s4 := Shared(State(map["room" := ROOM], map["a" := first]), map[1 := second]);
    s := Shared(State(map["room" := ROOM], map["a" := first, "b" := second]), map[]);
    assert !Conflicts(s1.tables.bookings, q) && Acceptable(ROOM, q, 0);
    assert Runs(s, [], s);
    hide Runs;
    assert After(s4, Insert(1, "b")) == s;
    es := RunsFirst(s4, Insert(1, "b"), [], s);
    assert After(s3, Insert(0, "a")) == s4;
    es := RunsFirst(s3, Insert(0, "a"), es, s);
    assert After(s2, Approve(1, q, "bob", 0)) == s3;
    es := RunsFirst(s2, Approve(1, q, "bob", 0), es, s);
    assert After(s1, Approve(0, q, "ada", 0)) == s2;
    es := RunsFirst(s1, Approve(0, q, "ada", 0), es, s);
    assert After(NOTHING, Other(PutResource("room", ROOM))) == s1;
    es := RunsFirst(NOTHING, Other(PutResource("room", ROOM)), es, s);
    assert Rivals(s.tables.bookings["a"], s.tables.bookings["b"]);
    assert Overlaps(s.tables.bookings["a"].interval, s.tables.bookings["b"].interval);
  }
}
