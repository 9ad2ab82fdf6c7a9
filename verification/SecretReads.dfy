/** get_secret as backend/core/secret_manager.py writes it: the cache, a loop over the providers, and the caching of
    what was found, with a turn for everybody else at each await. Every run of it is a run of SecretManager. */
module SecretReads {
  import opened Options
  import opened SecretManager

  /** The event is a step of read x itself. */
  predicate Concerns(e: Event, x: ReadId) {
    match e
    case BeginGet(x', _, _) => x' == x
    case AskProvider(x') => x' == x
    case FinishGet(x') => x' == x
    case _ => false
  }

  lemma OthersLeaveRead(s: State, e: Event, x: ReadId)
    requires OrderedDicts.Valid(s.providers) && Enabled(s, e) && !Concerns(e, x) && x in s.readings
    ensures x in Next(s, e).readings && Next(s, e).readings[x] == s.readings[x]
  {
    hide Search, FirstOf;
  }

  lemma NextKeepsValid(s: State, e: Event)
    requires OrderedDicts.Valid(s.providers) && Enabled(s, e)
    ensures OrderedDicts.Valid(Next(s, e).providers)
  {
    hide Search, FirstOf, InsertByPriority;
  }

  lemma {:induction false} LeadsThenOne(s: State, es: seq<Event>, s': State, e: Event)
    requires Leads(s, es, s') && OrderedDicts.Valid(s'.providers) && Enabled(s', e)
    ensures Leads(s, es + [e], Next(s', e))
    decreases |es|
  {
    hide Next, Enabled;
    if es == [] {
      assert [e][1..] == [];
    } else {
      assert (es + [e])[0] == es[0] && (es + [e])[1..] == es[1..] + [e];
      LeadsThenOne(Next(s, es[0]), es[1..], s', e);
    }
  }

  class Client {
    const manager: Manager
    const others: nat -> seq<Event>
    var awaits: nat
    ghost var history: seq<Event>

    constructor (manager: Manager, others: nat -> seq<Event>)
      requires manager.View() == EMPTY
      ensures this.manager == manager && this.others == others && Faithful()
    {
      this.manager, this.others, awaits := manager, others, 0;
      history := [];
    }

    /** What happened so far is a run of the state machine. */
    ghost predicate Faithful()
      reads this, manager
    {
      Leads(EMPTY, history, manager.View()) && OrderedDicts.Valid(manager.providers)
    }

    /** Nobody else ever changes a provider. */
    ghost predicate Quiet() {
      forall k: nat, e :: e in others(k) ==> !ChangesProviders(e)
    }

    ghost method Record(s: State, e: Event)
      requires Leads(EMPTY, history, s) && OrderedDicts.Valid(s.providers)
      requires Enabled(s, e) && manager.View() == Next(s, e)
      modifies this`history
      ensures Faithful()
    {
      hide Leads, Next, Enabled, OrderedDicts.Valid;
      LeadsThenOne(EMPTY, history, s, e);
      NextKeepsValid(s, e);
      history := history + [e];
    }

    method Apply(e: Event)
      requires Faithful() && Enabled(manager.View(), e)
      modifies this, manager
      ensures Faithful() && manager.View() == Next(old(manager.View()), e)
    {
      hide Leads, Next, OrderedDicts.Valid;
      ghost var s := manager.View();
      manager.Take(e);
      Record(s, e);
    }

    /** An await in read x. */
    method Await(x: ReadId)
      requires Faithful() && x in manager.pendingReads
      modifies this, manager
      ensures Faithful() && x in manager.pendingReads && manager.pendingReads[x] == old(manager.pendingReads[x])
      ensures Quiet() && old(OnTrack(manager.View(), x)) ==> OnTrack(manager.View(), x)
      ensures Quiet() && old(OnTrack(manager.View(), x)) ==>
        SearchIn(manager.View(), manager.pendingReads[x].name) ==
        old(SearchIn(manager.View(), manager.pendingReads[x].name))
    {
      hide Leads, Next, Enabled, OnTrack, Search, OrderedDicts.Valid;
      var script := others(awaits);
      ghost var wasOnTrack, found := OnTrack(manager.View(), x), SearchIn(manager.View(), manager.pendingReads[x].name);
      awaits := awaits + 1;
      for i := 0 to |script|
        invariant Faithful() && x in manager.pendingReads && manager.pendingReads[x] == old(manager.pendingReads[x])
        invariant Quiet() && wasOnTrack ==>
          OnTrack(manager.View(), x) && SearchIn(manager.View(), manager.pendingReads[x].name) == found
      {
        var e := script[i];
        if Enabled(manager.View(), e) && !Concerns(e, x) {
          OthersLeaveRead(manager.View(), e, x);
          if Quiet() && wasOnTrack {
            QuietKeepsOnTrack(manager.View(), e, x);
          }
          Apply(e);
        }
      }
    }

    /** Whatever others do, the read is a run of the state machine that ends; and if nobody changes a provider
        meanwhile, its answer is what the cache or the search had for it in the beginning. */
    method GetSecret(x: ReadId, name: Name, useCache: bool) returns (r: Option<string>)
      requires Faithful() && x !in manager.pendingReads
      modifies this, manager
      ensures Faithful() && x !in manager.pendingReads
      ensures Quiet() && useCache ==> r == old(Lookup(manager.View(), name))
      ensures Quiet() && !useCache ==> r == old(SearchIn(manager.View(), name))
    {
      hide Leads, Search, OrderedDicts.Valid;
      ghost var s := manager.View();
      r := manager.StartGet(x, name, useCache);
      Record(s, BeginGet(x, name, useCache));
      if r.Some? {
        return;
      }
      BeginsOnTrack(s, x, name, useCache);
      r := AskInTurn(x);
    }

    /** The loop over the providers, and the caching of what was found. */
    method AskInTurn(x: ReadId) returns (r: Option<string>)
      requires Faithful() && x in manager.pendingReads && manager.pendingReads[x].found.None?
      modifies this, manager
      ensures Faithful() && x !in manager.pendingReads
      ensures Quiet() && old(OnTrack(manager.View(), x)) ==>
        r == old(SearchIn(manager.View(), manager.pendingReads[x].name))
    {
      hide Leads, Next, OnTrack, Search, OrderedDicts.Valid;
      ghost var s := manager.View();
      ghost var wasOnTrack, name := OnTrack(s, x), manager.pendingReads[x].name;
      while manager.pendingReads[x].found.None? && manager.pendingReads[x].rest != []
        invariant Faithful() && x in manager.pendingReads && manager.pendingReads[x].name == name
        invariant Quiet() && wasOnTrack ==>
          OnTrack(manager.View(), x) && SearchIn(manager.View(), name) == SearchIn(s, name)
        decreases |manager.pendingReads[x].rest|
      {
        Await(x);
        ghost var before := manager.View();
        AskingIsNext(before, x);
        if Quiet() && wasOnTrack {
          QuietKeepsOnTrack(before, Event.AskProvider(x), x);
        }
        var _ := manager.AskProvider(x);
        Record(before, Event.AskProvider(x));
      }
      ghost var before := manager.View();
      if Quiet() && wasOnTrack {
        EndsWithTheSearch(before, x);
      }
      FinishingIsNext(before, x);
      r := manager.FinishGet(x);
      Record(before, Event.FinishGet(x));
    }
  }

  lemma AskingIsNext(s: State, x: ReadId)
    requires OrderedDicts.Valid(s.providers) && Enabled(s, Event.AskProvider(x))
    ensures var s' := Next(s, Event.AskProvider(x));
      x in s'.readings && s'.readings[x].name == s.readings[x].name && |s'.readings[x].rest| < |s.readings[x].rest|
  {
  }

  lemma FinishingIsNext(s: State, x: ReadId)
    requires OrderedDicts.Valid(s.providers) && Enabled(s, Event.FinishGet(x))
    ensures x !in Next(s, Event.FinishGet(x)).readings
  {
  }
}
