/** AgentController of backend/ai/orchestrator.py while it runs: dispatches, the worker loop, worker tasks
    and timeouts, interleaved at their awaits. */
module AgentDispatch {
  import opened Options

  type RequestId = string

  datatype AgentType = Booking | Optimization | Execution | Monitoring

  datatype AgentState = Ready | NotReady

  datatype Content = Produced(result: int) | NoSuchAgent | AgentNotReady | AgentRaised | TimedOut

  datatype Response = Response(requestId: RequestId, content: Content)

  datatype Request = Request(id: RequestId, agent: AgentType)

  datatype Future = Unset | Set(response: Response) | Cancelled

  /** Registered: the future is in the table, the request not yet in the queue. */
  datatype Dispatch = Registered(request: Request) | Awaiting(timerFired: bool) | Returned(response: Response)

  datatype Worker = Started(request: Request) | Running | Finished

  datatype State = State(
    agents: map<AgentType, AgentState>,
    queue: seq<Request>,
    pending: set<RequestId>,
    futures: map<RequestId, Future>,
    dispatches: map<RequestId, Dispatch>,
    workers: map<RequestId, Worker>)

  datatype Event =
    | Call(id: RequestId, agent: AgentType)         // dispatch, up to the queue
    | Enqueue(id: RequestId)                        // request_queue.put
    | Fetch                                         // the loop takes a request and starts a task
    | BeginWork(id: RequestId)                      // the worker, up to agent.execute
    | EndWork(id: RequestId, content: Content)      // the worker, from there on
    | TimerFires(id: RequestId)                     // wait_for gives up on the future
    | Resume(id: RequestId, cancelledToo: bool)     // dispatch continues after wait_for
    | SetAgent(agent: AgentType, state: Option<AgentState>)

  predicate Enabled(s: State, e: Event) {
    match e
    case Call(id, _) => id !in s.dispatches
    case Enqueue(id) => id in s.dispatches && s.dispatches[id].Registered?
    case Fetch => s.queue != []
    case BeginWork(id) => id in s.workers && s.workers[id].Started?
    case EndWork(id, content) =>
      id in s.workers && s.workers[id].Running? && (content.Produced? || content.AgentRaised?)
    case TimerFires(id) => id in s.dispatches && s.dispatches[id] == Awaiting(false) && id in s.futures
    case Resume(id, _) => id in s.dispatches && s.dispatches[id].Awaiting? && id in s.futures && !s.futures[id].Unset?
    case SetAgent(_, _) => true
  }

  /** A worker's response reaches the future only if it is still in the table and not done. */
  function Settle(s: State, r: Response): State {
    if r.requestId in s.pending && r.requestId in s.futures && s.futures[r.requestId].Unset?
    then s.(futures := s.futures[r.requestId := Set(r)])
    else s
  }

  function Finish(s: State, id: RequestId, content: Content): State {
    Settle(s, Response(id, content)).(workers := s.workers[id := Finished])
  }

  function Answer(f: Future, id: RequestId, d: Dispatch, cancelledToo: bool): Response
    requires !f.Unset?
  {
    // When the timer fires between set_result and the dispatch's own turn, wait_for may still time out.
    if f.Set? && !(d.Awaiting? && d.timerFired && cancelledToo) then f.response else Response(id, TimedOut)
  }

  function Next(s: State, e: Event): State
    requires Enabled(s, e)
  {
    match e
    case Call(id, agent) =>
      if agent !in s.agents then s.(dispatches := s.dispatches[id := Returned(Response(id, NoSuchAgent))])
      else s.(futures := s.futures[id := Unset], pending := s.pending + {id},
              dispatches := s.dispatches[id := Registered(Request(id, agent))])
    case Enqueue(id) =>
      s.(queue := s.queue + [s.dispatches[id].request], dispatches := s.dispatches[id := Awaiting(false)])
    case Fetch =>
      s.(queue := s.queue[1..], workers := s.workers[s.queue[0].id := Started(s.queue[0])])
    case BeginWork(id) =>
      var agent := s.workers[id].request.agent;
      if agent !in s.agents then Finish(s, id, NoSuchAgent)
      else if s.agents[agent] != Ready then Finish(s, id, AgentNotReady)
      else s.(workers := s.workers[id := Running])
    case EndWork(id, content) => Finish(s, id, content)
    case TimerFires(id) =>
      s.(dispatches := s.dispatches[id := Awaiting(true)],
         futures := s.futures[id := if s.futures[id].Unset? then Cancelled else s.futures[id]])
    case Resume(id, cancelledToo) =>
      s.(pending := s.pending - {id},
         dispatches := s.dispatches[id := Returned(Answer(s.futures[id], id, s.dispatches[id], cancelledToo))])
    case SetAgent(agent, state) =>
      s.(agents := if state.Some? then s.agents[agent := state.value] else s.agents - {agent})
  }

  class AgentController {
    var agents: map<AgentType, AgentState>
    var requestQueue: seq<Request>
    var pendingRequests: set<RequestId>
    var futures: map<RequestId, Future>
    var dispatches: map<RequestId, Dispatch>
    var workers: map<RequestId, Worker>

    constructor ()
      ensures View() == State(map[], [], {}, map[], map[], map[])
    {
      agents, requestQueue, pendingRequests := map[], [], {};
      futures, dispatches, workers := map[], map[], map[];
    }

    function View(): State
      reads this
    {
      State(agents, requestQueue, pendingRequests, futures, dispatches, workers)
    }

    method StartDispatch(id: RequestId, agent: AgentType)
      requires Enabled(View(), Call(id, agent))
      modifies this
      ensures View() == Next(old(View()), Call(id, agent))
    {
      if agent !in agents {
        dispatches := dispatches[id := Returned(Response(id, NoSuchAgent))];
        return;
      }
      futures := futures[id := Unset];
      pendingRequests := pendingRequests + {id};
      dispatches := dispatches[id := Registered(Request(id, agent))];
    }

    method PutRequest(id: RequestId)
      requires Enabled(View(), Enqueue(id))
      modifies this
      ensures View() == Next(old(View()), Enqueue(id))
    {
      requestQueue := requestQueue + [dispatches[id].request];
      dispatches := dispatches[id := Awaiting(false)];
    }

    method FireTimer(id: RequestId)
      requires Enabled(View(), TimerFires(id))
      modifies this
      ensures View() == Next(old(View()), TimerFires(id))
    {
      if futures[id].Unset? {
        futures := futures[id := Cancelled];
      }
      dispatches := dispatches[id := Awaiting(true)];
    }

    method ResumeDispatch(id: RequestId, cancelledToo: bool) returns (response: Response)
      requires Enabled(View(), Resume(id, cancelledToo))
      modifies this
      ensures View() == Next(old(View()), Resume(id, cancelledToo))
      ensures dispatches[id] == Returned(response)
    {
      var f := futures[id];
      if f.Cancelled? || (dispatches[id].timerFired && cancelledToo) {
        response := Response(id, TimedOut);
      } else {
        response := f.response;
      }
      pendingRequests := pendingRequests - {id};
      dispatches := dispatches[id := Returned(response)];
    }

    method SetAgentState(agent: AgentType, state: Option<AgentState>)
      modifies this
      ensures View() == Next(old(View()), SetAgent(agent, state))
    {
      agents := if state.Some? then agents[agent := state.value] else agents - {agent};
    }

    method TakeRequest()
      requires Enabled(View(), Fetch)
      modifies this
      ensures View() == Next(old(View()), Fetch)
    {
      var request := requestQueue[0];
      requestQueue := requestQueue[1..];
      workers := workers[request.id := Started(request)];
    }

    method BeginProcessing(id: RequestId)
      requires Enabled(View(), BeginWork(id))
      modifies this
      ensures View() == Next(old(View()), BeginWork(id))
    {
      var agent := workers[id].request.agent;
      if agent !in agents {
        SetResult(id, NoSuchAgent);
      } else if agents[agent] != Ready {
        SetResult(id, AgentNotReady);
      } else {
        workers := workers[id := Running];
      }
    }

    method EndProcessing(id: RequestId, content: Content)
      requires Enabled(View(), EndWork(id, content))
      modifies this
      ensures View() == Next(old(View()), EndWork(id, content))
    {
      SetResult(id, content);
    }

    method SetResult(id: RequestId, content: Content)
      modifies this`futures, this`workers
      ensures View() == Finish(old(View()), id, content)
    {
      if id in pendingRequests && id in futures && futures[id].Unset? {
        futures := futures[id := Set(Response(id, content))];
      }
      workers := workers[id := Finished];
    }
  }

  // ----- The invariant -----

  ghost predicate Open(s: State, id: RequestId) {
    id in s.dispatches && !s.dispatches[id].Returned?
  }

  ghost predicate Queued(s: State, id: RequestId) {
    exists k :: 0 <= k < |s.queue| && s.queue[k].id == id
  }

  ghost predicate InWork(s: State, id: RequestId) {
    id in s.workers && !s.workers[id].Finished?
  }

  /** The table holds exactly the dispatches that have not returned, each with its future. */
  ghost predicate TableExact(s: State) {
    && (forall id :: (id in s.pending <==> Open(s, id)) && (id in s.pending ==> id in s.futures))
    && (forall id :: id in s.futures ==> id in s.dispatches)
  }

  /** Every response is addressed to the dispatch that gets it. */
  ghost predicate Addressed(s: State) {
    && (forall id :: id in s.futures && s.futures[id].Set? ==> s.futures[id].response.requestId == id)
    && (forall id :: id in s.dispatches && s.dispatches[id].Returned? ==> s.dispatches[id].response.requestId == id)
    && (forall id :: id in s.dispatches && s.dispatches[id].Registered? ==> s.dispatches[id].request.id == id)
    && (forall id :: id in s.workers && s.workers[id].Started? ==> s.workers[id].request.id == id)
  }

  /** Each request is in one place: not yet queued, queued once, or with its worker. */
  ghost predicate OnePlace(s: State) {
    && (forall k, l :: 0 <= k < l < |s.queue| ==> s.queue[k].id != s.queue[l].id)
    && (forall id :: Queued(s, id) ==> id !in s.workers && id in s.dispatches && !s.dispatches[id].Registered?)
    && (forall id :: id in s.workers ==> id in s.dispatches && !s.dispatches[id].Registered?)
  }

  /** No request is lost: while its future is unset, somebody still has it. */
  ghost predicate NoneLost(s: State) {
    forall id :: id in s.futures && s.futures[id].Unset? ==>
      && Open(s, id)
      && (s.dispatches[id].Awaiting? ==> s.dispatches[id] == Awaiting(false) && (Queued(s, id) || InWork(s, id)))
  }

  ghost predicate Inv(s: State) {
    TableExact(s) && Addressed(s) && OnePlace(s) && NoneLost(s)
  }

  lemma InvInitially()
    ensures Inv(State(map[], [], {}, map[], map[], map[]))
  {
  }

  lemma EnqueueKeepsInv(s: State, id: RequestId)
    requires Inv(s) && Enabled(s, Enqueue(id))
    ensures Inv(Next(s, Enqueue(id)))
  {
    var s' := Next(s, Enqueue(id));
    assert s'.queue[|s.queue|].id == id;
    assert forall id' :: Queued(s, id') ==> Queued(s', id') by {
      forall id' | Queued(s, id')
        ensures Queued(s', id')
      {
        var k :| 0 <= k < |s.queue| && s.queue[k].id == id';
        assert s'.queue[k].id == id';
      }
    }
    assert !Queued(s, id);
  }

  lemma FetchKeepsInv(s: State)
    requires Inv(s) && Enabled(s, Fetch)
    ensures Inv(Next(s, Fetch))
  {
    var s' := Next(s, Fetch);
    var first := s.queue[0].id;
    assert Queued(s, first);
    forall id
      ensures Queued(s', id) <==> Queued(s, id) && id != first
    {
      if Queued(s, id) && id != first {
        var k :| 0 <= k < |s.queue| && s.queue[k].id == id;
        assert s'.queue[k - 1].id == id;
      }
      if Queued(s', id) {
        var k :| 0 <= k < |s'.queue| && s'.queue[k].id == id;
        assert s.queue[k + 1].id == id;
      }
    }
  }

  lemma QueueUntouched(s: State, s': State)
    requires s'.queue == s.queue
    ensures forall id :: Queued(s', id) <==> Queued(s, id)
  {
  }

  lemma FinishKeepsTable(s: State, id: RequestId, content: Content)
    requires TableExact(s) && Addressed(s)
    ensures TableExact(Finish(s, id, content)) && Addressed(Finish(s, id, content))
  {
  }

  lemma FinishKeepsPlaces(s: State, id: RequestId, content: Content)
    requires TableExact(s) && OnePlace(s) && NoneLost(s) && InWork(s, id)
    ensures OnePlace(Finish(s, id, content)) && NoneLost(Finish(s, id, content))
  {
    QueueUntouched(s, Finish(s, id, content));
    hide Queued;
  }

  lemma FinishKeepsInv(s: State, id: RequestId, content: Content)
    requires Inv(s) && InWork(s, id)
    ensures Inv(Finish(s, id, content))
  {
    FinishKeepsTable(s, id, content);
    FinishKeepsPlaces(s, id, content);
    hide TableExact, Addressed, OnePlace, NoneLost, Finish;
  }

  lemma CallKeepsTable(s: State, id: RequestId, agent: AgentType)
    requires TableExact(s) && Addressed(s) && Enabled(s, Call(id, agent))
    ensures TableExact(Next(s, Call(id, agent))) && Addressed(Next(s, Call(id, agent)))
  {
  }

  lemma CallKeepsPlaces(s: State, id: RequestId, agent: AgentType)
    requires TableExact(s) && OnePlace(s) && NoneLost(s) && Enabled(s, Call(id, agent))
    ensures OnePlace(Next(s, Call(id, agent))) && NoneLost(Next(s, Call(id, agent)))
  {
    QueueUntouched(s, Next(s, Call(id, agent)));
    hide Queued;
  }

  lemma CallKeepsInv(s: State, id: RequestId, agent: AgentType)
    requires Inv(s) && Enabled(s, Call(id, agent))
    ensures Inv(Next(s, Call(id, agent)))
  {
    CallKeepsTable(s, id, agent);
    CallKeepsPlaces(s, id, agent);
    hide TableExact, Addressed, OnePlace, NoneLost;
  }

  lemma BeginWorkKeepsInv(s: State, id: RequestId)
    requires Inv(s) && Enabled(s, BeginWork(id))
    ensures Inv(Next(s, BeginWork(id)))
  {
    var agent := s.workers[id].request.agent;
    if agent !in s.agents {
      FinishKeepsInv(s, id, NoSuchAgent);
    } else if s.agents[agent] != Ready {
      FinishKeepsInv(s, id, AgentNotReady);
    } else {
      QueueUntouched(s, Next(s, BeginWork(id)));
      hide Queued, Finish;
    }
  }

  lemma TimerKeepsTable(s: State, id: RequestId)
    requires TableExact(s) && Addressed(s) && Enabled(s, TimerFires(id))
    ensures TableExact(Next(s, TimerFires(id))) && Addressed(Next(s, TimerFires(id)))
  {
  }

  lemma TimerKeepsPlaces(s: State, id: RequestId)
    requires OnePlace(s) && NoneLost(s) && Enabled(s, TimerFires(id))
    ensures OnePlace(Next(s, TimerFires(id))) && NoneLost(Next(s, TimerFires(id)))
  {
    QueueUntouched(s, Next(s, TimerFires(id)));
    hide Queued;
  }

  lemma TimerKeepsInv(s: State, id: RequestId)
    requires Inv(s) && Enabled(s, TimerFires(id))
    ensures Inv(Next(s, TimerFires(id)))
  {
    TimerKeepsTable(s, id);
    TimerKeepsPlaces(s, id);
    hide TableExact, Addressed, OnePlace, NoneLost;
  }

  lemma ResumeKeepsInv(s: State, id: RequestId, cancelledToo: bool)
    requires Inv(s) && Enabled(s, Resume(id, cancelledToo))
    ensures Inv(Next(s, Resume(id, cancelledToo)))
  {
    QueueUntouched(s, Next(s, Resume(id, cancelledToo)));
    hide Queued;
  }

  lemma SetAgentKeepsInv(s: State, e: Event)
    requires Inv(s) && e.SetAgent?
    ensures Inv(Next(s, e))
  {
    QueueUntouched(s, Next(s, e));
    hide Queued;
  }

  lemma NextKeepsInv(s: State, e: Event)
    requires Inv(s) && Enabled(s, e)
    ensures Inv(Next(s, e))
  {
    match e
    case Call(id, agent) => CallKeepsInv(s, id, agent);
    case Enqueue(id) => EnqueueKeepsInv(s, id);
    case Fetch => FetchKeepsInv(s);
    case BeginWork(id) => BeginWorkKeepsInv(s, id);
    case EndWork(id, content) => FinishKeepsInv(s, id, content);
    case TimerFires(id) => TimerKeepsInv(s, id);
    case Resume(id, cancelledToo) => ResumeKeepsInv(s, id, cancelledToo);
    case SetAgent(_, _) => SetAgentKeepsInv(s, e);
  }

  ghost predicate Leads(s: State, es: seq<Event>, s': State)
    decreases |es|
  {
    if es == [] then s == s' else Enabled(s, es[0]) && Leads(Next(s, es[0]), es[1..], s')
  }

  lemma {:induction false} InvHolds(s: State, es: seq<Event>, s': State)
    requires Inv(s) && Leads(s, es, s')
    ensures Inv(s')
    decreases |es|
  {
    if es != [] {
      NextKeepsInv(s, es[0]);
      InvHolds(Next(s, es[0]), es[1..], s');
    }
  }

  // ----- What callers may rely on -----

  const INITIAL := State(map[], [], {}, map[], map[], map[])

  /** In every interleaving: the table is exactly the open dispatches, and every answer bears the caller's id. */
  lemma DispatchIsSafe(es: seq<Event>, s: State)
    requires Leads(INITIAL, es, s)
    ensures forall id :: id in s.pending <==> Open(s, id)
    ensures forall id :: id in s.dispatches && s.dispatches[id].Returned? ==> s.dispatches[id].response.requestId == id
  {
    InvInitially();
    InvHolds(INITIAL, es, s);
  }

  /** A waiting dispatch whose future is unset is queued or being worked on: no request is lost. */
  lemma NoRequestIsLost(es: seq<Event>, s: State, id: RequestId)
    requires Leads(INITIAL, es, s) && id in s.dispatches && s.dispatches[id].Awaiting? && id in s.futures
    ensures s.futures[id].Unset? ==> s.dispatches[id] == Awaiting(false) && (Queued(s, id) || InWork(s, id))
  {
    InvInitially();
    InvHolds(INITIAL, es, s);
  }

  /** A future is completed at most once: once set or cancelled it never changes. */
  lemma {:induction false} FuturesAreFinal(s: State, es: seq<Event>, s': State, id: RequestId)
    requires Inv(s) && Leads(s, es, s') && id in s.futures && !s.futures[id].Unset?
    ensures id in s'.futures && s'.futures[id] == s.futures[id]
    decreases |es|
  {
    if es != [] {
      FutureIsKept(s, es[0], id);
      NextKeepsInv(s, es[0]);
      FuturesAreFinal(Next(s, es[0]), es[1..], s', id);
    }
  }

  lemma FutureIsKept(s: State, e: Event, id: RequestId)
    requires Inv(s) && Enabled(s, e) && id in s.futures && !s.futures[id].Unset?
    ensures id in Next(s, e).futures && Next(s, e).futures[id] == s.futures[id]
  {
    hide OnePlace, NoneLost, Addressed;
  }

  /** A worker that ends after its dispatch was answered or timed out changes nothing but itself. */
  lemma LateResponsesChangeNothing(s: State, id: RequestId, content: Content)
    requires Inv(s) && Enabled(s, EndWork(id, content))
    requires !Open(s, id) || (id in s.futures && !s.futures[id].Unset?)
    ensures Next(s, EndWork(id, content)) == s.(workers := s.workers[id := Finished])
  {
  }

  /** One that ends in time sets exactly its own dispatch's future, and the dispatch returns that response
      unless its timer fires first. */
  lemma TimelyResponsesAreDelivered(s: State, id: RequestId, content: Content)
    requires Inv(s) && Enabled(s, EndWork(id, content)) && id in s.futures && s.futures[id].Unset?
    ensures var s1 := Next(s, EndWork(id, content));
      && s1.futures == s.futures[id := Set(Response(id, content))]
      && Enabled(s1, Resume(id, false))
      && Next(s1, Resume(id, false)).dispatches[id] == Returned(Response(id, content))
  {
  }

  /** A request reaches its agent exactly when that is registered and ready. Otherwise its dispatch, if it still
      waits, is told which of the two failed. */
  lemma OnlyReadyAgentsRun(s: State, id: RequestId)
    requires Inv(s) && Enabled(s, BeginWork(id))
    ensures var s' := Next(s, BeginWork(id));
      var agent := s.workers[id].request.agent;
      var ready := agent in s.agents && s.agents[agent] == AgentState.Ready;
      var told := if agent in s.agents then AgentNotReady else NoSuchAgent;
      var waits := id in s.pending && s.futures[id].Unset?;
      && s'.workers == s.workers[id := if ready then Running else Finished]
      && s'.futures == (if !ready && waits then s.futures[id := Set(Response(id, told))] else s.futures)
      && s' == s.(workers := s'.workers, futures := s'.futures)
  {
    hide OnePlace, NoneLost;
  }

  /** What a dispatch returns: the response that was set, unless its timer made it give up, and else that it timed
      out. */
  lemma AnswersAreFutures(s: State, id: RequestId, cancelledToo: bool)
    requires Inv(s) && Enabled(s, Resume(id, cancelledToo))
    ensures Next(s, Resume(id, cancelledToo)).dispatches[id] == Returned(
      if s.futures[id] == Cancelled || (s.dispatches[id] == Awaiting(true) && cancelledToo) then Response(id, TimedOut)
      else s.futures[id].response)
  {
    hide OnePlace, NoneLost, TableExact;
  }

  lemma {:induction false} WorkersStay(s: State, es: seq<Event>, s': State, id: RequestId)
    requires Leads(s, es, s') && id in s.workers
    ensures id in s'.workers
    decreases |es|
  {
    if es != [] {
      WorkersStay(Next(s, es[0]), es[1..], s', id);
    }
  }

  lemma QueueMoves(s: State, e: Event)
    requires Enabled(s, e)
    ensures var s' := Next(s, e);
      if e.Fetch? then s'.queue == s.queue[1..] && s.queue[0].id in s'.workers else s.queue <= s'.queue
  {
  }

  /** Requests are taken up in the order they were queued: none overtakes an older one. */
  lemma {:induction false} OlderRequestsStartFirst(s: State, es: seq<Event>, s': State, i: nat, j: nat)
    requires Inv(s) && Leads(s, es, s') && i < j < |s.queue|
    ensures s.queue[j].id in s'.workers ==> s.queue[i].id in s'.workers
    decreases |es|
  {
    if es == [] {
      assert Queued(s, s.queue[j].id);
    } else {
      var s1 := Next(s, es[0]);
      NextKeepsInv(s, es[0]);
      QueueMoves(s, es[0]);
      hide Inv, Next;
      if es[0].Fetch? && i == 0 {
        WorkersStay(s1, es[1..], s', s.queue[0].id);
      } else if es[0].Fetch? {
        OlderRequestsStartFirst(s1, es[1..], s', i - 1, j - 1);
      } else {
        OlderRequestsStartFirst(s1, es[1..], s', i, j);
      }
    }
  }
}
