/** dispatch, the worker loop and _process_request as backend/ai/orchestrator.py writes them: steps in sequence, and at
    each await a turn for everybody else. Every run of them is a run of AgentDispatch. */
module AgentOrchestration {
  import opened AgentDispatch

  /** The event is a step of dispatch id itself. */
  predicate OfDispatch(e: Event, id: RequestId) {
    match e
    case Call(id', _) => id' == id
    case Enqueue(id') => id' == id
    case TimerFires(id') => id' == id
    case Resume(id', _) => id' == id
    case _ => false
  }

  /** The event is a step of the worker of request id itself. */
  predicate OfWorker(e: Event, id: RequestId) {
    match e
    case BeginWork(id') => id' == id
    case EndWork(id', _) => id' == id
    case _ => false
  }

  lemma OthersLeaveDispatch(s: State, e: Event, id: RequestId)
    requires Enabled(s, e) && !OfDispatch(e, id) && id in s.dispatches && id in s.futures
    ensures var s' := Next(s, e); id in s'.dispatches && s'.dispatches[id] == s.dispatches[id] && id in s'.futures
  {
  }

  /** Of a request there is only one worker. */
  lemma OthersLeaveWorker(s: State, e: Event, id: RequestId)
    requires Enabled(s, e) && !OfWorker(e, id) && id in s.workers && Inv(s)
    ensures var s' := Next(s, e); id in s'.workers && s'.workers[id] == s.workers[id]
  {
    if e.Fetch? {
      assert s.queue[0] in s.queue;
    }
  }

  /** Nobody else sets the future of a request that is being worked on. */
  lemma OthersSetNothing(s: State, e: Event, id: RequestId)
    requires Enabled(s, e) && !OfWorker(e, id) && id in s.futures && Inv(s)
    ensures id in Next(s, e).futures && (Next(s, e).futures[id].Set? ==> s.futures[id] == Next(s, e).futures[id])
  {
    hide OnePlace, NoneLost;
  }

  lemma {:induction false} LeadsThenOne(s: State, es: seq<Event>, s': State, e: Event)
    requires Leads(s, es, s') && Enabled(s', e)
    ensures Leads(s, es + [e], Next(s', e))
    decreases |es|
  {
    hide Next, Enabled;
    if es == [] {
      assert [e][1..] == [];
    } else {
      assert (es + [e])[0] == es[0] && (es + [e])[1..] == es[1..] + [e];
      LeadsThenOne(Next(s, es[0]), es[1..], s', e);
    }
  }

  /** The controller on its event loop; others lists what everybody else does at each await. */
  class EventLoop {
    const controller: AgentController
    const others: nat -> seq<Event>
    var awaits: nat
    ghost var history: seq<Event>

    constructor (controller: AgentController, others: nat -> seq<Event>)
      requires controller.View() == INITIAL
      ensures this.controller == controller && Faithful()
    {
      this.controller, this.others, awaits := controller, others, 0;
      history := [];
    }

    /** What happened so far is a run of the state machine, and so its invariant holds. */
    ghost predicate Faithful()
      reads this, controller
    {
      Leads(INITIAL, history, controller.View()) && Inv(controller.View())
    }

    ghost method Record(s: State, e: Event)
      requires Leads(INITIAL, history, s) && Inv(s) && Enabled(s, e) && controller.View() == Next(s, e)
      modifies this`history
      ensures Faithful()
    {
      hide Leads, Inv, Next, Enabled;
      LeadsThenOne(INITIAL, history, s, e);
      NextKeepsInv(s, e);
      history := history + [e];
    }

    method Apply(e: Event)
      requires Faithful() && Enabled(controller.View(), e)
      modifies this, controller
      ensures Faithful() && controller.View() == Next(old(controller.View()), e)
    {
      hide Leads, Inv, Next;
      ghost var s := controller.View();
      match e {
        case Call(id, agent) => controller.StartDispatch(id, agent);
        case Enqueue(id) => controller.PutRequest(id);
        case Fetch => controller.TakeRequest();
        case BeginWork(id) => controller.BeginProcessing(id);
        case EndWork(id, content) => controller.EndProcessing(id, content);
        case TimerFires(id) => controller.FireTimer(id);
        case Resume(id, cancelledToo) => var _ := controller.ResumeDispatch(id, cancelledToo);
        case SetAgent(agent, state) => controller.SetAgentState(agent, state);
      }
      Record(s, e);
    }

    /** An await in dispatch id. */
    method AwaitInDispatch(id: RequestId)
      requires Faithful() && id in controller.dispatches && id in controller.futures
      modifies this, controller
      ensures Faithful() && id in controller.dispatches && id in controller.futures
      ensures controller.dispatches[id] == old(controller.dispatches[id])
    {
      hide Leads, Inv, Next;
      var script := others(awaits);
      awaits := awaits + 1;
      for i := 0 to |script|
        invariant Faithful() && id in controller.dispatches && id in controller.futures
        invariant controller.dispatches[id] == old(controller.dispatches[id])
      {
        if Enabled(controller.View(), script[i]) && !OfDispatch(script[i], id) {
          OthersLeaveDispatch(controller.View(), script[i], id);
          Apply(script[i]);
        }
      }
    }

    /** An await in the worker of request id. */
    method AwaitInWorker(id: RequestId)
      requires Faithful() && id in controller.workers
      modifies this, controller
      ensures Faithful() && id in controller.workers && controller.workers[id] == old(controller.workers[id])
      ensures id in old(controller.futures) ==>
        id in controller.futures &&
        (controller.futures[id].Set? ==> controller.futures[id] == old(controller.futures[id]))
    {
      hide Leads, Inv, Next;
      var script := others(awaits);
      awaits := awaits + 1;
      for i := 0 to |script|
        invariant Faithful() && id in controller.workers && controller.workers[id] == old(controller.workers[id])
        invariant id in old(controller.futures) ==>
          id in controller.futures &&
          (controller.futures[id].Set? ==> controller.futures[id] == old(controller.futures[id]))
      {
        if Enabled(controller.View(), script[i]) && !OfWorker(script[i], id) {
          OthersLeaveWorker(controller.View(), script[i], id);
          if id in controller.futures {
            OthersSetNothing(controller.View(), script[i], id);
          }
          Apply(script[i]);
        }
      }
    }

    /** dispatch: late tells whether the timer wins even against a response that has come, cancelledToo whether the
        waiting then gives up all the same. Whatever others do, the answer bears the caller's id and the table entry is
        gone. */
    method Dispatch(id: RequestId, agent: AgentType, late: bool, cancelledToo: bool) returns (response: Response)
      requires Faithful() && id !in controller.dispatches
      modifies this, controller
      ensures Faithful() && id in controller.dispatches && controller.dispatches[id] == Returned(response)
      ensures response.requestId == id && id !in controller.pendingRequests
      ensures agent !in old(controller.agents) ==> response == Response(id, NoSuchAgent)
      ensures agent in old(controller.agents) ==> Answers(response, id, late && cancelledToo)
    {
      hide Leads, Inv;
      ghost var s := controller.View();
      controller.StartDispatch(id, agent);
      Record(s, Call(id, agent));
      if controller.dispatches[id].Returned? {
        AnsweredIsClosed(controller.View(), id);
        return controller.dispatches[id].response;
      }
      AwaitInDispatch(id);
      s := controller.View();
      controller.PutRequest(id);
      Record(s, Enqueue(id));
      AwaitInDispatch(id);
      response := WaitForAnswer(id, late, cancelledToo);
    }

    /** The response is what the future of request id was set to, unless its dispatch gave up waiting. */
    predicate Answers(response: Response, id: RequestId, gaveUp: bool)
      reads this, controller
    {
      && id in controller.futures && !controller.futures[id].Unset?
      && response == if controller.futures[id].Cancelled? || gaveUp then Response(id, TimedOut)
                     else controller.futures[id].response
    }

    /** asyncio.wait_for and the finally clause. */
    method WaitForAnswer(id: RequestId, late: bool, cancelledToo: bool) returns (response: Response)
      requires Faithful() && id in controller.futures
      requires id in controller.dispatches && controller.dispatches[id] == Awaiting(false)
      modifies this, controller
      ensures Faithful() && id in controller.dispatches && controller.dispatches[id] == Returned(response)
      ensures response.requestId == id && id !in controller.pendingRequests
      ensures Answers(response, id, late && cancelledToo)
    {
      hide Leads, Inv;
      ghost var s := controller.View();
      if late || controller.futures[id].Unset? {
        controller.FireTimer(id);
        Record(s, TimerFires(id));
        AwaitInDispatchDone(id);
        s := controller.View();
      }
      response := controller.ResumeDispatch(id, cancelledToo);
      assert Answers(response, id, late && cancelledToo);
      Record(s, Resume(id, cancelledToo));
      AnsweredIsClosed(controller.View(), id);
    }

    /** An await after the future was completed. */
    method AwaitInDispatchDone(id: RequestId)
      requires Faithful() && id in controller.dispatches && id in controller.futures && !controller.futures[id].Unset?
      modifies this, controller
      ensures Faithful() && id in controller.dispatches && id in controller.futures
      ensures controller.futures[id] == old(controller.futures[id])
      ensures controller.dispatches[id] == old(controller.dispatches[id])
    {
      hide Leads, Inv, Next;
      var script := others(awaits);
      awaits := awaits + 1;
      for i := 0 to |script|
        invariant Faithful() && id in controller.dispatches && id in controller.futures
        invariant controller.futures[id] == old(controller.futures[id])
        invariant controller.dispatches[id] == old(controller.dispatches[id])
      {
        if Enabled(controller.View(), script[i]) && !OfDispatch(script[i], id) {
          OthersLeaveDispatch(controller.View(), script[i], id);
          FutureIsKept(controller.View(), script[i], id);
          Apply(script[i]);
        }
      }
    }

    /** One turn of the orchestration loop. */
    method TakeTurn() returns (taken: bool)
      requires Faithful()
      modifies this, controller
      ensures Faithful()
      ensures taken <==> old(controller.requestQueue) != []
    {
      hide Leads, Inv, Next;
      taken := controller.requestQueue != [];
      if taken {
        ghost var s := controller.View();
        controller.TakeRequest();
        Record(s, Fetch);
      }
    }

    /** _process_request: whatever others do, it ends, and a dispatch that still waits for it has its future done: with
        what the agent answered, if that is registered and ready, and else with which of the two it is not. */
    method ProcessRequest(id: RequestId, content: Content)
      requires Faithful() && id in controller.workers && controller.workers[id].Started?
      requires content.Produced? || content.AgentRaised?
      modifies this, controller
      ensures Faithful() && id in controller.workers && controller.workers[id].Finished?
      ensures id in controller.pendingRequests && id in controller.futures ==> !controller.futures[id].Unset?
      ensures var agent := old(controller.workers[id]).request.agent;
        var agents := old(controller.agents);
        var told := if agent !in agents then NoSuchAgent
          else if agents[agent] != AgentState.Ready then AgentNotReady
          else content;
        id in old(controller.futures) && old(controller.futures[id]).Unset? ==>
          id in controller.futures &&
          (controller.futures[id].Set? ==> controller.futures[id] == Set(Response(id, told)))
    {
      hide Leads, Inv;
      ghost var s := controller.View();
      OnlyReadyAgentsRun(s, id);
      controller.BeginProcessing(id);
      Record(s, BeginWork(id));
      if controller.workers[id].Running? {
        AwaitInWorker(id);
        s := controller.View();
        controller.EndProcessing(id, content);
        Record(s, EndWork(id, content));
      }
    }
  }

  lemma AnsweredIsClosed(s: State, id: RequestId)
    requires Inv(s) && id in s.dispatches && s.dispatches[id].Returned?
    ensures s.dispatches[id].response.requestId == id && id !in s.pending
  {
  }
}
