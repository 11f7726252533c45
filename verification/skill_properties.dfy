/** Properties of dispatch and end-to-end turns of the skill. */
module SkillProperties {
  import opened Wrappers
  import opened Speech
  import opened Responses
  import opened Requests
  import opened TimerService
  import opened TimerHandlers
  import opened Consent
  import opened Dispatcher
  import opened Skill

  /** The routing table names a handler that accepts the request, and every handler registered before it declines. */
  lemma TableChoosesFirstAccepting(req: Request)
    ensures RoutingTable(req).None? ==> forall g :: !CanHandle(g, req)
    ensures RoutingTable(req).Some? ==> CanHandle(RoutingTable(req).value, req)
    ensures RoutingTable(req).Some? ==> forall g :: Rank(g) < Rank(RoutingTable(req).value) ==> !CanHandle(g, req)
  {
  }

  /** Trying the predicates in registration order routes every request as the routing table says. */
  lemma DispatchFollowsTable(req: Request)
    ensures Dispatch(req) == RoutingTable(req)
  {
    var m := h => CanHandle(h, req);
    TableChoosesFirstAccepting(req);
    match RoutingTable(req)
    case None =>
      assert forall h :: h in HandlerOrder ==> !m(h);
    case Some(h) =>
      var k := Rank(h);
      forall j | 0 <= j < k ensures !m(HandlerOrder[j]) {
        RankOfPosition(j);
      }
      FirstMatchIsUnique(HandlerOrder, m, k);
  }

  /** The registration order lists each handler once, so a position's handler has that position as its rank. */
  lemma RankOfPosition(j: nat)
    requires j < |HandlerOrder|
    ensures Rank(HandlerOrder[j]) == j
  {
  }

  /** Exactly the requests the routing table leaves out. */
  lemma TableLeavesOut(req: Request)
    ensures RoutingTable(req).None? <==> req.OtherRequest? || (req.ConnectionsResponse? && req.name != "AskFor")
  {
  }

  /** Only requests of a kind no handler names, or connections responses not named "AskFor", go unrouted. */
  lemma UnroutedRequests(req: Request)
    ensures Dispatch(req).None? <==> req.OtherRequest? || (req.ConnectionsResponse? && req.name != "AskFor")
  {
    DispatchFollowsTable(req);
    TableLeavesOut(req);
  }

  /** An intent request whose name no specific handler claims falls through to the intent reflector. */
  lemma UnknownIntentsReflect(req: Request)
    requires req.IntentRequest? && req.intent.name !in NamedIntents
    ensures Dispatch(req) == Some(IntentReflectorHandler)
  {
    assert RoutingTable(req) == Some(IntentReflectorHandler);
    DispatchFollowsTable(req);
  }

  /** Every intent request is handled by some handler, so none reaches the error handler unrouted. */
  lemma IntentRequestsAreRouted(req: Request)
    requires req.IntentRequest?
    ensures Dispatch(req).Some?
  {
    assert RoutingTable(req).Some?;
    DispatchFollowsTable(req);
  }

  /** A consent reply that does not throw is answered by the decision table, with no calls and the session kept. */
  lemma ConsentRepliesFollowTable(env: Envelope, session: Session, svc: Service)
    requires env.request.ConnectionsResponse? && env.request.name == "AskFor"
    requires AskForResponse(env.request.statusCode, env.request.payload).Success?
    ensures Respond(env, session, svc) ==
      Outcome([], AskForResponse(env.request.statusCode, env.request.payload).value, session)
  {
    DispatchFollowsTable(env.request);
  }

  /** A throw inside the chosen handler is answered by the error handler, with nothing else done. */
  lemma ThrownErrorsReachErrorHandler(env: Envelope, session: Session, svc: Service)
    requires env.request == ConnectionsResponse("AskFor", "200", None)
    ensures Respond(env, session, svc) == ErrorOutcome(session)
  {
    DispatchFollowsTable(env.request);
  }

  /**
    Creating a five-minute timer against an empty list that the service starts
    remembers the new timer's id and confirms the creation with a reprompt.
  */
  lemma CreateScenario(session: Session, svc: Service)
    requires svc.listing == TimerList(0, []) && svc.created == Timer("t1", On) && svc.fault.None?
    ensures var intent := Intent("SetTimerIntent", map["duration" := "PT5M"]);
      var o := Respond(Envelope(IntentRequest(intent), None), session, svc);
      && o.session == session[LastTimerIdKey := "t1"]
      && o.calls == [GetTimers, CreateTimer(AnnouncementTimer(Some("PT5M")))]
      && o.response == Prompt([Say(CreateTimerOkMsg)])
  {
    var intent := Intent("SetTimerIntent", map["duration" := "PT5M"]);
    DispatchFollowsTable(IntentRequest(intent));
    assert SlotValue(intent, "duration") == Some("PT5M");
  }

  /**
    Reading with nothing remembered and one timer listed asks for that timer
    and speaks the count preface, then its paused status.
  */
  lemma ReadScenario(session: Session, svc: Service)
    requires LastTimerIdKey !in session
    requires svc.listing == TimerList(1, [Timer("t2", Paused)]) && svc.statusOf("t2") == Paused && svc.fault.None?
    ensures var o := Respond(Envelope(IntentRequest(Intent("ReadTimerIntent", map[])), None), session, svc);
      && o.calls == [GetTimers, GetTimer("t2")]
      && o.response.speaks == [[SayCount(TimerCountMsg, 1), SayStatus(LastTimerMsg, Paused), Say(RepromptMsg)]]
  {
    var env := Envelope(IntentRequest(Intent("ReadTimerIntent", map[])), None);
    assert RoutingTable(env.request) == Some(ReadTimerIntentHandler);
    DispatchFollowsTable(env.request);
    assert Handle(ReadTimerIntentHandler, env, session, svc) == Success(TimerHandler(ReadOp, None, session, svc));
    ReadFirstListedTimer(session, svc);
  }

  /** The handler half of the read scenario. */
  lemma ReadFirstListedTimer(session: Session, svc: Service)
    requires LastTimerIdKey !in session
    requires svc.listing == TimerList(1, [Timer("t2", Paused)]) && svc.statusOf("t2") == Paused && svc.fault.None?
    ensures var o := HandleReadTimer(session, svc);
      && o.calls == [GetTimers, GetTimer("t2")]
      && o.response.speaks == [[SayCount(TimerCountMsg, 1), SayStatus(LastTimerMsg, Paused), Say(RepromptMsg)]]
  {
    var o := HandleReadTimer(session, svc);
    assert o.calls == [GetTimers, GetTimer("t2")];
    assert Preface(1) + [SayStatus(LastTimerMsg, Paused)] + [Say(RepromptMsg)] ==
      [SayCount(TimerCountMsg, 1), SayStatus(LastTimerMsg, Paused), Say(RepromptMsg)];
  }

  /** With two timers listed, Delete removes the remembered one, or all of them when none is remembered. */
  lemma DeleteScenario(timers: seq<Timer>, statusOf: TimerId -> string, created: Timer)
    ensures var svc := Service(TimerList(2, timers), statusOf, created, None);
      && HandleDeleteTimer(map[LastTimerIdKey := "t1"], svc).calls == [GetTimers, DeleteTimer("t1")]
      && HandleDeleteTimer(map[], svc).calls == [GetTimers, DeleteTimers]
  {
  }

  /** With one running and one paused timer, Pause acts on the first only and Resume on the second only. */
  lemma PauseResumeScenario(session: Session, statusOf: TimerId -> string, created: Timer)
    ensures var svc := Service(TimerList(2, [Timer("1", On), Timer("2", Paused)]), statusOf, created, None);
      && HandleToggleTimers(Pause, session, svc).calls == [GetTimers, PauseTimer("1")]
      && HandleToggleTimers(Resume, session, svc).calls == [GetTimers, ResumeTimer("2")]
  {
    var timers := [Timer("1", On), Timer("2", Paused)];
    assert timers[1..][1..] == [];
    assert Planned(Pause, timers) == [PauseTimer("1")];
    assert Planned(Resume, timers) == [ResumeTimer("2")];
  }
}
