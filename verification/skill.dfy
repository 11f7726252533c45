/**
  The skill: its request handlers, their registration order, and the entry
  point that dispatches a request and falls back to the error handler when no
  handler matches or the chosen one throws.
*/
module Skill {
  import opened Wrappers
  import opened Speech
  import opened Responses
  import opened Requests
  import opened TimerService
  import opened TimerHandlers
  import opened Consent
  import opened Dispatcher

  datatype HandlerKind =
    | LaunchRequestHandler
    | AskForResponseHandler
    | SetTimerIntentHandler
    | ReadTimerIntentHandler
    | DeleteTimerIntentHandler
    | PauseTimerIntentHandler
    | ResumeTimerIntentHandler
    | HelpIntentHandler
    | CancelAndStopIntentHandler
    | SessionEndedRequestHandler
    | IntentReflectorHandler

  /** The order in which the handlers are registered, and so tried. */
  const HandlerOrder: seq<HandlerKind> := [
    LaunchRequestHandler,
    AskForResponseHandler,
    SetTimerIntentHandler,
    ReadTimerIntentHandler,
    DeleteTimerIntentHandler,
    PauseTimerIntentHandler,
    ResumeTimerIntentHandler,
    HelpIntentHandler,
    CancelAndStopIntentHandler,
    SessionEndedRequestHandler,
    IntentReflectorHandler
  ]

  predicate IsIntent(req: Request, name: string)
  {
    req.IntentRequest? && req.intent.name == name
  }

  /** Each handler's `canHandle`. */
  predicate CanHandle(h: HandlerKind, req: Request)
    ensures CanHandle(h, req) ==> !req.OtherRequest?
    ensures CanHandle(h, req) && req.IntentRequest? && h != IntentReflectorHandler ==> req.intent.name in NamedIntents
    ensures req.IntentRequest? && req.intent.name !in NamedIntents ==> (CanHandle(h, req) <==> h == IntentReflectorHandler)
  {
    match h
    case LaunchRequestHandler => req.LaunchRequest?
    case AskForResponseHandler => req.ConnectionsResponse? && req.name == "AskFor"
    case SetTimerIntentHandler => IsIntent(req, "SetTimerIntent")
    case ReadTimerIntentHandler => IsIntent(req, "ReadTimerIntent")
    case DeleteTimerIntentHandler => IsIntent(req, "DeleteTimerIntent")
    case PauseTimerIntentHandler => IsIntent(req, "AMAZON.PauseIntent")
    case ResumeTimerIntentHandler => IsIntent(req, "AMAZON.ResumeIntent")
    case HelpIntentHandler => IsIntent(req, "AMAZON.HelpIntent")
    case CancelAndStopIntentHandler => IsIntent(req, "AMAZON.CancelIntent") || IsIntent(req, "AMAZON.StopIntent")
    case SessionEndedRequestHandler => req.SessionEndedRequest?
    case IntentReflectorHandler => req.IntentRequest?
  }

  /** The intent names some handler before the reflector claims. */
  const NamedIntents := {
    "SetTimerIntent", "ReadTimerIntent", "DeleteTimerIntent", "AMAZON.PauseIntent",
    "AMAZON.ResumeIntent", "AMAZON.HelpIntent", "AMAZON.CancelIntent", "AMAZON.StopIntent"
  }

  /** The handler the SDK invokes for a request, if any matches. */
  function Dispatch(req: Request): Option<HandlerKind>
  {
    Select(HandlerOrder, h => CanHandle(h, req))
  }

  /** The position of a handler in the registration order. */
  function Rank(h: HandlerKind): (k: nat)
    ensures k < |HandlerOrder| && HandlerOrder[k] == h
  {
    match h
    case LaunchRequestHandler => 0
    case AskForResponseHandler => 1
    case SetTimerIntentHandler => 2
    case ReadTimerIntentHandler => 3
    case DeleteTimerIntentHandler => 4
    case PauseTimerIntentHandler => 5
    case ResumeTimerIntentHandler => 6
    case HelpIntentHandler => 7
    case CancelAndStopIntentHandler => 8
    case SessionEndedRequestHandler => 9
    case IntentReflectorHandler => 10
  }

  /**
    The routing the registration order amounts to, written as a direct table
    over the request: the reference the ordered dispatch is proved against.
  */
  function RoutingTable(req: Request): Option<HandlerKind>
  {
    match req
    case LaunchRequest => Some(LaunchRequestHandler)
    case ConnectionsResponse(name, _, _) => if name == "AskFor" then Some(AskForResponseHandler) else None
    case IntentRequest(intent) =>
      if intent.name == "SetTimerIntent" then Some(SetTimerIntentHandler)
      else if intent.name == "ReadTimerIntent" then Some(ReadTimerIntentHandler)
      else if intent.name == "DeleteTimerIntent" then Some(DeleteTimerIntentHandler)
      else if intent.name == "AMAZON.PauseIntent" then Some(PauseTimerIntentHandler)
      else if intent.name == "AMAZON.ResumeIntent" then Some(ResumeTimerIntentHandler)
      else if intent.name == "AMAZON.HelpIntent" then Some(HelpIntentHandler)
      else if intent.name == "AMAZON.CancelIntent" || intent.name == "AMAZON.StopIntent" then Some(CancelAndStopIntentHandler)
      else Some(IntentReflectorHandler)
    case SessionEndedRequest => Some(SessionEndedRequestHandler)
    case OtherRequest => None
  }

  /** The timer operation a handler performs, if it is a timer handler. */
  function TimerOperation(h: HandlerKind): Option<Operation>
  {
    match h
    case SetTimerIntentHandler => Some(CreateOp)
    case ReadTimerIntentHandler => Some(ReadOp)
    case DeleteTimerIntentHandler => Some(DeleteOp)
    case PauseTimerIntentHandler => Some(PauseOp)
    case ResumeTimerIntentHandler => Some(ResumeOp)
    case _ => None
  }

  /**
    Each handler's `handle`, invoked only on a request it can handle. Only the
    consent-answer handler can throw; the timer handlers catch everything.
  */
  function Handle(h: HandlerKind, env: Envelope, session: Session, svc: Service): (r: Result<Outcome, Error>)
    requires CanHandle(h, env.request)
    ensures r.Failure? <==> h == AskForResponseHandler && env.request.statusCode == "200" && env.request.payload.None?
    ensures r.Success? && TimerOperation(h).None? ==> r.value.calls == [] && r.value.session == session
    ensures r.Success? && TimerOperation(h).Some? ==> |r.value.calls| >= 1 && r.value.calls[0] == GetTimers
    ensures r.Success? && h != SetTimerIntentHandler ==> r.value.session == session
    ensures h == AskForResponseHandler ==>
      var answer := AskForResponse(env.request.statusCode, env.request.payload);
      && (r.Success? <==> answer.Success?)
      && (r.Success? ==> r.value == Outcome([], answer.value, session))
    ensures TimerOperation(h).Some? ==>
      var duration := if h == SetTimerIntentHandler then SlotValue(env.request.intent, "duration") else None;
      r == Success(TimerHandler(TimerOperation(h).value, duration, session, svc))
  {
    var req := env.request;
    match h
    case LaunchRequestHandler =>
      Success(Outcome([], Empty.Speak([Say(WelcomeMsg)]).Reprompt([Say(WelcomeMsg)]), session))
    case AskForResponseHandler =>
      (match AskForResponse(req.statusCode, req.payload)
       case Success(response) => Success(Outcome([], response, session))
       case Failure(e) => Failure(e))
    case SetTimerIntentHandler =>
      Success(TimerHandler(CreateOp, SlotValue(req.intent, "duration"), session, svc))
    case ReadTimerIntentHandler => Success(TimerHandler(ReadOp, None, session, svc))
    case DeleteTimerIntentHandler => Success(TimerHandler(DeleteOp, None, session, svc))
    case PauseTimerIntentHandler => Success(TimerHandler(PauseOp, None, session, svc))
    case ResumeTimerIntentHandler => Success(TimerHandler(ResumeOp, None, session, svc))
    case HelpIntentHandler =>
      Success(Outcome([], Empty.Speak([Say(HelpMsg)]).Reprompt([Say(HelpMsg)]), session))
    case CancelAndStopIntentHandler =>
      Success(Outcome([], Empty.Speak([Say(GoodbyeMsg)]), session))
    case SessionEndedRequestHandler =>
      Success(Outcome([], Empty, session))
    case IntentReflectorHandler =>
      Success(Outcome([], Empty.Speak([SayIntent(ReflectorMsg, req.intent.name)]), session))
  }

  /** The error handler's answer: an apology, repeated as the reprompt. Its `canHandle` is `true`. */
  function ErrorOutcome(session: Session): (o: Outcome)
    ensures o.calls == [] && o.session == session && o.response.directives == []
    ensures o.response.speaks == [[Say(ErrorMsg)]] && o.response.reprompt == Some([Say(ErrorMsg)])
  {
    Outcome([], Empty.Speak([Say(ErrorMsg)]).Reprompt([Say(ErrorMsg)]), session)
  }

  /**
    One turn of the skill: dispatch, run the chosen handler, and answer with
    the error handler when no handler matches or the handler throws.
  */
  function Respond(env: Envelope, session: Session, svc: Service): (o: Outcome)
    ensures Dispatch(env.request).None? ==> o == ErrorOutcome(session)
    ensures Dispatch(env.request).Some? ==>
      var h := Dispatch(env.request).value;
      && CanHandle(h, env.request)
      && (Handle(h, env, session, svc).Success? ==> o == Handle(h, env, session, svc).value)
      && (Handle(h, env, session, svc).Failure? ==> o == ErrorOutcome(session))
    ensures o.response.directives == [] || o.response.directives == [AskForConsent]
    ensures o.session == session ||
      (Dispatch(env.request) == Some(SetTimerIntentHandler) && o.session == session[LastTimerIdKey := svc.created.id])
  {
    match Dispatch(env.request)
    case None => ErrorOutcome(session)
    case Some(h) =>
      match Handle(h, env, session, svc)
      case Success(o) =>
        DirectivesAreConsentRequests(h, env, session, svc);
        o
      case Failure(_) => ErrorOutcome(session)
  }

  /** No handler sends a directive other than a single consent request. */
  lemma DirectivesAreConsentRequests(h: HandlerKind, env: Envelope, session: Session, svc: Service)
    requires CanHandle(h, env.request)
    ensures var r := Handle(h, env, session, svc);
      r.Success? ==> r.value.response.directives == [] || r.value.response.directives == [AskForConsent]
  {
    if TimerOperation(h).Some? {
      var op := TimerOperation(h).value;
      var duration := if h == SetTimerIntentHandler then SlotValue(env.request.intent, "duration") else None;
      var o := TimerHandler(op, duration, session, svc);
      assert Handle(h, env, session, svc) == Success(o);
      TimerDirectives(op, duration, session, svc);
    }
  }

  /** A timer handler's only possible directive is the consent request of its catch block. */
  lemma TimerDirectives(op: Operation, duration: Option<string>, session: Session, svc: Service)
    ensures var o := TimerHandler(op, duration, session, svc);
      o.response.directives == [] || o.response.directives == [AskForConsent]
  {
    match op
    case ReadOp =>
    case CreateOp =>
    case DeleteOp =>
    case PauseOp =>
    case ResumeOp =>
  }
}
