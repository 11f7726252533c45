/**
  The five timer intent handlers. Each lists the timers first, decides which
  further service calls to await, and ends in one of three ways: a success
  utterance, the voice consent request when a call was rejected as
  unauthorized (status code 401), or the operation's own error utterance for
  every other error. A handler is a pure function of the session attributes
  and the service; its outcome is the trace of calls, the response and the
  session attributes afterwards.
*/
module TimerHandlers {
  import opened Wrappers
  import opened Speech
  import opened Responses
  import opened TimerService

  /** Session attributes; the core only uses `lastTimerId`. */
  type Session = map<string, string>

  const LastTimerIdKey := "lastTimerId"

  /** The status code of the error the create handler throws when the new timer is not running. */
  const TimerDidNotStart := 308

  /** The status code that means the user has not granted the timers permission. */
  const Unauthorized := 401

  /** `sessionAttributes['lastTimerId']` is truthy: present and not the empty string. */
  predicate Remembered(session: Session)
  {
    LastTimerIdKey in session && session[LastTimerIdKey] != ""
  }

  datatype Operation = ReadOp | CreateOp | DeleteOp | PauseOp | ResumeOp

  function ErrorKey(op: Operation): MessageKey
  {
    match op
    case ReadOp => ReadTimerErrorMsg
    case CreateOp => CreateTimerErrorMsg
    case DeleteOp => DeleteTimerErrorMsg
    case PauseOp => PauseTimerErrorMsg
    case ResumeOp => ResumeTimerErrorMsg
  }

  /** What the caller observes of one handler invocation. */
  datatype Outcome = Outcome(calls: seq<Call>, response: Response, session: Session)

  /** The operation's error utterance, followed by the reprompt. */
  function ErrorResponse(op: Operation): Response
  {
    Prompt([Say(ErrorKey(op))])
  }

  /**
    The catch block every timer handler shares: an unauthorized rejection
    becomes the consent request, any other error the operation's error utterance.
  */
  function OnError(op: Operation, err: Error): (r: Response)
    ensures IsConsentRequest(r) <==> err.statusCode == Some(Unauthorized)
    ensures err.statusCode != Some(Unauthorized) ==> r == ErrorResponse(op)
    ensures r.consentCard.None?
  {
    if err.statusCode == Some(Unauthorized) then ConsentRequest else ErrorResponse(op)
  }

  /** The error the injected fault raises. */
  function Rejection(svc: Service): Error
    requires svc.fault.Some?
  {
    Error(Some(svc.fault.value.statusCode))
  }

  /** The spoken preface naming the number of timers; empty when the count is zero. */
  function Preface(count: int): Text
  {
    if count != 0 then [SayCount(TimerCountMsg, count)] else []
  }

  // ---------------------------------------------------------------- Read

  /**
    Read dereferences `timers[0]` when no id is remembered and the count is
    positive; with an empty list that throws a TypeError inside the try block.
  */
  predicate ReadTypeError(session: Session, svc: Service)
  {
    && RejectionAt(svc, 0).None?
    && !Remembered(session)
    && svc.listing.totalCount > 0
    && |svc.listing.timers| == 0
  }

  /** The id Read asks for: the remembered one, else the first listed timer's. */
  function ReadTarget(session: Session, list: TimerList): TimerId
    requires Remembered(session) || |list.timers| > 0
  {
    if Remembered(session) then session[LastTimerIdKey] else list.timers[0].id
  }

  function HandleReadTimer(session: Session, svc: Service): (o: Outcome)
    ensures o.session == session
    ensures 1 <= |o.calls| <= 2 && o.calls[0] == GetTimers
    ensures |o.calls| == 2 ==> o.calls[1].GetTimer?
    ensures (exists c :: c in o.calls && c.GetTimer?) <==>
      && RejectionAt(svc, 0).None?
      && (Remembered(session) || svc.listing.totalCount > 0)
      && !ReadTypeError(session, svc)
    ensures forall c :: c in o.calls && c.GetTimer? ==>
      if Remembered(session) then c.id == session[LastTimerIdKey]
      else |svc.listing.timers| > 0 && c.id == svc.listing.timers[0].id
    ensures FaultIn(svc, 0, |o.calls|) ==> o.response == OnError(ReadOp, Rejection(svc))
    ensures ReadTypeError(session, svc) ==> o.response == ErrorResponse(ReadOp)
    ensures !FaultIn(svc, 0, |o.calls|) && |o.calls| == 2 ==>
      o.calls[1].GetTimer? &&
      o.response == Prompt(Preface(svc.listing.totalCount) + [SayStatus(LastTimerMsg, svc.statusOf(o.calls[1].id))])
    ensures RejectionAt(svc, 0).None? && !Remembered(session) && svc.listing.totalCount <= 0 ==>
      o.response == Prompt(Preface(svc.listing.totalCount) + [Say(NoTimerMsg)])
  {
    var listed := Await(svc, [], GetTimers);
    if listed.error.Some? then
      Outcome(listed.calls, OnError(ReadOp, listed.error.value), session)
    else
      var list := svc.listing;
      var preText := Preface(list.totalCount);
      if Remembered(session) || list.totalCount > 0 then
        if !Remembered(session) && |list.timers| == 0 then
          Outcome(listed.calls, OnError(ReadOp, Error(None)), session)
        else
          var id := ReadTarget(session, list);
          var got := Await(svc, listed.calls, GetTimer(id));
          assert got.calls[1] == GetTimer(id);
          if got.error.Some? then
            Outcome(got.calls, OnError(ReadOp, got.error.value), session)
          else
            Outcome(got.calls, Prompt(preText + [SayStatus(LastTimerMsg, svc.statusOf(id))]), session)
      else
        Outcome(listed.calls, Prompt(preText + [Say(NoTimerMsg)]), session)
  }

  // ---------------------------------------------------------------- Create

  /** The calls Create awaits, in order: list the timers, then create the announcement timer. */
  function CreatePlan(duration: Option<string>): seq<Call>
  {
    [GetTimers, CreateTimer(AnnouncementTimer(duration))]
  }

  function HandleSetTimer(duration: Option<string>, session: Session, svc: Service): (o: Outcome)
    ensures 1 <= |o.calls| <= 2 && o.calls <= CreatePlan(duration)
    ensures forall c :: c in o.calls && c.CreateTimer? ==> c.spec.duration == duration
    ensures !FaultIn(svc, 0, 2) ==> o.calls == CreatePlan(duration)
    ensures !FaultIn(svc, 0, 2) && svc.created.status == On ==>
      && o.session == session[LastTimerIdKey := svc.created.id]
      && o.response == Prompt([Say(CreateTimerOkMsg)])
    ensures !FaultIn(svc, 0, 2) && svc.created.status != On ==>
      && o.session == session
      && o.response == ErrorResponse(CreateOp)
    ensures FaultIn(svc, 0, 2) ==>
      && o.session == session
      && o.response == OnError(CreateOp, Rejection(svc))
  {
    var listed := Await(svc, [], GetTimers);
    if listed.error.Some? then
      Outcome(listed.calls, OnError(CreateOp, listed.error.value), session)
    else
      var e := Await(svc, listed.calls, CreateTimer(AnnouncementTimer(duration)));
      if e.error.Some? then
        Outcome(e.calls, OnError(CreateOp, e.error.value), session)
      else if svc.created.status == On then
        Outcome(e.calls, Prompt([Say(CreateTimerOkMsg)]), session[LastTimerIdKey := svc.created.id])
      else
        Outcome(e.calls, OnError(CreateOp, Error(Some(TimerDidNotStart))), session)
  }

  // ---------------------------------------------------------------- Delete

  function HandleDeleteTimer(session: Session, svc: Service): (o: Outcome)
    ensures o.session == session
    ensures RejectionAt(svc, 0).Some? ==> o.calls == [GetTimers]
    ensures RejectionAt(svc, 0).None? && svc.listing.totalCount == 0 ==>
      o.calls == [GetTimers] && o.response == Prompt([Say(NoTimerMsg)])
    ensures RejectionAt(svc, 0).None? && svc.listing.totalCount != 0 && Remembered(session) ==>
      o.calls == [GetTimers, DeleteTimer(session[LastTimerIdKey])]
    ensures RejectionAt(svc, 0).None? && svc.listing.totalCount != 0 && !Remembered(session) ==>
      o.calls == [GetTimers, DeleteTimers]
    ensures FaultIn(svc, 0, |o.calls|) ==> o.response == OnError(DeleteOp, Rejection(svc))
    ensures !FaultIn(svc, 0, |o.calls|) && svc.listing.totalCount != 0 ==>
      o.response == Prompt([Say(DeleteTimerOkMsg)])
  {
    var listed := Await(svc, [], GetTimers);
    if listed.error.Some? then
      Outcome(listed.calls, OnError(DeleteOp, listed.error.value), session)
    else if svc.listing.totalCount == 0 then
      Outcome(listed.calls, Prompt([Say(NoTimerMsg)]), session)
    else
      var call := if Remembered(session) then DeleteTimer(session[LastTimerIdKey]) else DeleteTimers;
      var e := Await(svc, listed.calls, call);
      if e.error.Some? then
        Outcome(e.calls, OnError(DeleteOp, e.error.value), session)
      else
        Outcome(e.calls, Prompt([Say(DeleteTimerOkMsg)]), session)
  }

  // ---------------------------------------------------------------- Pause and Resume

  /** Pause and Resume are one loop over the listed timers with a different status test and call. */
  datatype Toggle = Pause | Resume

  function ToggleOp(a: Toggle): Operation
  {
    if a == Pause then PauseOp else ResumeOp
  }

  /** The status a timer must have for the loop to act on it. */
  function TargetStatus(a: Toggle): string
  {
    if a == Pause then On else Paused
  }

  function ToggleCall(a: Toggle, id: TimerId): Call
  {
    if a == Pause then PauseTimer(id) else ResumeTimer(id)
  }

  /** The call is one the loop would issue for some timer. */
  predicate IsToggleCall(a: Toggle, c: Call)
  {
    if a == Pause then c.PauseTimer? else c.ResumeTimer?
  }

  function ToggleOkKey(a: Toggle): MessageKey
  {
    if a == Pause then PauseTimerOkMsg else ResumeTimerOkMsg
  }

  /** The calls the `for ... of` loop awaits when none is rejected: one per listed timer in the target status. */
  function Planned(a: Toggle, timers: seq<Timer>): (r: seq<Call>)
    ensures |r| <= |timers|
    ensures forall c :: c in r ==> exists t :: t in timers && t.status == TargetStatus(a) && c == ToggleCall(a, t.id)
    ensures forall t :: t in timers && t.status == TargetStatus(a) ==> ToggleCall(a, t.id) in r
  {
    if |timers| == 0 then []
    else
      var rest := Planned(a, timers[1..]);
      assert forall t :: t in timers[1..] ==> t in timers;
      assert forall t :: t in timers ==> t == timers[0] || t in timers[1..];
      if timers[0].status == TargetStatus(a) then [ToggleCall(a, timers[0].id)] + rest else rest
  }

  function HandleToggleTimers(a: Toggle, session: Session, svc: Service): (o: Outcome)
    ensures o.session == session
    ensures RejectionAt(svc, 0).Some? ==>
      o.calls == [GetTimers] && o.response == OnError(ToggleOp(a), Rejection(svc))
    ensures RejectionAt(svc, 0).None? && svc.listing.totalCount == 0 ==>
      o.calls == [GetTimers] && o.response == Prompt([Say(NoTimerMsg)])
    ensures RejectionAt(svc, 0).None? && svc.listing.totalCount != 0 ==>
      var plan := Planned(a, svc.listing.timers);
      && (!FaultIn(svc, 1, 1 + |plan|) ==>
            o.calls == [GetTimers] + plan && o.response == Prompt([Say(ToggleOkKey(a))]))
      && (FaultIn(svc, 1, 1 + |plan|) ==>
            o.calls == [GetTimers] + plan[..svc.fault.value.at] && o.response == OnError(ToggleOp(a), Rejection(svc)))
  {
    var listed := Await(svc, [], GetTimers);
    if listed.error.Some? then
      Outcome(listed.calls, OnError(ToggleOp(a), listed.error.value), session)
    else if svc.listing.totalCount == 0 then
      Outcome(listed.calls, Prompt([Say(NoTimerMsg)]), session)
    else
      ToggleEach(a, Planned(a, svc.listing.timers), session, svc)
  }

  /** The loop part of Pause and Resume: await each planned call after the listing, stopping at a rejection. */
  function ToggleEach(a: Toggle, plan: seq<Call>, session: Session, svc: Service): (o: Outcome)
    ensures o.session == session
    ensures !FaultIn(svc, 1, 1 + |plan|) ==>
      o.calls == [GetTimers] + plan && o.response == Prompt([Say(ToggleOkKey(a))])
    ensures FaultIn(svc, 1, 1 + |plan|) ==>
      o.calls == [GetTimers] + plan[..svc.fault.value.at] && o.response == OnError(ToggleOp(a), Rejection(svc))
  {
    var e := IssueAll(svc, [GetTimers], plan);
    if e.error.Some? then
      Outcome(e.calls, OnError(ToggleOp(a), e.error.value), session)
    else
      Outcome(e.calls, Prompt([Say(ToggleOkKey(a))]), session)
  }

  // ---------------------------------------------------------------- All five

  /** The timer handler for an operation; `duration` is the SetTimerIntent slot and only Create reads it. */
  function TimerHandler(op: Operation, duration: Option<string>, session: Session, svc: Service): (o: Outcome)
    ensures |o.calls| >= 1 && o.calls[0] == GetTimers
    ensures o.session == session || (op == CreateOp && o.session == session[LastTimerIdKey := svc.created.id])
    ensures FaultIn(svc, 0, |o.calls|) ==> svc.fault.value.at == |o.calls| - 1
  {
    match op
    case ReadOp => HandleReadTimer(session, svc)
    case CreateOp => HandleSetTimer(duration, session, svc)
    case DeleteOp => HandleDeleteTimer(session, svc)
    case PauseOp => HandleToggleTimers(Pause, session, svc)
    case ResumeOp => HandleToggleTimers(Resume, session, svc)
  }

  /**
    The cases in which a handler throws an error of its own although no call
    was rejected: Create's timer did not start, Read's `timers[0]` on an empty list.
  */
  predicate SyntheticFailure(op: Operation, session: Session, svc: Service)
  {
    match op
    case CreateOp => !FaultIn(svc, 0, 2) && svc.created.status != On
    case ReadOp => ReadTypeError(session, svc)
    case _ => false
  }
}
