/**
  The Timer Management service as the handlers see it: a list of timers, the
  status it reports for a timer id, the timer it creates, and at most one
  rejected call. Every handler issues its calls strictly one after another and
  stops at the first rejection, so one injected fault covers every failure the
  handler can observe.
*/
module TimerService {
  import opened Wrappers
  import opened Speech

  type TimerId = string

  /** Timer statuses the handlers test for; the service may report others (e.g. "OFF"). */
  const On := "ON"
  const Paused := "PAUSED"

  datatype Timer = Timer(id: TimerId, status: string)

  /** The reply to `getTimers()`; `totalCount` is reported by the service, not computed. */
  datatype TimerList = TimerList(totalCount: int, timers: seq<Timer>)

  datatype Announcement = Announcement(locale: Phrase, text: Phrase)

  /** The timer specification passed to `createTimer`. */
  datatype TimerSpec = TimerSpec(
    duration: Option<string>,
    timerLabel: Phrase,
    visibility: string,
    operationType: string,
    textToAnnounce: seq<Announcement>,
    playAudible: bool)

  /** The announcement timer, the template the skill is configured to create. */
  function AnnouncementTimer(duration: Option<string>): (t: TimerSpec)
    ensures t.duration == duration && t.visibility == "VISIBLE" && t.playAudible
    ensures t.operationType == "ANNOUNCE" && |t.textToAnnounce| == 1
    ensures t.timerLabel == Say(AnnouncementTimerTitleMsg)
  {
    TimerSpec(
      duration,
      Say(AnnouncementTimerTitleMsg),
      "VISIBLE",
      "ANNOUNCE",
      [Announcement(Say(AnnouncementLocaleMsg), Say(AnnouncementTextMsg))],
      true)
  }

  /** One call of the timer service client, in the order issued. */
  datatype Call =
    | GetTimers
    | GetTimer(id: TimerId)
    | CreateTimer(spec: TimerSpec)
    | DeleteTimer(id: TimerId)
    | DeleteTimers
    | PauseTimer(id: TimerId)
    | ResumeTimer(id: TimerId)

  /** The call at position `at` of the handler's trace rejects with `statusCode`. */
  datatype Fault = Fault(at: nat, statusCode: int)

  datatype Service = Service(
    listing: TimerList,
    statusOf: TimerId -> string,
    created: Timer,
    fault: Option<Fault>)

  /** A thrown error object; a TypeError of the handler's own code carries no status code. */
  datatype Error = Error(statusCode: Option<int>)

  /** The calls issued so far, and the error that stopped them if one did. */
  datatype Exchange = Exchange(calls: seq<Call>, error: Option<Error>)

  /** The status code with which the call at trace position `i` rejects, if it does. */
  function RejectionAt(svc: Service, i: nat): Option<int>
  {
    if svc.fault.Some? && svc.fault.value.at == i then Some(svc.fault.value.statusCode) else None
  }

  /** The injected fault falls on one of the positions `lo .. hi-1` of the trace. */
  predicate FaultIn(svc: Service, lo: nat, hi: nat)
  {
    svc.fault.Some? && lo <= svc.fault.value.at < hi
  }

  /** Awaits one call after the already issued `calls`; the trace keeps it even when it is rejected. */
  function Await(svc: Service, calls: seq<Call>, c: Call): (e: Exchange)
    ensures e.calls == calls + [c]
    ensures e.error.Some? <==> RejectionAt(svc, |calls|).Some?
    ensures e.error.Some? ==> e.error.value == Error(RejectionAt(svc, |calls|))
  {
    match RejectionAt(svc, |calls|)
    case Some(code) => Exchange(calls + [c], Some(Error(Some(code))))
    case None => Exchange(calls + [c], None)
  }

  /**
    Awaits the `pending` calls one after another after the already issued
    `calls`, stopping at the first rejection. The trace keeps the rejected call.
  */
  function IssueAll(svc: Service, calls: seq<Call>, pending: seq<Call>): (e: Exchange)
    ensures !FaultIn(svc, |calls|, |calls| + |pending|) ==> e == Exchange(calls + pending, None)
    ensures FaultIn(svc, |calls|, |calls| + |pending|) ==>
      && e.calls == calls + pending[..svc.fault.value.at - |calls| + 1]
      && e.error == Some(Error(Some(svc.fault.value.statusCode)))
    decreases |pending|
  {
    if |pending| == 0 then
      Exchange(calls, None)
    else
      var issued := calls + [pending[0]];
      match RejectionAt(svc, |calls|)
      case Some(code) => Exchange(issued, Some(Error(Some(code))))
      case None =>
        var e := IssueAll(svc, issued, pending[1..]);
        assert issued + pending[1..] == calls + pending;
        assert FaultIn(svc, |issued|, |issued| + |pending[1..]|) ==>
          issued + pending[1..][..svc.fault.value.at - |issued| + 1] == calls + pending[..svc.fault.value.at - |calls| + 1];
        e
  }
}
