/**
  Properties of the timer handlers that relate several calls or hold across
  all five operations.
*/
module TimerProperties {
  import opened Wrappers
  import opened Speech
  import opened Responses
  import opened TimerService
  import opened TimerHandlers

  /**
    Every handler answers a rejection with status code 401, and only such a
    rejection, with the bare consent request (no speech, no reprompt).
  */
  lemma UnauthorizedRedirects(op: Operation, duration: Option<string>, session: Session, svc: Service)
    ensures var o := TimerHandler(op, duration, session, svc);
      IsConsentRequest(o.response) <==>
        FaultIn(svc, 0, |o.calls|) && svc.fault.value.statusCode == Unauthorized
  {
    match op
    case ReadOp =>
    case CreateOp =>
    case DeleteOp =>
    case PauseOp =>
    case ResumeOp =>
  }

  /**
    Every handler speaks its own error utterance with a reprompt exactly when a
    call was rejected with any code but 401, or the handler failed on its own.
  */
  lemma OtherErrorsSpeak(op: Operation, duration: Option<string>, session: Session, svc: Service)
    ensures var o := TimerHandler(op, duration, session, svc);
      o.response == ErrorResponse(op) <==>
        || (FaultIn(svc, 0, |o.calls|) && svc.fault.value.statusCode != Unauthorized)
        || SyntheticFailure(op, session, svc)
  {
    var o := TimerHandler(op, duration, session, svc);
    if o.response == ErrorResponse(op) {
      assert o.response.speaks[0][0] == Say(ErrorKey(op));
    }
    match op
    case ReadOp =>
    case CreateOp =>
    case DeleteOp =>
    case PauseOp =>
    case ResumeOp =>
  }

  /** A failed operation leaves the session attributes as they were. */
  lemma ErrorsKeepSession(op: Operation, duration: Option<string>, session: Session, svc: Service)
    ensures var o := TimerHandler(op, duration, session, svc);
      (FaultIn(svc, 0, |o.calls|) || SyntheticFailure(op, session, svc)) ==> o.session == session
  {
  }

  /**
    Create writes `lastTimerId` (with the id the service returned) exactly when
    no call was rejected and the new timer is running, up to the case where
    that id was already remembered.
  */
  lemma CreateRemembersRunningTimer(duration: Option<string>, session: Session, svc: Service)
    ensures var o := HandleSetTimer(duration, session, svc);
      o.session == session[LastTimerIdKey := svc.created.id] <==>
        || (!FaultIn(svc, 0, 2) && svc.created.status == On)
        || (LastTimerIdKey in session && session[LastTimerIdKey] == svc.created.id)
  {
  }

  /**
    The timer Create asks for depends on the duration slot alone: it is the
    same whatever the session and the service's replies, keeps the duration
    as given, and announces the title, locale and text messages audibly.
  */
  lemma CreatedTimerDependsOnDurationOnly(duration: Option<string>, session: Session, svc: Service, session': Session, svc': Service)
    requires RejectionAt(svc, 0).None? && RejectionAt(svc', 0).None?
    ensures var o := HandleSetTimer(duration, session, svc);
      var o' := HandleSetTimer(duration, session', svc');
      && |o.calls| == 2 && |o'.calls| == 2 && o.calls[1] == o'.calls[1]
      && o.calls[1].CreateTimer?
      && o.calls[1].spec.duration == duration
      && o.calls[1].spec.textToAnnounce == [Announcement(Say(AnnouncementLocaleMsg), Say(AnnouncementTextMsg))]
      && o.calls[1].spec.playAudible
  {
  }

  /** Read never changes the session, so reading twice against the same service says the same thing. */
  lemma ReadIdempotent(session: Session, svc: Service)
    ensures var o := HandleReadTimer(session, svc);
      HandleReadTimer(o.session, svc) == o
  {
  }

  /** The count preface is spoken on a successful read exactly when the reported count is nonzero. */
  lemma ReadPrefaceIffCount(session: Session, svc: Service)
    requires RejectionAt(svc, 0).None? && !ReadTypeError(session, svc)
    requires !FaultIn(svc, 1, 2)
    ensures var o := HandleReadTimer(session, svc);
      && |o.response.speaks| == 1
      && (o.response.speaks[0][0] == SayCount(TimerCountMsg, svc.listing.totalCount) <==> svc.listing.totalCount != 0)
  {
  }

  /** The remembered id takes precedence over the first listed timer. */
  lemma ReadPrefersRememberedId(session: Session, svc: Service)
    requires Remembered(session)
    requires RejectionAt(svc, 0).None?
    ensures HandleReadTimer(session, svc).calls == [GetTimers, GetTimer(session[LastTimerIdKey])]
  {
  }

  /**
    With timers listed, Delete removes the remembered timer alone, or every
    timer of the user when none is remembered, and never both.
  */
  lemma DeleteAsymmetry(session: Session, svc: Service)
    requires RejectionAt(svc, 0).None? && svc.listing.totalCount != 0
    ensures var o := HandleDeleteTimer(session, svc);
      && |o.calls| == 2
      && (Remembered(session) <==> o.calls[1].DeleteTimer?)
      && (!Remembered(session) <==> o.calls[1] == DeleteTimers)
      && o.session == session
  {
  }

  /** A single listed timer yields one call when it is in the target status and none otherwise. */
  lemma PlannedSingle(a: Toggle, t: Timer)
    ensures Planned(a, [t]) == if t.status == TargetStatus(a) then [ToggleCall(a, t.id)] else []
  {
  }

  /** Planning the loop over a concatenated list plans each part in turn: calls follow list order. */
  lemma {:induction false} PlannedInListOrder(a: Toggle, xs: seq<Timer>, ys: seq<Timer>)
    ensures Planned(a, xs + ys) == Planned(a, xs) + Planned(a, ys)
    decreases |xs|
  {
    if |xs| == 0 {
      assert xs + ys == ys;
    } else {
      assert (xs + ys)[0] == xs[0];
      assert (xs + ys)[1..] == xs[1..] + ys;
      PlannedInListOrder(a, xs[1..], ys);
    }
  }

  /**
    When nothing is rejected, Pause pauses exactly the running timers and
    Resume resumes exactly the paused ones, and the loop issues no other call.
  */
  lemma ToggleSelectivity(a: Toggle, session: Session, svc: Service)
    requires RejectionAt(svc, 0).None? && svc.listing.totalCount != 0
    requires !FaultIn(svc, 1, 1 + |svc.listing.timers|)
    ensures var o := HandleToggleTimers(a, session, svc);
      && o.calls[0] == GetTimers
      && (forall id :: ToggleCall(a, id) in o.calls <==>
            exists t :: t in svc.listing.timers && t.id == id && t.status == TargetStatus(a))
      && (forall i :: 1 <= i < |o.calls| ==> IsToggleCall(a, o.calls[i]))
      && o.response == Prompt([Say(ToggleOkKey(a))])
  {
    var o := HandleToggleTimers(a, session, svc);
    var plan := Planned(a, svc.listing.timers);
    assert o.calls == [GetTimers] + plan;
    forall i | 1 <= i < |o.calls|
      ensures IsToggleCall(a, o.calls[i])
    {
      assert o.calls[i] in plan;
    }
    forall id
      ensures ToggleCall(a, id) in o.calls <==>
        exists t :: t in svc.listing.timers && t.id == id && t.status == TargetStatus(a)
    {
      if ToggleCall(a, id) in o.calls {
        assert ToggleCall(a, id) != GetTimers;
        assert ToggleCall(a, id) in plan;
      }
    }
  }

  /** With no timers listed, neither Pause nor Resume acts; both say there is no timer. */
  lemma ToggleWithoutTimers(a: Toggle, session: Session, svc: Service)
    requires RejectionAt(svc, 0).None? && svc.listing.totalCount == 0
    ensures var o := HandleToggleTimers(a, session, svc);
      o.calls == [GetTimers] && o.response.speaks == [[Say(NoTimerMsg), Say(RepromptMsg)]]
  {
    assert [Say(NoTimerMsg)] + [Say(RepromptMsg)] == [Say(NoTimerMsg), Say(RepromptMsg)];
  }
}
