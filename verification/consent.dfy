/**
  The permissions-consent flow: the proactive check of the user's consent
  token, and the decision table that answers the platform's reply to a voice
  consent request.
*/
module Consent {
  import opened Wrappers
  import opened Speech
  import opened Responses
  import opened Requests
  import TimerService

  /**
    No response (`null`) when the permission record carries a truthy consent
    token; otherwise the response that asks for the timers permission by voice.
  */
  function VerifyConsentToken(env: Envelope): (r: Option<Response>)
    ensures r.None? <==> env.consentToken.Some? && env.consentToken.value != ""
    ensures r.Some? ==> IsConsentRequest(r.value)
  {
    if env.consentToken.Some? && env.consentToken.value != "" then None else Some(ConsentRequest)
  }

  /**
    The answer to an `AskFor` connections response. Reading `payload.status`
    on a "200" reply without a payload throws, which the model returns as a
    `Failure` with no status code.
  */
  function AskForResponse(statusCode: string, payload: Option<ConsentPayload>): (r: Result<Response, TimerService.Error>)
    ensures r.Failure? <==> statusCode == "200" && payload.None?
    ensures r.Success? ==> r.value.directives == []
    ensures statusCode == "200" && payload.Some? && payload.value.status == Accepted ==>
      r == Success(Prompt([Say(VoicePermissionAccepted)]))
    ensures statusCode == "200" && payload.Some? && payload.value.status != Accepted ==>
      r.value.reprompt.None?
    ensures statusCode == "200" && payload.Some? && payload.value.status != Accepted ==>
      r.value.speaks ==
        (if payload.value.status == Denied || payload.value.status == NotAnswered
         then [[Say(VoicePermissionDenied), Say(GoodbyeMsg)]] else []) +
        (if !payload.value.isCardThrown then [[Say(PermissionsCardMsg)]] else [])
    ensures statusCode == "200" && payload.Some? ==>
      (r.value.consentCard.Some? <==> payload.value.status != Accepted && !payload.value.isCardThrown)
    ensures r.Success? && r.value.consentCard.Some? ==>
      && r.value.consentCard.value == [TimersPermission]
      && |r.value.speaks| > 0
      && r.value.speaks[|r.value.speaks| - 1] == [Say(PermissionsCardMsg)]
    ensures statusCode == "500" ==> r == Success(Prompt([Say(VoicePermissionError)]))
    ensures statusCode != "200" && statusCode != "500" ==>
      r == Success(Empty.Speak([Say(VoicePermissionError), Say(GoodbyeMsg)]))
  {
    if statusCode == "200" then
      match payload
      case None => Failure(TimerService.Error(None))
      case Some(p) =>
        var answered :=
          if p.status == Accepted then
            Prompt([Say(VoicePermissionAccepted)])
          else if p.status == Denied || p.status == NotAnswered then
            Empty.Speak([Say(VoicePermissionDenied), Say(GoodbyeMsg)])
          else
            Empty;
        if p.status != Accepted && !p.isCardThrown then
          Success(answered.Speak([Say(PermissionsCardMsg)]).WithAskForPermissionsConsentCard([TimersPermission]))
        else
          Success(answered)
    else if statusCode == "500" then
      Success(Prompt([Say(VoicePermissionError)]))
    else
      Success(Empty.Speak([Say(VoicePermissionError), Say(GoodbyeMsg)]))
  }

  /**
    A "400" reply (the scope is missing from the skill manifest) is not
    special-cased in the response: like every code but "200" and "500" it is
    answered with the error and goodbye, with no reprompt and no directive.
  */
  lemma MissingScopeSaysGoodbye(payload: Option<ConsentPayload>)
    ensures var r := AskForResponse("400", payload);
      && r.Success?
      && r.value.speaks == [[Say(VoicePermissionError), Say(GoodbyeMsg)]]
      && r.value.reprompt.None?
      && r.value.directives == []
  {
  }

  /** Only an acceptance keeps the conversation open with a reprompt, among "200" replies. */
  lemma OnlyAcceptanceReprompts(payload: ConsentPayload)
    ensures AskForResponse("200", Some(payload)).value.reprompt.Some? <==> payload.status == Accepted
  {
  }
}
