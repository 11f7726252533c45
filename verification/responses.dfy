/**
  The response record a handler builds through the SDK's response builder:
  the texts passed to `speak` (in call order; how the SDK combines several is
  not part of the model), the `reprompt` text, the directives added, and the
  permissions-consent card.
*/
module Responses {
  import opened Wrappers
  import opened Speech

  /** The permission scope the skill asks the user to grant. */
  const TimersPermission := "alexa::alerts:timers:skill:readwrite"

  /** A `Connections.SendRequest` directive. */
  datatype Directive = SendRequest(
    directiveType: string,
    name: string,
    payloadType: string,
    payloadVersion: string,
    permissionScope: string,
    token: string)

  /** The voice consent request for the timers scope, the only directive the skill sends. */
  const AskForConsent := SendRequest(
    "Connections.SendRequest", "AskFor", "AskForPermissionsConsentRequest", "1", TimersPermission, "verifier")

  datatype Response = Response(
    speaks: seq<Text>,
    reprompt: Option<Text>,
    directives: seq<Directive>,
    consentCard: Option<seq<string>>)
  {
    function Speak(text: Text): Response
    {
      this.(speaks := speaks + [text])
    }

    function Reprompt(text: Text): Response
    {
      this.(reprompt := Some(text))
    }

    function AddDirective(d: Directive): Response
    {
      this.(directives := directives + [d])
    }

    function WithAskForPermissionsConsentCard(scopes: seq<string>): Response
    {
      this.(consentCard := Some(scopes))
    }
  }

  /** What `getResponse()` returns when nothing was added. */
  const Empty := Response([], None, [], None)

  /**
    The recurring shape `speak(text + t('REPROMPT_MSG')).reprompt(t('REPROMPT_MSG'))`:
    say `text`, then prompt the user and keep listening.
  */
  function Prompt(text: Text): Response
  {
    Empty.Speak(text + [Say(RepromptMsg)]).Reprompt([Say(RepromptMsg)])
  }

  /** The response that only asks the user, by voice, for the timers permission. */
  const ConsentRequest := Empty.AddDirective(AskForConsent)

  /** A response whose only content is the consent-request directive for the timers scope. */
  predicate IsConsentRequest(r: Response)
  {
    && r.speaks == []
    && r.reprompt.None?
    && r.consentCard.None?
    && |r.directives| == 1
    && r.directives[0].directiveType == "Connections.SendRequest"
    && r.directives[0].name == "AskFor"
    && r.directives[0].permissionScope == TimersPermission
  }
}
