/** The request envelopes the skill receives, reduced to the fields the core reads. */
module Requests {
  import opened Wrappers

  /** A recognised intent and its filled slots (slot name to value; a slot without a value is absent). */
  datatype Intent = Intent(name: string, slots: map<string, string>)

  /** The payload of the answer to a voice consent request. */
  datatype ConsentPayload = ConsentPayload(status: string, isCardThrown: bool)

  const Accepted := "ACCEPTED"
  const Denied := "DENIED"
  const NotAnswered := "NOT_ANSWERED"

  /**
    The request kinds the handlers test for. `OtherRequest` stands for any
    request type that no handler names.
  */
  datatype Request =
    | LaunchRequest
    | IntentRequest(intent: Intent)
    | ConnectionsResponse(name: string, statusCode: string, payload: Option<ConsentPayload>)
    | SessionEndedRequest
    | OtherRequest

  /** The request and the user's permission record (`context.System.user.permissions.consentToken`). */
  datatype Envelope = Envelope(request: Request, consentToken: Option<string>)

  /** `Alexa.getSlotValue(requestEnvelope, name)` on an intent request. */
  function SlotValue(intent: Intent, name: string): Option<string>
  {
    if name in intent.slots then Some(intent.slots[name]) else None
  }
}
