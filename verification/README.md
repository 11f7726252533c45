# timers-demo skill core, modelled in Dafny

This project models the request handling of the timers demo skill
(`lambda/index.js`). The skill is a voice-assistant back end that manages
the user's timers through the Timer Management service. The model covers:

- the ordered first-match dispatcher over the handlers' `canHandle`
  predicates, with the error handler as the backstop;
- the five timer handlers (create, read, delete, pause, resume). Each one
  lists the timers first, decides which further service calls to await, and
  maps an unauthorized rejection (status code 401) to the voice consent
  request and any other error to its own error utterance;
- the decision table answering the platform's `AskFor` consent response;
- the proactive consent-token check `verifyConsentToken`.

Every handler is a pure function of the request envelope, the session
attributes and a model of the service. A handler's result is an `Outcome`:
the calls it issued to the service in order, the response record, and the
session attributes afterwards.

- **Service** (`TimerService.Service`): the reply to `getTimers` (a reported
  `totalCount` and a list of `(id, status)` timers), the status reported by
  `getTimer(id)`, the timer returned by `createTimer`, and at most one
  injected fault: "the call at position `at` of the trace rejects with
  `statusCode`". One fault is enough, because every handler stops at its
  first rejected call.
- **Localizer**: `t` is never evaluated. Speech is a sequence of symbolic
  `Phrase`s (key plus parameters). `Speech.Render` interprets speech under any
  localizer, and `Speech.RenderConcat` shows that `+` on phrase sequences is
  the skill's string concatenation.
- **Response builder** (`Responses.Response`): the texts passed to `speak`
  in call order, the reprompt, the directives and the consent card.
- **JavaScript truthiness**:
  - a `lastTimerId` counts as remembered when it is present and not `""`;
  - a consent token counts as present when it is present and not `""`;
  - a count preface is spoken when `totalCount != 0`.
- **TypeErrors raised by the skill's own code** are modelled as errors
  without a status code. There are two of them:
  - Read takes `timers[0]` when the count is positive but the list is empty;
  - the consent handler reads `payload.status` on a "200" reply that has no
    payload. This error escapes to the error handler.
- **The create handler's own throw** when the new timer is not ON carries
  status code 308 and is modelled as an error with that code.

Points of the code's behaviour worth noting:

- A consent reply with code "400" only adds a log line. It then falls through
  to the same error-and-goodbye speech as every code other than "200" and
  "500".
- The pause, resume, help, cancel and stop intents carry the `AMAZON.` prefix.
- Read asks for a timer only when one is remembered or when the count is
  positive and the list is non-empty.
- `verifyConsentToken` is defined but no handler calls it. It is modelled on
  its own.

## Model

| member | source | states |
|---|---|---|
| Speech.RenderConcat | lambda/index.js:180-185 | rendering a concatenation of phrase sequences is the concatenation of their renderings, so `t(a) + t(b)` speech is modelled exactly |
| TimerService.Await | lambda/index.js:230-233 | awaiting one call appends it to the trace, and it fails exactly when the service rejects the call at that position, with that status code |
| TimerService.AnnouncementTimer | lambda/index.js:15-37 | the timer spec keeps the duration as given, is visible, announces one locale-and-text pair audibly, and is labelled with the title message |
| TimerService.IssueAll | lambda/index.js:356-360 | awaiting calls one after another: with no fault among them all are issued and none fails; otherwise the trace ends with the rejected call and the error carries its status code |
| TimerHandlers.OnError | lambda/index.js:189-211 | the shared catch block: the response is the bare consent request exactly when the status code is 401, and otherwise the operation's error utterance followed by the reprompt |
| TimerHandlers.HandleReadTimer | lambda/index.js:163-212 | the first call lists timers and the only other call Read may issue is `getTimer`; `getTimer` is issued exactly when listing succeeded and an id is remembered or a positive count comes with a non-empty list; the remembered id wins over the first listed one; the session never changes; the spoken status is the one the service reports, after the count preface |
| TimerHandlers.HandleSetTimer | lambda/index.js:221-272 | lists then creates a timer whose spec carries the `duration` slot unchanged; `lastTimerId` becomes the new id when nothing failed and the timer is ON; a non-ON timer gives the create error with the session unchanged; a rejection maps through the catch block |
| TimerHandlers.HandleDeleteTimer | lambda/index.js:281-332 | count 0: only the listing and "no timer"; otherwise a single `deleteTimer(lastTimerId)` when one is remembered, else a single bulk `deleteTimers()`; the session is never changed |
| TimerHandlers.Planned | lambda/index.js:356-360 | a call occurs in the pause/resume loop's plan exactly when some listed timer in the target status has that id, and the plan is no longer than the list |
| TimerHandlers.HandleToggleTimers | lambda/index.js:340-446 | count 0: only the listing and "no timer"; otherwise the listing followed by the planned pause (resume) calls, cut at a rejected call, and the success or error response accordingly; the session never changes |
| TimerHandlers.ToggleEach | lambda/index.js:356-365 | after the listing, the planned calls are awaited in order: all of them and the success utterance when none is rejected, otherwise the trace up to the rejected call and the catch block's response |
| TimerHandlers.TimerHandler | lambda/index.js:158-447 | every timer handler lists timers first, stops at the rejected call, and changes the session only by Create writing the created id |
| TimerProperties.UnauthorizedRedirects | lambda/index.js:189-444 | for all five handlers: the response is the bare consent request if and only if a call was rejected with status code 401 |
| TimerProperties.OtherErrorsSpeak | lambda/index.js:189-444 | for all five handlers: the operation's error utterance with reprompt is given if and only if a call was rejected with another code or the handler failed on its own (create not ON, read of an empty list) |
| TimerProperties.ErrorsKeepSession | lambda/index.js:239-247 | a failed operation leaves the session attributes unchanged |
| TimerProperties.CreateRemembersRunningTimer | lambda/index.js:236-247 | after create, `lastTimerId` equals the returned id if and only if creation succeeded with status ON, or that id was already remembered |
| TimerProperties.CreatedTimerDependsOnDurationOnly | lambda/index.js:15-37 | the announcement timer Create requests is the same for every session and service reply: it carries the duration slot unchanged and announces the locale and text messages audibly |
| TimerProperties.ReadIdempotent | lambda/index.js:164-188 | reading again with the session Read leaves and the same service yields the same outcome |
| TimerProperties.ReadPrefaceIffCount | lambda/index.js:172-176 | on a successful read the speech opens with the count preface if and only if the reported count is nonzero |
| TimerProperties.ReadPrefersRememberedId | lambda/index.js:174-176 | with a remembered id, Read asks the service for that id |
| TimerProperties.DeleteAsymmetry | lambda/index.js:291-302 | with timers listed: a single-timer delete exactly when an id is remembered, a bulk delete exactly when none is, and the remembered id is kept |
| TimerProperties.PlannedSingle | lambda/index.js:356-360 | one listed timer yields one call when it is in the target status and none otherwise |
| TimerProperties.PlannedInListOrder | lambda/index.js:356-360 | the loop's calls for a concatenated list are those for each part in turn; with the single-timer case this fixes the plan as one call per target timer, in list order |
| TimerProperties.ToggleSelectivity | lambda/index.js:413-417 | without rejections, Pause pauses a timer id if and only if a listed timer with that id is ON (Resume: PAUSED), and issues no other kind of call |
| TimerProperties.ToggleWithoutTimers | lambda/index.js:349-354 | with count 0, Pause and Resume issue only the listing and say "no timer" |
| Consent.VerifyConsentToken | lambda/index.js:122-143 | no response exactly when the consent token is present; otherwise the consent request for the timers scope |
| Consent.AskForResponse | lambda/index.js:460-498 | the consent-answer table: 200/ACCEPTED accepts with reprompt and no card; any other 200 status has no reprompt and speaks exactly the denial and goodbye (DENIED, NOT_ANSWERED; nothing for other statuses) followed by the permissions-card message, with the card, exactly when the card was not thrown; 500 error with reprompt; any other code error and goodbye; no directive ever; a 200 reply without payload throws |
| Consent.MissingScopeSaysGoodbye | lambda/index.js:483-498 | a "400" reply is answered with the error and goodbye, no reprompt and no directive |
| Consent.OnlyAcceptanceReprompts | lambda/index.js:460-480 | among "200" replies, only an acceptance keeps the conversation open with a reprompt |
| Dispatcher.FirstMatch | lambda/index.js:607-620 | the result is the position of a matching handler with no matching handler before it, or none when no handler matches |
| Dispatcher.Select | lambda/index.js:607-620 | the selected handler is the earliest registered one whose predicate holds; none exactly when no predicate holds |
| Dispatcher.DisjointSwapKeepsSelection | lambda/index.js:607-620 | exchanging two neighbouring handlers whose predicates never hold together does not change the selected handler |
| Skill.CanHandle | lambda/index.js:146-543 | no handler accepts an unknown request kind; a specific intent handler accepts only an intent named in the set of claimed names; an intent with any other name is accepted by the reflector alone |
| Skill.Rank | lambda/index.js:608-620 | every handler has a position in the registration order |
| Skill.Handle | lambda/index.js:145-554 | only the consent-answer handler can throw, exactly on a "200" reply without payload, and otherwise it answers with the consent decision table, issuing no calls and keeping the session; non-timer handlers issue no calls; the five timer handlers run the timer operation they name, Set with the `duration` slot; only the create handler changes the session |
| Skill.ErrorOutcome | lambda/index.js:563-571 | the error handler issues no calls, keeps the session, sends no directive, and speaks the error message with the same message as reprompt |
| Skill.Respond | lambda/index.js:556-572 | a routed request gets its handler's outcome, and the error handler's apology when that handler throws; an unrouted request gets the apology; a response never carries a directive other than one consent request; only a routed create changes the session |
| SkillProperties.DispatchFollowsTable | lambda/index.js:607-620 | trying the predicates in registration order routes every request as a direct routing table says |
| SkillProperties.TableChoosesFirstAccepting | lambda/index.js:607-620 | the handler the routing table names accepts the request and every handler registered before it declines; when the table names none, no handler accepts |
| SkillProperties.RankOfPosition | lambda/index.js:607-620 | the registration order lists each handler once |
| SkillProperties.UnroutedRequests | lambda/index.js:556-562 | exactly the unknown request kinds and connections responses not named "AskFor" match no handler |
| SkillProperties.UnknownIntentsReflect | lambda/index.js:541-544 | an intent request whose name no specific handler claims goes to the intent reflector |
| SkillProperties.IntentRequestsAreRouted | lambda/index.js:541-544 | every intent request is routed to some handler |
| SkillProperties.ConsentRepliesFollowTable | lambda/index.js:454-499 | every "AskFor" connections response that does not throw is answered end to end with the consent decision table's response, no calls and the session kept |
| SkillProperties.ThrownErrorsReachErrorHandler | lambda/index.js:559-572 | for every envelope carrying a "200" AskFor reply without payload, the handler's throw is answered by the error handler with the session unchanged and no calls |
| SkillProperties.CreateScenario | lambda/index.js:221-247 | a PT5M timer created as ON with id t1 is remembered and confirmed with a reprompt |
| SkillProperties.ReadScenario | lambda/index.js:163-182 | with nothing remembered and one listed timer, Read asks for it and speaks the count preface and then its paused status |
| SkillProperties.DeleteScenario | lambda/index.js:291-302 | with two timers listed, Delete removes the remembered one alone, or all timers when none is remembered |
| SkillProperties.PauseResumeScenario | lambda/index.js:356-360 | with one ON and one PAUSED timer, Pause acts only on the first and Resume only on the second |

## Left out

- Localisation interceptor (i18next set-up and random choice among variants): the localizer is uninterpreted, and speech is kept symbolic.
- Logging interceptor and every `console.log`: output only.
- Skill builder wiring, the API client and the user agent: only the registration order of the handlers is modelled.
- The custom and predefined task-launch timer templates: the configured template is the announcement timer, and the other two are static data.
- The service's own behaviour: the model fixes the service's replies for one invocation. It does not model how pausing, resuming or deleting changes the remote timers afterwards.
- The response builder's internals: how several `speak` calls combine, and when the session ends, are SDK behaviour outside the file.
- async/await scheduling: the awaits are strictly sequential, so they appear as the order of the trace.
- JavaScript values of unexpected types (a non-numeric `totalCount`, a request without an intent inside an IntentRequest, a throw inside `canHandle`): request and reply fields are typed.
- The error handler's logging of the error stack: output only.
