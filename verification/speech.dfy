/**
  Speech as the handlers compose it. The handlers never see text, only the
  localizer `t(key, params)`; the model keeps each call to `t` as a symbolic
  `Phrase`, and a spoken string as the sequence of phrases whose translations
  the skill concatenates with `+`. `Render` interprets a `Text` under any
  localizer, so nothing here depends on the message catalogue.
*/
module Speech {

  /** The parameter object passed as the second argument of `t`. */
  datatype Params = NoParams | CountParam(count: int) | StatusParam(status: string) | IntentParam(intent: string)

  /** One call of the localizer. `SayStatus(k, s)` is `t(k, {status: t(s + '_TIMER_STATUS_MSG')})`. */
  datatype Phrase =
    | Say(key: MessageKey)
    | SayCount(key: MessageKey, count: int)
    | SayStatus(key: MessageKey, status: string)
    | SayIntent(key: MessageKey, intent: string)

  /** A spoken string: the concatenation of its phrases' translations. */
  type Text = seq<Phrase>

  /** The localizer, uninterpreted. */
  type Localizer = (string, Params) -> string

  /** The keys of the localisation catalogue that the core uses. */
  datatype MessageKey =
    | WelcomeMsg
    | HelpMsg
    | GoodbyeMsg
    | ReflectorMsg
    | ErrorMsg
    | RepromptMsg
    | NoTimerMsg
    | TimerCountMsg
    | LastTimerMsg
    | ReadTimerErrorMsg
    | CreateTimerOkMsg
    | CreateTimerErrorMsg
    | DeleteTimerOkMsg
    | DeleteTimerErrorMsg
    | PauseTimerOkMsg
    | PauseTimerErrorMsg
    | ResumeTimerOkMsg
    | ResumeTimerErrorMsg
    | VoicePermissionAccepted
    | VoicePermissionDenied
    | VoicePermissionError
    | PermissionsCardMsg
    | AnnouncementTimerTitleMsg
    | AnnouncementLocaleMsg
    | AnnouncementTextMsg
  {
    /** The key as written in the catalogue. */
    function Name(): string
    {
      match this
      case WelcomeMsg => "WELCOME_MSG"
      case HelpMsg => "HELP_MSG"
      case GoodbyeMsg => "GOODBYE_MSG"
      case ReflectorMsg => "REFLECTOR_MSG"
      case ErrorMsg => "ERROR_MSG"
      case RepromptMsg => "REPROMPT_MSG"
      case NoTimerMsg => "NO_TIMER_MSG"
      case TimerCountMsg => "TIMER_COUNT_MSG"
      case LastTimerMsg => "LAST_TIMER_MSG"
      case ReadTimerErrorMsg => "READ_TIMER_ERROR_MSG"
      case CreateTimerOkMsg => "CREATE_TIMER_OK_MSG"
      case CreateTimerErrorMsg => "CREATE_TIMER_ERROR_MSG"
      case DeleteTimerOkMsg => "DELETE_TIMER_OK_MSG"
      case DeleteTimerErrorMsg => "DELETE_TIMER_ERROR_MSG"
      case PauseTimerOkMsg => "PAUSE_TIMER_OK_MSG"
      case PauseTimerErrorMsg => "PAUSE_TIMER_ERROR_MSG"
      case ResumeTimerOkMsg => "RESUME_TIMER_OK_MSG"
      case ResumeTimerErrorMsg => "RESUME_TIMER_ERROR_MSG"
      case VoicePermissionAccepted => "VOICE_PERMISSION_ACCEPTED"
      case VoicePermissionDenied => "VOICE_PERMISSION_DENIED"
      case VoicePermissionError => "VOICE_PERMISSION_ERROR"
      case PermissionsCardMsg => "PERMISSIONS_CARD_MSG"
      case AnnouncementTimerTitleMsg => "ANNOUNCEMENT_TIMER_TITLE_MSG"
      case AnnouncementLocaleMsg => "ANNOUNCEMENT_LOCALE_MSG"
      case AnnouncementTextMsg => "ANNOUNCEMENT_TEXT_MSG"
    }
  }

  /** A reported timer status `s` is spoken under the catalogue key `s + "_TIMER_STATUS_MSG"`. */
  const TimerStatusSuffix := "_TIMER_STATUS_MSG"

  /** The string one localizer call yields. */
  function Translate(t: Localizer, p: Phrase): string
  {
    match p
    case Say(k) => t(k.Name(), NoParams)
    case SayCount(k, n) => t(k.Name(), CountParam(n))
    case SayStatus(k, s) => t(k.Name(), StatusParam(t(s + TimerStatusSuffix, NoParams)))
    case SayIntent(k, i) => t(k.Name(), IntentParam(i))
  }

  /** The string a `Text` stands for under the localizer `t`. */
  function Render(t: Localizer, text: Text): string
  {
    if |text| == 0 then "" else Translate(t, text[0]) + Render(t, text[1..])
  }

  /**
    Rendering turns `+` on texts into `+` on strings, so a model text
    `a + b` is exactly the skill's `t(..) + t(..)` concatenation.
  */
  lemma {:induction false} RenderConcat(t: Localizer, a: Text, b: Text)
    ensures Render(t, a + b) == Render(t, a) + Render(t, b)
    decreases |a|
  {
    if |a| == 0 {
      assert a + b == b;
    } else {
      assert (a + b)[1..] == a[1..] + b;
      RenderConcat(t, a[1..], b);
    }
  }
}
