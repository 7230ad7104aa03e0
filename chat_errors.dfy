/**
 * How the chat turns a failed request into what the user sees: the alert
 * that asks to activate the AI gateway, or a toast with a description.
 */
module ChatErrors {
  import opened JsStrings

  /** What `onError` receives: a `ChatSDKError`, any other `Error`, or a thrown non-error value. */
  datatype ChatError = SdkError(message: string) | PlainError(message: string) | NonError(text: string)

  const ThinkingUnsupportedMarker: string := "thinking is not supported by this model"
  const CreditCardMarker: string := "AI Gateway requires a valid credit card"
  const GoogleKeyMarker: string := "Google API key is required"
  const GoogleKeyRemediation: string := "Please configure your Google API key in Settings to use the chat."
  const UnexpectedErrorText: string := "An unexpected error occurred"

  /** `error instanceof Error ? error.message : String(error)` */
  function MessageText(e: ChatError): (r: string)
    ensures e == SdkError(r) || e == PlainError(r) || e == NonError(r)
  {
    match e
    case SdkError(m) => m
    case PlainError(m) => m
    case NonError(t) => t
  }

  /** The thinking-mode rewrite of the message list applies to this error. */
  predicate RequestsThinkingFallback(e: ChatError)
    ensures RequestsThinkingFallback(e) ==> |MessageText(e)| >= |ThinkingUnsupportedMarker|
    ensures StartsWith(MessageText(e), ThinkingUnsupportedMarker) || EndsWith(MessageText(e), ThinkingUnsupportedMarker)
      ==> RequestsThinkingFallback(e)
  {
    AffixIncluded(MessageText(e), ThinkingUnsupportedMarker);
    Includes(MessageText(e), ThinkingUnsupportedMarker)
  }

  datatype Notice = CreditCardAlert | Toast(description: string)

  /**
   * The notice for an error. Only an SDK error about the credit card opens
   * the alert; a missing Google key gets the fixed Settings remediation; a
   * thrown non-error gets a fixed text; every other toast shows the error's
   * own message.
   */
  function ErrorNotice(e: ChatError): (n: Notice)
    ensures n == CreditCardAlert <==> e.SdkError? && Includes(e.message, CreditCardMarker)
    ensures e.PlainError? && Includes(e.message, GoogleKeyMarker) ==> n == Toast(GoogleKeyRemediation)
    ensures e.NonError? ==> n == Toast(UnexpectedErrorText)
    ensures n.Toast? && !e.NonError? && !(e.PlainError? && Includes(e.message, GoogleKeyMarker))
      ==> n.description == MessageText(e)
  {
    match e
    case SdkError(m) => if Includes(m, CreditCardMarker) then CreditCardAlert else Toast(m)
    case PlainError(m) => if Includes(m, GoogleKeyMarker) then Toast(GoogleKeyRemediation) else Toast(m)
    case NonError(_) => Toast(UnexpectedErrorText)
  }

  /** A toast never shows anything but the error's own message or one of the two fixed texts. */
  lemma ToastTextsAreBounded(e: ChatError)
    requires ErrorNotice(e).Toast?
    ensures ErrorNotice(e).description in {MessageText(e), GoogleKeyRemediation, UnexpectedErrorText}
  {
  }
}
