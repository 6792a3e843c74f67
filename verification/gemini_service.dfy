/**
 * The congratulatory-message collaborator, reduced to its fallbacks. What
 * the text-generation service replies is an input, not something the model
 * computes.
 */
module GeminiService {

  /**
   * The service's answer: some (already trimmed) generated text, possibly
   * empty or absent, or a failure of any kind (network, key, quota).
   */
  datatype Reply = Generated(text: string) | Failed

  /** The templated congratulation used when the service fails. */
  function FailureMessage(profileName: string): string
  {
    profileName + "さんとマッチしました！"
  }

  const GenericMessage: string := "新しいマッチングがあります！"

  /**
   * The message the match dialog receives for `profileName`. It is never
   * empty: non-empty generated text is used as is, empty text falls back
   * to the generic message, and a failure to the templated one, which
   * starts with the profile's name.
   */
  function MatchMessage(profileName: string, reply: Reply): (message: string)
    ensures |message| > 0
    ensures reply.Generated? && reply.text != [] ==> message == reply.text
    ensures reply.Generated? && reply.text == [] ==> message == GenericMessage
    ensures reply.Failed? ==> message == FailureMessage(profileName)
    ensures reply.Failed? ==> message[..|profileName|] == profileName
  {
    match reply
    case Generated(text) => if text != [] then text else GenericMessage
    case Failed => FailureMessage(profileName)
  }
}
