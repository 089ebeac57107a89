/** The messages the service hands to its e-mail and SMS senders, recorded in order. */
module Notifications {
  import opened Wrappers

  datatype Channel = EmailChannel | SmsChannel

  datatype Message =
    | MfaCode(code: string)
    | ResetPasswordUrl(url: string)
    | ResetPasswordConfirmation
    | AccountVerificationUrl(url: string)
    | AccountVerified

  /** One call to a sender: the channel, the greeting name, the address (an e-mail or a phone
      number, null when the user has none) and what is sent. */
  datatype Notification = Notification(channel: Channel, firstName: string, to: Option<string>, message: Message)
}
