/**
 * The parts of an inbound chat update the handlers read, and the
 * per-user `context.user_data` dictionary they write.
 */
module Updates {
  import opened Wrappers
  import opened TelegramSchema

  /** The sender of a message. */
  datatype Sender = Sender(
    id: UserId,
    isBot: bool,
    username: Option<string>,
    firstName: Option<string>,
    lastName: Option<string>)

  datatype Message = Message(fromUser: Option<Sender>, chatId: ChatId, text: Option<string>)

  datatype Update = Update(message: Option<Message>)

  /** `context.user_data`, which handlers change in place. */
  class CallbackContext {
    var userData: map<string, string>

    constructor (userData: map<string, string>)
      ensures this.userData == userData
    {
      this.userData := userData;
    }
  }

  /** The sender of the update's message, when there is a message and it has one. */
  function SenderOf(u: Update): (r: Option<Sender>)
    ensures r.Some? <==> u.message.Some? && u.message.value.fromUser.Some?
    ensures r.Some? ==> r.value == u.message.value.fromUser.value
  {
    if u.message.Some? then u.message.value.fromUser else None
  }

  /**
   * The text a conversation handler works on: present only when the update
   * has a message, the message a sender and a non-empty text.
   */
  function IncomingText(u: Update): (r: Option<string>)
    ensures r.Some? <==>
      u.message.Some? && u.message.value.fromUser.Some? &&
      u.message.value.text.Some? && u.message.value.text.value != ""
    ensures r.Some? ==> r == u.message.value.text && r.value != ""
  {
    if u.message.None? || u.message.value.fromUser.None? then None
    else if u.message.value.text.None? || u.message.value.text.value == "" then None
    else u.message.value.text
  }

}
