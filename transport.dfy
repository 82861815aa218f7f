/** The bot's outbound side: the replies the chat platform has accepted, in order. */
module Transport {
  import opened Wrappers
  import opened Dialogue

  /** A text sent to a chat. */
  datatype Reply = Reply(chat: ChatId, text: string)

  class Bot {
    /** Every reply delivered so far, oldest first. */
    var sent: seq<Reply>

    constructor ()
      ensures sent == []
    {
      sent := [];
    }

    /**
     * `bot.send_message(chat, text)`; `delivered` is whether the platform accepted it.
     * A delivered reply is appended to `sent`; a failed one leaves `sent` as it was.
     */
    method SendMessage(chat: ChatId, text: string, delivered: bool) returns (r: Outcome<HandlerError>)
      modifies this
      ensures r == if delivered then Pass else Fail(SendFailed)
      ensures sent == if delivered then old(sent) + [Reply(chat, text)] else old(sent)
    {
      if delivered {
        sent := sent + [Reply(chat, text)];
        r := Pass;
      } else {
        r := Fail(SendFailed);
      }
    }
  }
}
