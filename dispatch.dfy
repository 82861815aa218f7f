/**
 * The handler tree at work: each inbound message is routed on its chat's stored
 * state and handled by `start` or `receive_user_name`, whose sends and storage
 * updates can each fail and end the handler early (the `?` operator).
 */
module Dispatch {
  import opened Wrappers
  import opened Dialogue
  import opened Runs
  import opened Storage
  import opened Transport

  /** The records after `msg` is handled with every effect succeeding. */
  function Deliver(records: map<ChatId, State>, msg: Message): (r: map<ChatId, State>)
    ensures Lookup(r, msg.chat) == Next(Lookup(records, msg.chat), msg.text)
    ensures forall c :: c != msg.chat ==> Lookup(r, c) == Lookup(records, c)
  {
    match Step(Lookup(records, msg.chat), msg.text)
    case None => records
    case Some(x) => records[msg.chat := x.next]
  }

  /** The replies sent for `msg` when every effect succeeds: one, or none when nothing matched. */
  function Outbound(records: map<ChatId, State>, msg: Message): (out: seq<Reply>)
    ensures |out| <= 1
    ensures |out| == 0 <==> Lookup(records, msg.chat).ReceivedUserName?
    ensures forall i :: 0 <= i < |out| ==> out[i].chat == msg.chat
    ensures |out| == 1 ==> out[0].text == Step(Lookup(records, msg.chat), msg.text).value.reply
  {
    match Step(Lookup(records, msg.chat), msg.text)
    case None => []
    case Some(x) => [Reply(msg.chat, x.reply)]
  }

  /** The records after the messages are handled one after the other. */
  function DeliverAll(records: map<ChatId, State>, msgs: seq<Message>): map<ChatId, State>
    decreases |msgs|
  {
    if msgs == [] then records else DeliverAll(Deliver(records, msgs[0]), msgs[1..])
  }

  /** The texts of the messages addressed to `chat`, in arrival order. */
  function TextsFor(msgs: seq<Message>, chat: ChatId): (texts: seq<Option<string>>)
    ensures |texts| <= |msgs|
    ensures forall m :: m in msgs && m.chat == chat ==> m.text in texts
    ensures forall t :: t in texts ==> Message(chat, t) in msgs
  {
    if msgs == [] then []
    else if msgs[0].chat == chat then [msgs[0].text] + TextsFor(msgs[1..], chat)
    else TextsFor(msgs[1..], chat)
  }

  /** Filtering a concatenation of message streams filters each part. */
  lemma {:induction false} TextsForAppend(a: seq<Message>, b: seq<Message>, chat: ChatId)
    ensures TextsFor(a + b, chat) == TextsFor(a, chat) + TextsFor(b, chat)
    decreases |a|
  {
    if a != [] {
      assert (a + b)[1..] == a[1..] + b;
      TextsForAppend(a[1..], b, chat);
    } else {
      assert a + b == b;
    }
  }

  /** Messages for two different chats can be handled in either order with the same result. */
  lemma DeliverCommutes(records: map<ChatId, State>, a: Message, b: Message)
    requires a.chat != b.chat
    ensures Deliver(Deliver(records, a), b) == Deliver(Deliver(records, b), a)
  {
  }

  /**
   * Handling messages one at a time, a chat's state depends only on its own
   * messages: it is that chat's run over the texts addressed to it.
   */
  lemma {:induction false} DeliverAllIsPerChatRun(records: map<ChatId, State>, msgs: seq<Message>, chat: ChatId)
    ensures Lookup(DeliverAll(records, msgs), chat) == Run(Lookup(records, chat), TextsFor(msgs, chat))
    decreases |msgs|
  {
    if msgs != [] {
      DeliverAllIsPerChatRun(Deliver(records, msgs[0]), msgs[1..], chat);
    }
  }

  /** The `start` endpoint: send the prompt, then store `AwaitingUserName`; a failed send stores nothing. */
  method StartHandler(bot: Bot, storage: DialogueStorage, msg: Message, sendOk: bool, updateOk: bool)
    returns (r: Outcome<HandlerError>)
    modifies bot, storage
    ensures r == if !sendOk then Fail(SendFailed) else if !updateOk then Fail(UpdateFailed) else Pass
    ensures bot.sent == if sendOk then old(bot.sent) + [Reply(msg.chat, Prompt)] else old(bot.sent)
    ensures storage.records ==
            if sendOk && updateOk then old(storage.records)[msg.chat := AwaitingUserName]
            else old(storage.records)
  {
    r := bot.SendMessage(msg.chat, Prompt, sendOk);
    if r.Fail? {
      return;
    }
    r := storage.Update(msg.chat, AwaitingUserName, updateOk);
  }

  /**
   * The `receive_user_name` endpoint. With a text: store it as the name, then send
   * the greeting, so a failed update sends nothing. Without: send the reprompt and
   * store nothing.
   */
  method ReceiveUserName(bot: Bot, storage: DialogueStorage, msg: Message, sendOk: bool, updateOk: bool)
    returns (r: Outcome<HandlerError>)
    modifies bot, storage
    ensures msg.text.Some? ==>
              && r == (if !updateOk then Fail(UpdateFailed) else if !sendOk then Fail(SendFailed) else Pass)
              && storage.records ==
                 (if updateOk then old(storage.records)[msg.chat := ReceivedUserName(msg.text.value)]
                  else old(storage.records))
              && bot.sent ==
                 (if updateOk && sendOk then old(bot.sent) + [Reply(msg.chat, Greeting(msg.text.value))]
                  else old(bot.sent))
    ensures msg.text.None? ==>
              && r == (if sendOk then Pass else Fail(SendFailed))
              && storage.records == old(storage.records)
              && bot.sent == (if sendOk then old(bot.sent) + [Reply(msg.chat, Reprompt)] else old(bot.sent))
  {
    match msg.text
    case Some(text) =>
      r := storage.Update(msg.chat, ReceivedUserName(text), updateOk);
      if r.Fail? {
        return;
      }
      r := bot.SendMessage(msg.chat, Greeting(text), sendOk);
    case None =>
      r := bot.SendMessage(msg.chat, Reprompt, sendOk);
  }

  /**
   * One message through the handler tree: read the chat's state, route it, run the
   * endpoint. None when no endpoint matched (the message is dropped untouched).
   * A completed handler leaves exactly `Deliver`'s records and `Outbound`'s replies;
   * a failed one leaves the records either as they were or fully updated.
   */
  method Dispatch(bot: Bot, storage: DialogueStorage, msg: Message, sendOk: bool, updateOk: bool)
    returns (r: Option<Outcome<HandlerError>>)
    modifies bot, storage
    ensures r.None? <==> Lookup(old(storage.records), msg.chat).ReceivedUserName?
    ensures Lookup(old(storage.records), msg.chat).Start? ==>
              && r == Some(if !sendOk then Fail(SendFailed) else if !updateOk then Fail(UpdateFailed) else Pass)
              && bot.sent == (if sendOk then old(bot.sent) + [Reply(msg.chat, Prompt)] else old(bot.sent))
              && storage.records ==
                 (if sendOk && updateOk then old(storage.records)[msg.chat := AwaitingUserName]
                  else old(storage.records))
    ensures Lookup(old(storage.records), msg.chat).AwaitingUserName? && msg.text.Some? ==>
              && r == Some(if !updateOk then Fail(UpdateFailed) else if !sendOk then Fail(SendFailed) else Pass)
              && storage.records ==
                 (if updateOk then old(storage.records)[msg.chat := ReceivedUserName(msg.text.value)]
                  else old(storage.records))
              && bot.sent ==
                 (if updateOk && sendOk then old(bot.sent) + [Reply(msg.chat, Greeting(msg.text.value))]
                  else old(bot.sent))
    ensures Lookup(old(storage.records), msg.chat).AwaitingUserName? && msg.text.None? ==>
              && r == Some(if sendOk then Pass else Fail(SendFailed))
              && storage.records == old(storage.records)
              && bot.sent == (if sendOk then old(bot.sent) + [Reply(msg.chat, Reprompt)] else old(bot.sent))
    ensures r.None? ==> storage.records == old(storage.records) && bot.sent == old(bot.sent)
    ensures sendOk && updateOk ==> r.None? || r.value.Pass?
    ensures r.None? || r.value.Pass? ==>
              && storage.records == Deliver(old(storage.records), msg)
              && bot.sent == old(bot.sent) + Outbound(old(storage.records), msg)
    ensures storage.records == old(storage.records) || storage.records == Deliver(old(storage.records), msg)
    ensures bot.sent == old(bot.sent) || bot.sent == old(bot.sent) + Outbound(old(storage.records), msg)
  {
    var state := storage.Get(msg.chat);
    match Route(state)
    case None =>
      r := None;
    case Some(StartEndpoint) =>
      var h := StartHandler(bot, storage, msg, sendOk, updateOk);
      r := Some(h);
    case Some(ReceiveUserNameEndpoint) =>
      var h := ReceiveUserName(bot, storage, msg, sendOk, updateOk);
      r := Some(h);
  }
}
