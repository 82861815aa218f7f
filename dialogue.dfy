/**
 * The onboarding dialogue: its states, the routing of a message to the endpoint
 * registered for the current state, and the pure transition each endpoint computes
 * (the next state it stores and the reply it sends).
 */
module Dialogue {
  import opened Wrappers

  /** Telegram chat identifier (`msg.chat.id`), the only key into the dialogue storage. */
  type ChatId = int

  /** The dialogue state of one chat; `Start` is the `#[default]` variant. */
  datatype State = Start | AwaitingUserName | ReceivedUserName(userName: string)

  /** The state of a chat that has no stored record. */
  const DefaultState: State := Start

  /** An inbound message, reduced to what the handlers read: its chat and its text, if any. */
  datatype Message = Message(chat: ChatId, text: Option<string>)

  /** What a handler ends with when every effect succeeds: the state it stores and the text it sends. */
  datatype Reaction = Reaction(next: State, reply: string)

  /** Errors a handler propagates with `?`. */
  datatype HandlerError = SendFailed | UpdateFailed

  const Prompt: string := "Давай начнем! Скажи мне, как мне тебя называть?"
  const Reprompt: string := "Пришли мне обычный текст!"
  const GreetingPrefix: string := "Приятно познакомиться, "

  /** The greeting `format!("Приятно познакомиться, {}!", text)`. */
  function Greeting(name: string): (g: string)
    ensures |g| == |GreetingPrefix| + |name| + 1
    ensures g[..|GreetingPrefix|] == GreetingPrefix
    ensures g[|GreetingPrefix|..|g| - 1] == name
    ensures g[|g| - 1] == '!'
  {
    GreetingPrefix + name + "!"
  }

  /** The name can be read back from the greeting: different names give different greetings. */
  lemma GreetingInjective(a: string, b: string)
    ensures Greeting(a) == Greeting(b) ==> a == b
  {
  }

  /** The two endpoints of the handler tree. */
  datatype Endpoint = StartEndpoint | ReceiveUserNameEndpoint

  /** The `case!` guard of each endpoint. */
  predicate Guard(e: Endpoint, s: State)
  {
    match e
    case StartEndpoint => s.Start?
    case ReceiveUserNameEndpoint => s.AwaitingUserName?
  }

  /** The branches of the handler tree, tried in order. */
  const Branches: seq<Endpoint> := [StartEndpoint, ReceiveUserNameEndpoint]

  /** The first branch whose guard accepts the state, or None when the message falls through. */
  function Route(s: State): (e: Option<Endpoint>)
    ensures e.Some? ==> Guard(e.value, s)
    ensures e.None? ==> forall i :: 0 <= i < |Branches| ==> !Guard(Branches[i], s)
  {
    if Guard(Branches[0], s) then Some(Branches[0])
    else if Guard(Branches[1], s) then Some(Branches[1])
    else None
  }

  /** The guards are disjoint, so whichever branch is selected is the only one that could run. */
  lemma AtMostOneEndpoint(s: State, e: Endpoint, e': Endpoint)
    requires Guard(e, s) && Guard(e', s)
    ensures e == e' && Route(s) == Some(e)
  {
  }

  /** Only the final state `ReceivedUserName` has no endpoint. */
  lemma RouteDropsOnlyFinalState(s: State)
    ensures Route(s).None? <==> s.ReceivedUserName?
  {
  }

  /** Rank of a state in the onboarding order Start < AwaitingUserName < ReceivedUserName. */
  function Rank(s: State): nat
  {
    match s
    case Start => 0
    case AwaitingUserName => 1
    case ReceivedUserName(_) => 2
  }

  /**
   * Routing followed by the selected handler, with every effect succeeding:
   * None when no endpoint matches, otherwise the reaction of that endpoint.
   */
  function Step(s: State, text: Option<string>): (r: Option<Reaction>)
    ensures r.Some? <==> !s.ReceivedUserName?
    ensures r.Some? ==> r.value.next != Start
    ensures r.Some? ==> Rank(s) <= Rank(r.value.next) <= Rank(s) + 1
  {
    match Route(s)
    case None => None
    case Some(StartEndpoint) => Some(Reaction(AwaitingUserName, Prompt))
    case Some(ReceiveUserNameEndpoint) =>
      match text
      case Some(t) => Some(Reaction(ReceivedUserName(t), Greeting(t)))
      case None => Some(Reaction(AwaitingUserName, Reprompt))
  }

  /** From `Start` the message is not inspected: any text or none gives the prompt and `AwaitingUserName`. */
  lemma StartIgnoresMessage(text: Option<string>, text': Option<string>)
    ensures Step(Start, text) == Step(Start, text') == Some(Reaction(AwaitingUserName, Prompt))
  {
  }

  /** From `AwaitingUserName` a text is stored verbatim as the name and echoed in the greeting. */
  lemma NameCapturedVerbatim(t: string)
    ensures Step(AwaitingUserName, Some(t)) == Some(Reaction(ReceivedUserName(t), Greeting(t)))
  {
  }

  /** From `AwaitingUserName` a message without text keeps the state and gets the reprompt. */
  lemma RepromptWithoutText()
    ensures Step(AwaitingUserName, None) == Some(Reaction(AwaitingUserName, Reprompt))
  {
  }

  /** The empty text is a text like any other: it is stored, and it is not treated as a missing text. */
  lemma EmptyTextIsCaptured()
    ensures Step(AwaitingUserName, Some("")) == Some(Reaction(ReceivedUserName(""), Greeting("")))
    ensures Step(AwaitingUserName, Some("")) != Step(AwaitingUserName, None)
  {
  }

  /** In `ReceivedUserName` no endpoint matches: no reply and no new state. */
  lemma NoHandlerInFinalState(name: string, text: Option<string>)
    ensures Step(ReceivedUserName(name), text) == None
  {
  }

  /** `ReceivedUserName(n)` is produced exactly by a text `n` arriving in `AwaitingUserName`. */
  lemma ReceivedOnlyFromAwaiting(s: State, text: Option<string>, n: string)
    ensures (Step(s, text).Some? && Step(s, text).value.next == ReceivedUserName(n))
            <==> (s == AwaitingUserName && text == Some(n))
  {
  }
}
