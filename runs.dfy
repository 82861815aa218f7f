/**
 * One chat's dialogue over a sequence of messages, each handled to completion
 * before the next: where the onboarding can go and where it can never go back to.
 */
module Runs {
  import opened Wrappers
  import opened Dialogue

  /** The state after one message: the endpoint's new state, or the old one when nothing matched. */
  function Next(s: State, text: Option<string>): State
  {
    match Step(s, text)
    case None => s
    case Some(r) => r.next
  }

  /** The state after handling the texts in order, starting from `s`. */
  function Run(s: State, texts: seq<Option<string>>): State
    decreases |texts|
  {
    if texts == [] then s else Run(Next(s, texts[0]), texts[1..])
  }

  /** The first message in `texts` that carries a text, independently of the dialogue. */
  function FirstText(texts: seq<Option<string>>): (t: Option<string>)
    ensures t.Some? ==> exists i :: 0 <= i < |texts| && texts[i] == t && forall j :: 0 <= j < i ==> texts[j].None?
    ensures t.None? ==> forall i :: 0 <= i < |texts| ==> texts[i].None?
  {
    if texts == [] then None
    else if texts[0].Some? then texts[0]
    else
      var t := FirstText(texts[1..]);
      if t.Some? then
        var i :| 0 <= i < |texts[1..]| && texts[1..][i] == t && forall j :: 0 <= j < i ==> texts[1..][j].None?;
        assert texts[i + 1] == t && forall j :: 0 <= j < i + 1 ==> texts[j].None?;
        t
      else t
  }

  /** Once the name is received, no further message changes the state. */
  lemma {:induction false} FinalStateIsFixed(n: string, texts: seq<Option<string>>)
    ensures Run(ReceivedUserName(n), texts) == ReceivedUserName(n)
    decreases |texts|
  {
    if texts != [] {
      FinalStateIsFixed(n, texts[1..]);
    }
  }

  /** Waiting for a name, the first text that arrives becomes the name; without one the dialogue keeps waiting. */
  lemma {:induction false} RunFromAwaiting(texts: seq<Option<string>>)
    ensures Run(AwaitingUserName, texts) ==
            match FirstText(texts)
            case None => AwaitingUserName
            case Some(n) => ReceivedUserName(n)
    decreases |texts|
  {
    if texts != [] {
      match texts[0]
      case Some(n) => FinalStateIsFixed(n, texts[1..]);
      case None => RunFromAwaiting(texts[1..]);
    }
  }

  /** A new chat: the first message only starts the dialogue, the first text after it is the name. */
  lemma {:induction false} RunFromStart(texts: seq<Option<string>>)
    ensures texts == [] ==> Run(Start, texts) == Start
    ensures texts != [] ==>
              Run(Start, texts) ==
              match FirstText(texts[1..])
              case None => AwaitingUserName
              case Some(n) => ReceivedUserName(n)
  {
    if texts != [] {
      RunFromAwaiting(texts[1..]);
    }
  }

  /** No endpoint writes `Start`: a dialogue that has left it never comes back. */
  lemma {:induction false} StartNeverReentered(s: State, texts: seq<Option<string>>)
    requires s != Start
    ensures Run(s, texts) != Start
    decreases |texts|
  {
    if texts != [] {
      StartNeverReentered(Next(s, texts[0]), texts[1..]);
    }
  }

  /** The dialogue only moves forward: no run lowers the rank of the state. */
  lemma {:induction false} RunNeverMovesBack(s: State, texts: seq<Option<string>>)
    ensures Rank(s) <= Rank(Run(s, texts))
    decreases |texts|
  {
    if texts != [] {
      RunNeverMovesBack(Next(s, texts[0]), texts[1..]);
    }
  }
}
