# Onboarding dialogue of the multitool Telegram bot, in Dafny

The bot runs a three-state onboarding dialogue per Telegram chat: `Start` (the default),
`AwaitingUserName` and `ReceivedUserName { user_name }`. Each inbound message is routed by the
`dptree` handler tree to the endpoint registered for the chat's stored state. `start` sends a
prompt and then stores `AwaitingUserName`. `receive_user_name` stores the message text as the
name and then sends a greeting; for a message without text it sends a reprompt instead. In
`ReceivedUserName` no branch matches and the message is dropped.

Files (one module each):

- `wrappers.dfy`: `Option` and `Outcome`.
- `dialogue.dfy`: the state type, the reply texts, the branch guards and `Route`, and `Step`.
  `Step` is the pure reaction (next state, reply) of routing plus handler when every effect succeeds.
- `runs.dfy`: one chat over a sequence of messages. It states where the dialogue can and cannot go.
- `storage.dfy`: the dialogue storage as a class over `map<ChatId, State>`; a missing record
  reads as `Start`.
- `transport.dfy`: the bot as a class holding the log of delivered replies.
- `dispatch.dfy`: the two endpoints and the dispatch of one message as methods over the storage
  and the bot. Whether each send and each storage update succeeds is a parameter. The methods
  are proved against the pure `Deliver`/`Outbound` specification, and per-chat independence is
  proved about that specification.

The code does not treat an empty text specially: `Some("")` takes the `Some(text)` arm
(src/main.rs:72-73) and `""` is stored as the name (`Dialogue.EmptyTextIsCaptured`).

## Model

| member | source | states |
|---|---|---|
| `Dialogue.Greeting` | src/main.rs:74 | the greeting is the fixed prefix, then the name, then `!` |
| `Dialogue.GreetingInjective` | src/main.rs:73-74 | different names give different greetings, so the name can be read back from the greeting |
| `Dialogue.Route` | src/main.rs:47-50 | the selected branch's `case!` guard accepts the state; None only when no branch's guard does |
| `Dialogue.AtMostOneEndpoint` | src/main.rs:49-50 | the two guards are disjoint, so any endpoint whose guard accepts a state is the one routing selects |
| `Dialogue.RouteDropsOnlyFinalState` | src/main.rs:47-50 | a message falls through the handler tree exactly when the state is `ReceivedUserName` |
| `Dialogue.Step` | src/main.rs:47-83 | an endpoint runs exactly when the state is not `ReceivedUserName`; it never produces `Start`; it moves the dialogue forward by at most one stage and never back |
| `Dialogue.StartIgnoresMessage` | src/main.rs:60-67 | from `Start`, every message gives `AwaitingUserName` and the prompt, whatever its text |
| `Dialogue.NameCapturedVerbatim` | src/main.rs:71-74 | from `AwaitingUserName`, text `t` gives `ReceivedUserName(t)` and the greeting for `t` |
| `Dialogue.RepromptWithoutText` | src/main.rs:77-79 | from `AwaitingUserName`, a message without text keeps the state and gets the reprompt |
| `Dialogue.EmptyTextIsCaptured` | src/main.rs:71-73 | the empty text is stored as the name, and it is not handled like a missing text |
| `Dialogue.NoHandlerInFinalState` | src/main.rs:47-50 | in `ReceivedUserName` there is no reply and no new state |
| `Dialogue.ReceivedOnlyFromAwaiting` | src/main.rs:70-73 | `ReceivedUserName(n)` results exactly from text `n` arriving in `AwaitingUserName` |
| `Runs.FinalStateIsFixed` | src/main.rs:47-50 | once the name is received, no sequence of messages changes the state |
| `Runs.RunFromAwaiting` | src/main.rs:70-80 | while waiting, the first message with a text sets the name; with no text the dialogue keeps waiting |
| `Runs.RunFromStart` | src/main.rs:60-80 | for a new chat, the first message only starts the dialogue; the name is the first text after it |
| `Runs.StartNeverReentered` | src/main.rs:60-80 | from any state but `Start`, no sequence of messages leads back to `Start` |
| `Runs.RunNeverMovesBack` | src/main.rs:60-80 | no sequence of messages moves the dialogue to an earlier stage |
| `Storage.LookupAfterWrite` | src/main.rs:73 | a written record is read back by its chat and leaves every other chat's state unchanged |
| `Storage.DialogueStorage.constructor` | src/main.rs:15-18 | an empty storage reads `Start` for every chat |
| `Storage.DialogueStorage.Get` | src/main.rs:48 | a chat's state is its record, or `Start` when it has none |
| `Storage.DialogueStorage.Update` | src/main.rs:66 | a successful update overwrites only that chat's record; a failed one changes nothing and reports the error |
| `Transport.Bot.SendMessage` | src/main.rs:61-65 | a delivered reply is appended to the log; a failed one leaves it unchanged and reports the error |
| `Dispatch.Deliver` | src/main.rs:47-50 | handling a message sets its chat's state to `Step`'s next state and leaves every other chat's state alone |
| `Dispatch.Outbound` | src/main.rs:60-80 | a handled message gets exactly one reply, to its own chat, whose text is `Step`'s reply (prompt, greeting or reprompt), except in `ReceivedUserName`, where it gets none |
| `Dispatch.DeliverCommutes` | src/main.rs:48 | messages to two different chats give the same storage in either order |
| `Dispatch.DeliverAllIsPerChatRun` | src/main.rs:47-57 | over any sequence of messages, a chat's state is its own run over the texts sent to it |
| `Dispatch.StartHandler` | src/main.rs:60-68 | the prompt is sent before the update; a failed send stores nothing; a failed update leaves the prompt sent |
| `Dispatch.ReceiveUserName` | src/main.rs:70-83 | with text, the name is stored before the greeting and a failed update sends nothing; without text, only the reprompt is sent |
| `Dispatch.Dispatch` | src/main.rs:47-83 | a message is dropped untouched exactly in `ReceivedUserName`; in `Start` and in `AwaitingUserName` (with and without text) the result, the storage and the replies are those of the routed handler for every combination of send and update failures, with the `?` order of that handler; if no effect fails, the storage and the replies are `Deliver`'s and `Outbound`'s |

## Left out

- Bootstrap (src/main.rs:27-43): `.env` loading, the `SQLITE_DB_PATH` lookup and its
  `storage.db` fallback, creating the database file and connecting the unused `SqlitePool`.
  This is environment and I/O plumbing; the handlers never use the pool.
- `SqliteStorage` with the `Json` serializer, and `ErasedStorage`. The storage is modelled as a
  map with default `Start`. Durability across restarts and serialization round-trips are not
  modelled.
- Reading the storage in `enter_dialogue` is library code that is not part of this model. Here
  `Get` cannot fail; a failing read is not modelled.
- Removing a record: the code never removes one.
- The network: `Bot`, `send_message` and its transport are reduced to a success flag per send
  and a log of delivered replies.
- `Transport.Bot.SendMessage`: a failed send is taken to deliver nothing; a send that reports an
  error after the platform already accepted the message (a network error on the response) is not
  modelled. No storage or effect-order property depends on this.
- The tokio runtime, the `Dispatcher`'s concurrent workers, the ctrl-c handler and logging
  (src/main.rs:25-28, 45, 52-57). Only sequential, one-message-at-a-time handling is modelled
  (`Dispatch.DeliverAll`).
- The chat identifier is an unbounded `int`; its 64-bit width plays no part in the logic.
- Any continuation after `ReceivedUserName` (only a TODO at src/main.rs:75).
