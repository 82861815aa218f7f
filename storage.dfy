/**
 * The dialogue storage: one record per chat, read with the default state when a
 * chat has none, overwritten by `dialogue.update`.
 */
module Storage {
  import opened Wrappers
  import opened Dialogue

  /** The state a chat is in under `records`: its record, or the default when it has none. */
  function Lookup(records: map<ChatId, State>, chat: ChatId): State
  {
    if chat in records then records[chat] else DefaultState
  }

  /** Writing a record is read back by the same chat and invisible to every other chat. */
  lemma LookupAfterWrite(records: map<ChatId, State>, chat: ChatId, s: State, other: ChatId)
    ensures Lookup(records[chat := s], chat) == s
    ensures other != chat ==> Lookup(records[chat := s], other) == Lookup(records, other)
  {
  }

  /** Per-chat dialogue records; the backing database and its serializer are not modelled. */
  class DialogueStorage {
    var records: map<ChatId, State>

    /** A storage that holds no record: every chat starts in the default state. */
    constructor ()
      ensures records == map[]
      ensures forall chat :: Lookup(records, chat) == Start
    {
      records := map[];
    }

    /** The state of `chat`: its stored record, or `Start` when it has none. Reading changes nothing. */
    method Get(chat: ChatId) returns (s: State)
      ensures chat in records ==> s == records[chat]
      ensures chat !in records ==> s == Start
    {
      s := Lookup(records, chat);
    }

    /**
     * Overwrite the record of `chat` with `s`; `written` is whether the write succeeded.
     * On failure nothing changes; on success only that chat's record does.
     */
    method Update(chat: ChatId, s: State, written: bool) returns (r: Outcome<HandlerError>)
      modifies this
      ensures r == if written then Pass else Fail(UpdateFailed)
      ensures records == if written then old(records)[chat := s] else old(records)
      ensures written ==> Lookup(records, chat) == s
    {
      if written {
        records := records[chat := s];
        r := Pass;
      } else {
        r := Fail(UpdateFailed);
      }
    }
  }
}
