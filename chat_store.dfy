/** The global chat message list: append a message, append text to one
    message's content, clear. */
module ChatStore {
  import opened Wrappers
  import opened Types

  /** The message a new entry gets: the kind and report id a caller may
      pass are dropped, so neither is ever set. */
  function NewMessage(role: Role, content: string, freshId: string, now: int): (m: ChatMessage)
    ensures m.id == freshId && m.role == role && m.content == content && m.timestamp == now
    ensures m.kind.None? && m.reportId.None?
  {
    ChatMessage(freshId, role, content, now, None, None)
  }

  class MessageStore {
    var messages: seq<ChatMessage>

    constructor ()
      ensures messages == []
    {
      messages := [];
    }

    /** `addMessage`: one more message at the end; `freshId` and `now`
        stand for `nanoid()` and the clock. */
    method AddMessage(role: Role, content: string, kind: Option<MessageKind>, reportId: Option<string>, freshId: string, now: int)
      modifies this
      ensures messages == old(messages) + [NewMessage(role, content, freshId, now)]
      ensures |messages| == |old(messages)| + 1 && messages[..|old(messages)|] == old(messages)
    {
      messages := messages + [NewMessage(role, content, freshId, now)];
    }

    /** `updateMessage`: appends `text` to the content of the messages
        with id `id`; count, order, ids and everything but the content are
        kept. */
    method UpdateMessage(id: string, text: string)
      modifies this
      ensures messages == AppendContent(old(messages), id, text)
      ensures |messages| == |old(messages)|
      ensures (forall i :: 0 <= i < |messages| ==> old(messages)[i].id != id) ==> messages == old(messages)
    {
      if forall i :: 0 <= i < |messages| ==> messages[i].id != id {
        AppendContentUnknownId(messages, id, text);
      }
      messages := AppendContent(messages, id, text);
    }

    /** `clearMessages`. */
    method ClearMessages()
      modifies this
      ensures messages == []
    {
      messages := [];
    }

    /** `partialize`: only the message list is saved. */
    function Partialize(): (p: Persisted)
      reads this
      ensures p.messages == Some(messages)
    {
      Persisted(Some(messages))
    }

    /** Rehydration: a saved list replaces the current one. */
    method Rehydrate(p: Persisted)
      modifies this
      ensures p.messages.Some? ==> messages == p.messages.value
      ensures p.messages.None? ==> messages == old(messages)
    {
      if p.messages.Some? {
        messages := p.messages.value;
      }
    }
  }

  /** The persisted object; a missing field is None. */
  datatype Persisted = Persisted(messages: Option<seq<ChatMessage>>)

  /** Saving and restoring carries the message list over unchanged. */
  method SaveAndRestore(store: MessageStore, target: MessageStore)
    modifies target
    ensures target.messages == store.messages
  {
    var saved := store.Partialize();
    target.Rehydrate(saved);
  }
}
