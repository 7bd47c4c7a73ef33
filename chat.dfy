/** src/store/chat.ts: the chat log and the loading flag, with the append and clear actions.
    The two clock readings of an append (`Date.now()` for the id, `new Date()` for the
    timestamp) are parameters, in milliseconds. */
module Chat {
  import opened ChatGpt
  import Text

  /** The record an append builds: the caller's role and content, the id rendered from the
      clock reading, the timestamp from the second reading. */
  function NewMessage(role: Role, content: string, nowMs: nat, dateMs: nat): (m: ChatMessage)
    ensures m.role == role && m.content == content && m.timestamp == dateMs
    ensures m.id == Text.DecimalString(nowMs)
  {
    ChatMessage(Text.DecimalString(nowMs), role, content, dateMs)
  }

  class ChatStore {
    var messages: seq<ChatMessage>
    var isLoading: bool

    /** The log starts empty and nothing is loading. */
    constructor ()
      ensures messages == [] && !isLoading
    {
      messages := [];
      isLoading := false;
    }

    /** `addChatMessageAtom`: one message at the end, earlier messages untouched. */
    method AddMessage(role: Role, content: string, nowMs: nat, dateMs: nat)
      modifies this
      ensures messages == old(messages) + [NewMessage(role, content, nowMs, dateMs)]
      ensures isLoading == old(isLoading)
    {
      var newMessage := ChatMessage(Text.DecimalString(nowMs), role, content, dateMs);
      messages := messages + [newMessage];
    }

    /** `clearChatMessagesAtom`: the log is empty whatever it held. */
    method ClearMessages()
      modifies this
      ensures messages == [] && isLoading == old(isLoading)
    {
      messages := [];
    }

    /** The setter of `isChatLoadingAtom`. */
    method SetLoading(value: bool)
      modifies this
      ensures isLoading == value && messages == old(messages)
    {
      isLoading := value;
    }
  }

  /** Appends with the same clock reading get the same id: ids are not unique. */
  lemma SameClockSameId(r1: Role, c1: string, r2: Role, c2: string, nowMs: nat, d1: nat, d2: nat)
    ensures NewMessage(r1, c1, nowMs, d1).id == NewMessage(r2, c2, nowMs, d2).id
  {
  }

  /** Appends with different clock readings get different ids. */
  lemma DistinctClocksDistinctIds(r1: Role, c1: string, t1: nat, d1: nat, r2: Role, c2: string, t2: nat, d2: nat)
    requires t1 != t2
    ensures NewMessage(r1, c1, t1, d1).id != NewMessage(r2, c2, t2, d2).id
  {
  }

  /** Appends A, B, C issued in that order on any store: the old log is kept as a prefix
      and the log ends in A, B, C, in call order. */
  method AppendInCallOrder(store: ChatStore, ra: Role, a: string, ta: nat, da: nat,
                           rb: Role, b: string, tb: nat, db: nat, rc: Role, c: string, tc: nat, dc: nat)
    modifies store
    ensures |store.messages| == |old(store.messages)| + 3
    ensures store.messages[..|old(store.messages)|] == old(store.messages)
    ensures store.messages[|old(store.messages)|..] ==
      [NewMessage(ra, a, ta, da), NewMessage(rb, b, tb, db), NewMessage(rc, c, tc, dc)]
  {
    store.AddMessage(ra, a, ta, da);
    store.AddMessage(rb, b, tb, db);
    store.AddMessage(rc, c, tc, dc);
  }
}
