/** src/components/ChatInterface.tsx: sending a chat message, as a state machine over the
    input text, the shared loading flag and the shared chat log. The send is split at its one
    `await`: `BeginSend` runs up to the completion call, `FinishSend` runs once the endpoint's
    answer (a parameter) is in. Clock readings are parameters. */
module ChatInterface {
  import opened Wrappers
  import opened ChatGpt
  import Chat
  import Text

  const ErrorReply: string := "Sorry, I encountered an error. Please try again."

  /** A send that has been accepted and is waiting for the endpoint: the request posted to it. */
  datatype PendingSend = PendingSend(request: CompletionRequest)

  /** The guard of `handleSendMessage`: something other than whitespace typed, nothing loading. */
  function Accepts(inputValue: string, isLoading: bool): (b: bool)
    ensures b <==> !Text.AllWhitespace(inputValue) && !isLoading
  {
    Text.Trim(inputValue) != "" && !isLoading
  }

  /** What the assistant turn says: the reply on success, the fixed apology on failure. */
  function AssistantText(r: Result<string, string>): (t: string)
    ensures r.Success? ==> t == r.value
    ensures r.Failure? ==> t == ErrorReply
  {
    match r
    case Success(reply) => reply
    case Failure(_) => ErrorReply
  }

  /** `handleKeyPress`: Enter without Shift sends; any other key or Shift+Enter does not. */
  function TriggersSend(key: string, shiftKey: bool): (b: bool)
    ensures b ==> key == "Enter"
    ensures shiftKey ==> !b
    ensures key == "Enter" && !shiftKey ==> b
  {
    key == "Enter" && !shiftKey
  }

  class ChatPanel {
    const store: Chat.ChatStore
    var inputValue: string

    constructor (store: Chat.ChatStore)
      ensures this.store == store && inputValue == ""
    {
      this.store := store;
      inputValue := "";
    }

    /** `handleSendMessage` up to the completion call. A rejected send changes nothing. An
        accepted one clears the input, appends the user turn holding the trimmed text, then
        raises the loading flag, and posts the request built from the log as it was before the
        user turn and the trimmed text. */
    method BeginSend(nowMs: nat, dateMs: nat) returns (pending: Option<PendingSend>)
      modifies this, store
      ensures pending.Some? <==> Accepts(old(inputValue), old(store.isLoading))
      ensures pending.None? ==>
        inputValue == old(inputValue) && store.messages == old(store.messages) &&
        store.isLoading == old(store.isLoading)
      ensures pending.Some? ==>
        pending.value == PendingSend(BuildRequest(old(store.messages), Text.Trim(old(inputValue)))) &&
        inputValue == "" && store.isLoading &&
        store.messages == old(store.messages) +
          [Chat.NewMessage(User, Text.Trim(old(inputValue)), nowMs, dateMs)]
    {
      if Text.Trim(inputValue) == "" || store.isLoading {
        return None;
      }
      var history := store.messages;
      var userMessage := Text.Trim(inputValue);
      inputValue := "";
      store.AddMessage(User, userMessage, nowMs, dateMs);
      store.SetLoading(true);
      pending := Some(PendingSend(BuildRequest(history, userMessage)));
    }

    /** `handleSendMessage` after the completion call: exactly one assistant turn (the reply,
        or the apology when the call failed), then the loading flag drops on both paths. */
    method FinishSend(pending: PendingSend, reply: CompletionReply, nowMs: nat, dateMs: nat)
      modifies store
      ensures !store.isLoading
      ensures store.messages == old(store.messages) +
        [Chat.NewMessage(Assistant, AssistantText(SendChatMessage(reply)), nowMs, dateMs)]
    {
      var response := SendChatMessage(reply);
      match response {
        case Success(text) =>
          store.AddMessage(Assistant, text, nowMs, dateMs);
        case Failure(_) =>
          store.AddMessage(Assistant, ErrorReply, nowMs, dateMs);
      }
      store.SetLoading(false);
    }

    /** The whole send, with no other event between its two halves: the log grows by exactly
        two, the user turn before the assistant turn, and the loading flag ends low. */
    method HandleSendMessage(reply: CompletionReply, t1: nat, d1: nat, t2: nat, d2: nat)
      modifies this, store
      ensures !Accepts(old(inputValue), old(store.isLoading)) ==>
        inputValue == old(inputValue) && store.messages == old(store.messages) &&
        store.isLoading == old(store.isLoading)
      ensures Accepts(old(inputValue), old(store.isLoading)) ==>
        var text := Text.Trim(old(inputValue));
        inputValue == "" && !store.isLoading &&
        store.messages == old(store.messages) + [Chat.NewMessage(User, text, t1, d1)] +
          [Chat.NewMessage(Assistant, AssistantText(SendChatMessage(reply)), t2, d2)]
    {
      var pending := BeginSend(t1, d1);
      if pending.Some? {
        FinishSend(pending.value, reply, t2, d2);
      }
    }

    /** `handleKeyPress`: the default action is prevented and a send started exactly for
        Enter without Shift; any other key leaves everything as it was. */
    method HandleKeyPress(key: string, shiftKey: bool, reply: CompletionReply, t1: nat, d1: nat, t2: nat, d2: nat)
      returns (defaultPrevented: bool)
      modifies this, store
      ensures defaultPrevented <==> TriggersSend(key, shiftKey)
      ensures !defaultPrevented ==>
        inputValue == old(inputValue) && store.messages == old(store.messages) &&
        store.isLoading == old(store.isLoading)
      ensures defaultPrevented && !Accepts(old(inputValue), old(store.isLoading)) ==>
        inputValue == old(inputValue) && store.messages == old(store.messages) &&
        store.isLoading == old(store.isLoading)
      ensures defaultPrevented && Accepts(old(inputValue), old(store.isLoading)) ==>
        var text := Text.Trim(old(inputValue));
        inputValue == "" && !store.isLoading &&
        store.messages == old(store.messages) + [Chat.NewMessage(User, text, t1, d1)] +
          [Chat.NewMessage(Assistant, AssistantText(SendChatMessage(reply)), t2, d2)]
    {
      defaultPrevented := false;
      if key == "Enter" && !shiftKey {
        defaultPrevented := true;
        HandleSendMessage(reply, t1, d1, t2, d2);
      }
    }
  }

  /** While a send is outstanding the flag is up, so a second send (from the button or from
      Enter), whatever has been typed meanwhile, is turned away and leaves the log alone. */
  method SendWhileLoading(panel: ChatPanel, typed: string, t1: nat, d1: nat, t2: nat, d2: nat)
    returns (first: Option<PendingSend>, second: Option<PendingSend>)
    modifies panel, panel.store
    ensures first.Some? ==>
      second.None? && panel.store.isLoading && panel.inputValue == typed &&
      panel.store.messages == old(panel.store.messages) +
        [Chat.NewMessage(User, Text.Trim(old(panel.inputValue)), t1, d1)]
  {
    first := panel.BeginSend(t1, d1);
    panel.inputValue := typed;
    second := panel.BeginSend(t2, d2);
  }
}
