/** src/api/chatGPT.ts: the chat message record, the prompt list sent to the completion
    endpoint, and how its reply (or failure) becomes the text shown to the user. */
module ChatGpt {
  import opened Wrappers

  datatype Role = User | Assistant

  /** A message of the chat log. `timestamp` is the clock reading in milliseconds. */
  datatype ChatMessage = ChatMessage(id: string, role: Role, content: string, timestamp: nat)

  /** A `{ role, content }` entry of the request's `messages` array. */
  datatype PromptMessage = PromptMessage(role: string, content: string)

  datatype CompletionRequest = CompletionRequest(model: string, messages: seq<PromptMessage>, maxTokens: nat)

  /** What the completion endpoint gave back, as far as the reply selection looks at it:
      `fetch` rejected, or a response with its `ok` flag, its status and its JSON body. */
  datatype CompletionReply =
    | NetworkError
    | Response(ok: bool, status: nat, body: CompletionBody)

  /** The parsed body: not JSON, JSON without a `choices` array, or the choices with each
      choice's `message.content` (None when the message or its content is missing or null). */
  datatype CompletionBody =
    | Unparsable
    | NoChoices
    | Choices(contents: seq<Option<string>>)

  const SystemPrompt: string := "You are Murphy, an AI cooking assistant in Murphy's Kitchen. You help users with cooking questions, recipes, techniques, and culinary advice. Be friendly, knowledgeable, and encouraging. Keep responses concise but helpful."
  const Model: string := "gpt-4o"
  const MaxTokens: nat := 500
  const FallbackReply: string := "Sorry, I could not process your message."
  const SendError: string := "Failed to send message to PICA GPT-4o"

  function RoleName(r: Role): string {
    match r
    case User => "user"
    case Assistant => "assistant"
  }

  /** `messages.map(msg => ({ role: msg.role, content: msg.content }))`. */
  function Project(history: seq<ChatMessage>): (r: seq<PromptMessage>)
    ensures |r| == |history|
    ensures forall i :: 0 <= i < |history| ==>
      r[i] == PromptMessage(RoleName(history[i].role), history[i].content)
  {
    if history == [] then []
    else [PromptMessage(RoleName(history[0].role), history[0].content)] + Project(history[1..])
  }

  /** `formattedMessages`: the system prompt, then the history in order, then the new user text. */
  function FormatMessages(history: seq<ChatMessage>, userMessage: string): (r: seq<PromptMessage>)
    ensures |r| == |history| + 2
    ensures r[0] == PromptMessage("system", SystemPrompt)
    ensures r[1..|r| - 1] == Project(history)
    ensures r[|r| - 1] == PromptMessage("user", userMessage)
  {
    [PromptMessage("system", SystemPrompt)] + Project(history) + [PromptMessage("user", userMessage)]
  }

  /** The request body, apart from the temperature: the fixed model and token limit, and the
      system prompt, the history entry by entry, then the user text. */
  function BuildRequest(history: seq<ChatMessage>, userMessage: string): (req: CompletionRequest)
    ensures req.model == "gpt-4o" && req.maxTokens == 500
    ensures |req.messages| == |history| + 2
    ensures req.messages[0] == PromptMessage("system", SystemPrompt)
    ensures req.messages[|history| + 1] == PromptMessage("user", userMessage)
    ensures forall i :: 0 <= i < |history| ==>
      req.messages[i + 1] == PromptMessage(RoleName(history[i].role), history[i].content)
  {
    CompletionRequest(Model, FormatMessages(history, userMessage), MaxTokens)
  }

  /** `data.choices[0]?.message?.content || FallbackReply`. */
  function ReplyText(contents: seq<Option<string>>): (r: string)
    ensures r != ""
    ensures r != FallbackReply ==> |contents| > 0 && contents[0] == Some(r)
    ensures |contents| > 0 && contents[0].Some? && contents[0].value != "" ==> r == contents[0].value
  {
    if |contents| > 0 && contents[0].Some? && contents[0].value != "" then contents[0].value
    else FallbackReply
  }

  /** `sendChatMessage(messages, userMessage)` once the endpoint has answered the request
      `BuildRequest(messages, userMessage)` with `reply`: the reply text, or the single generic
      error for a rejected fetch, a non-OK status, a body that is not JSON or one without
      `choices` (whose indexing throws). */
  function SendChatMessage(reply: CompletionReply): (r: Result<string, string>)
    ensures r.Success? <==> reply.Response? && reply.ok && reply.body.Choices?
    ensures r.Failure? ==> r.error == SendError
    ensures r.Success? ==> r.value != "" && r.value == ReplyText(reply.body.contents)
    ensures r.Success? && r.value != FallbackReply ==>
      |reply.body.contents| > 0 && reply.body.contents[0] == Some(r.value)
  {
    match reply
    case NetworkError => Failure(SendError)
    case Response(ok, _, body) =>
      if !ok then Failure(SendError)
      else match body
        case Choices(contents) => Success(ReplyText(contents))
        case _ => Failure(SendError)
  }

  /** Only role and content are forwarded: histories that differ only in ids and timestamps
      give the same prompt list. */
  lemma ProjectIgnoresIdAndTimestamp(h1: seq<ChatMessage>, h2: seq<ChatMessage>)
    requires |h1| == |h2|
    requires forall i :: 0 <= i < |h1| ==> h1[i].role == h2[i].role && h1[i].content == h2[i].content
    ensures Project(h1) == Project(h2)
  {
  }
}
