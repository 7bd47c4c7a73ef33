/** src/api/createConversation.ts: the conversation payload built from the user's settings
    (context string, greeting, persona), and the error raised for a non-OK response.
    The settings store and the HTTP exchange are parameters. */
module CreateConversation {
  import opened Wrappers
  import Text

  /** The settings fields read here; None stands for an absent (undefined) field. */
  datatype Settings = Settings(name: Option<string>, context: Option<string>, persona: Option<string>)

  datatype Payload = Payload(personaId: string, customGreeting: string, conversationalContext: string)

  /** What is posted: the `x-api-key` header and the JSON payload. */
  datatype ConversationRequest = ConversationRequest(apiKey: string, payload: Payload)

  /** The exchange with the conversation endpoint: `fetch` rejected, or a response with its
      `ok` flag, its status and its body text (None when reading the body throws). */
  datatype FetchOutcome =
    | NetworkFailure
    | Response(ok: bool, status: nat, bodyText: Option<string>)

  /** Why `createConversation` rejects: the fetch's own error, or the HTTP error message. */
  datatype ConversationError = FetchFailed | HttpError(message: string)

  const DefaultPersona: string := "pcd2c84e5c66"
  const ContextLead: string := "You are talking with the user, "
  const ContextJoint: string := ". Additional context: "
  const GreetingBody: string := " I am Murphy, your kitchen assistant. What dish should I help you with?"
  const GenericGreeting: string := "Hello!" + GreetingBody
  const HttpErrorLead: string := "HTTP error! status: "

  /** JavaScript truthiness of an optional string: present and non-empty. */
  predicate Truthy(s: Option<string>) {
    s.Some? && s.value != ""
  }

  /** `s || d` on an optional string. */
  function OrElse(s: Option<string>, d: string): (r: string)
    ensures Truthy(s) ==> r == s.value
    ensures !Truthy(s) ==> r == d
  {
    if Truthy(s) then s.value else d
  }

  function PersonalGreeting(name: string): string {
    "Hello " + name + "," + GreetingBody
  }

  /** The context string: with a non-empty name, the sentence naming the user followed by the
      additional context (or nothing); otherwise only the additional context. */
  method BuildContextString(name: Option<string>, context: Option<string>) returns (contextString: string)
    ensures Truthy(name) ==> contextString == ContextLead + name.value + ContextJoint + OrElse(context, "")
    ensures !Truthy(name) ==> contextString == OrElse(context, "")
  {
    contextString := "";
    if Truthy(name) {
      contextString := ContextLead + name.value + ContextJoint;
    }
    contextString := contextString + OrElse(context, "");
  }

  /** The greeting names the user exactly when the name has something besides whitespace. */
  method BuildGreeting(name: Option<string>) returns (greeting: string)
    ensures Truthy(name) && Text.Trim(name.value) != "" ==> greeting == PersonalGreeting(name.value)
    ensures !(Truthy(name) && Text.Trim(name.value) != "") ==> greeting == GenericGreeting
  {
    if Truthy(name) && Text.Trim(name.value) != "" {
      greeting := PersonalGreeting(name.value);
    } else {
      greeting := GenericGreeting;
    }
  }

  /** The message of the error thrown for a non-OK response: the status, then ` - ` and the
      body only when the body could be read and is non-empty. */
  method HttpErrorMessage(status: nat, bodyText: Option<string>) returns (errorMessage: string)
    ensures errorMessage == HttpErrorLead + Text.DecimalString(status) +
      (if Truthy(bodyText) then " - " + bodyText.value else "")
  {
    errorMessage := HttpErrorLead + Text.DecimalString(status);
    if bodyText.Some? {
      var errorBody := bodyText.value;
      if errorBody != "" {
        assert errorMessage + " - " + errorBody == errorMessage + (" - " + errorBody);
        errorMessage := errorMessage + " - " + errorBody;
      }
    }
  }

  /** `createConversation(token)`: builds the request from the settings and maps the response.
      The request does not depend on the response; a non-OK response rejects with the HTTP
      error message; an OK response resolves (its JSON body is not modelled). */
  method CreateConversation(token: string, settings: Settings, outcome: FetchOutcome)
    returns (request: ConversationRequest, result: Result<(), ConversationError>)
    ensures request.apiKey == token
    ensures request.payload.personaId == OrElse(settings.persona, DefaultPersona)
    ensures request.payload.personaId != ""
    ensures Truthy(settings.name) ==>
      request.payload.conversationalContext == ContextLead + settings.name.value + ContextJoint + OrElse(settings.context, "")
    ensures !Truthy(settings.name) ==> request.payload.conversationalContext == OrElse(settings.context, "")
    ensures request.payload.customGreeting == GenericGreeting <==>
      !(Truthy(settings.name) && Text.Trim(settings.name.value) != "")
    ensures Truthy(settings.name) && Text.Trim(settings.name.value) != "" ==>
      request.payload.customGreeting == PersonalGreeting(settings.name.value)
    ensures result.Success? <==> outcome.Response? && outcome.ok
    ensures outcome.NetworkFailure? ==> result == Failure(FetchFailed)
    ensures outcome.Response? && !outcome.ok ==>
      result == Failure(HttpError(HttpErrorLead + Text.DecimalString(outcome.status) +
        (if Truthy(outcome.bodyText) then " - " + outcome.bodyText.value else "")))
  {
    var contextString := BuildContextString(settings.name, settings.context);
    var greeting := BuildGreeting(settings.name);
    var payload := Payload(OrElse(settings.persona, DefaultPersona), greeting, contextString);
    request := ConversationRequest(token, payload);
    match outcome {
      case NetworkFailure =>
        result := Failure(FetchFailed);
      case Response(ok, status, bodyText) =>
        if ok {
          result := Success(());
        } else {
          var errorMessage := HttpErrorMessage(status, bodyText);
          result := Failure(HttpError(errorMessage));
        }
    }
    if Truthy(settings.name) && Text.Trim(settings.name.value) != "" {
      PersonalGreetingIsNotGeneric(settings.name.value);
    }
  }

  /** No name makes the personal greeting coincide with the generic one. */
  lemma PersonalGreetingIsNotGeneric(name: string)
    ensures PersonalGreeting(name) != GenericGreeting
  {
  }

  /** A non-empty name made only of whitespace is truthy, so the context opens with the
      sentence naming the user, while the greeting stays generic. */
  method WhitespaceNameRequest(token: string, name: string, context: Option<string>, persona: Option<string>, outcome: FetchOutcome)
    returns (request: ConversationRequest)
    requires name != "" && Text.AllWhitespace(name)
    ensures request.payload.customGreeting == GenericGreeting
    ensures request.payload.conversationalContext == ContextLead + name + ContextJoint + OrElse(context, "")
  {
    var result;
    request, result := CreateConversation(token, Settings(Some(name), context, persona), outcome);
  }
}
