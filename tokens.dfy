/** src/store/tokens.ts: the API token. The build-time environment value is a parameter and
    `localStorage` is a shared `Storage` object. */
module Tokens {
  import opened Wrappers
  import Browser

  const TokenKey: string := "tavus-token"
  const PlaceholderKey: string := "your_tavus_api_key_here"

  /** `getInitialToken`: a usable environment token (non-empty and not the placeholder) wins;
      otherwise the stored token if it is non-empty; otherwise none. */
  function InitialToken(envToken: Option<string>, saved: Option<string>): (t: Option<string>)
    ensures envToken.Some? && envToken.value != "" && envToken.value != PlaceholderKey ==> t == envToken
    ensures !(envToken.Some? && envToken.value != "" && envToken.value != PlaceholderKey) ==>
      t == (if saved.Some? && saved.value != "" then saved else None)
    ensures t != Some("")
  {
    if envToken.Some? && envToken.value != "" && envToken.value != PlaceholderKey then envToken
    else if saved.Some? && saved.value != "" then saved
    else None
  }

  /** `hasTokenAtom`: a token is held, even the empty one, exactly when the atom is not null. */
  function HasToken(token: Option<string>): (b: bool)
    ensures b <==> token != None
  {
    token.Some?
  }

  /** At start-up a token is held exactly when the environment has a usable one or a
      non-empty token is stored; the held token is then never empty. */
  lemma HasTokenAtStartup(envToken: Option<string>, saved: Option<string>)
    ensures HasToken(InitialToken(envToken, saved)) <==>
      (envToken.Some? && envToken.value != "" && envToken.value != PlaceholderKey) ||
      (saved.Some? && saved.value != "")
    ensures HasToken(InitialToken(envToken, saved)) ==> InitialToken(envToken, saved).value != ""
  {
  }

  class TokenStore {
    const storage: Browser.Storage
    var apiToken: Option<string>
    var isValidatingToken: bool

    constructor (envToken: Option<string>, storage: Browser.Storage)
      ensures this.storage == storage
      ensures apiToken == InitialToken(envToken, storage.GetItem(TokenKey))
      ensures !isValidatingToken
    {
      this.storage := storage;
      apiToken := InitialToken(envToken, storage.GetItem(TokenKey));
      isValidatingToken := false;
    }

    /** `setApiTokenAtom`: the same value goes to storage and to the atom, so a token is then
        held, even the empty one. */
    method SetApiToken(token: string)
      modifies this, storage
      ensures storage.items == old(storage.items)[TokenKey := token]
      ensures apiToken == Some(token) && HasToken(apiToken)
      ensures storage.GetItem(TokenKey) == apiToken
      ensures isValidatingToken == old(isValidatingToken)
    {
      storage.SetItem(TokenKey, token);
      apiToken := Some(token);
    }

    /** `clearApiTokenAtom`: the stored token is removed and the atom emptied. */
    method ClearApiToken()
      modifies this, storage
      ensures storage.items == old(storage.items) - {TokenKey}
      ensures apiToken == None && !HasToken(apiToken)
      ensures isValidatingToken == old(isValidatingToken)
    {
      storage.RemoveItem(TokenKey);
      apiToken := None;
    }
  }

  /** What a reload makes of a stored token when the environment has no usable one: the same
      token, except that an empty token is read back as none. */
  lemma ReloadAfterSet(envToken: Option<string>, token: string)
    requires !(envToken.Some? && envToken.value != "" && envToken.value != PlaceholderKey)
    ensures HasToken(InitialToken(envToken, Some(token))) <==> token != ""
    ensures token != "" ==> InitialToken(envToken, Some(token)) == Some(token)
  {
  }

  /** A usable environment token shadows whatever is stored, so setting or clearing the stored
      token does not change what a reload starts with. */
  lemma EnvironmentTakesPrecedence(envToken: string, s1: Option<string>, s2: Option<string>)
    requires envToken != "" && envToken != PlaceholderKey
    ensures InitialToken(Some(envToken), s1) == InitialToken(Some(envToken), s2) == Some(envToken)
  {
  }
}
