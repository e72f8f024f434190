/** The session accessors of the client's authentication helpers, over an abstract browser
    key-value store.

    The store maps string keys to string values. Two keys matter: `currentUser`, holding the
    serialized user record, and `authToken`, holding the raw token. Serialization is not
    modelled: the encoder and the partial parser are parameters, the parser answering `None`
    when parsing throws or yields a falsy value. */
module Session {
  import opened Wrappers

  type Store = map<string, string>

  const CurrentUserKey: string := "currentUser"
  const AuthTokenKey: string := "authToken"

  /** The fields of a user record the client reads: `id` and `token` guard the attendance
      fetch, `role` drives the dashboard. */
  datatype User = User(id: Option<string>, token: Option<string>, role: Option<string>)

  /** `JSON.parse` applied to the stored text; `None` when it throws or yields a falsy value. */
  type Parser = string -> Option<User>

  /** `JSON.stringify` applied to a user record. */
  type Encoder = User -> string

  /** `getItem`: the stored value, or `None` for a missing key. */
  function GetItem(store: Store, key: string): Option<string> {
    if key in store then Some(store[key]) else None
  }

  /** The two stores agree on every key outside `keys`. */
  ghost predicate AgreeExcept(store: Store, store': Store, keys: set<string>) {
    forall k :: k !in keys ==> GetItem(store, k) == GetItem(store', k)
  }

  /** The current user: nothing when the entry is missing or empty, otherwise whatever the
      parser makes of the stored text. */
  function GetCurrentUser(store: Store, parse: Parser): (user: Option<User>)
    ensures user.Some? <==>
      CurrentUserKey in store && store[CurrentUserKey] != "" && parse(store[CurrentUserKey]).Some?
    ensures user.Some? ==> user == parse(store[CurrentUserKey])
  {
    var text := GetItem(store, CurrentUserKey);
    if Truthy(text) then parse(text.value) else None
  }

  /** Stores the encoded user under `currentUser` and touches no other key. */
  function SetCurrentUser(store: Store, user: User, encode: Encoder): (store': Store)
    ensures GetItem(store', CurrentUserKey) == Some(encode(user))
    ensures AgreeExcept(store, store', {CurrentUserKey})
  {
    store[CurrentUserKey := encode(user)]
  }

  /** Removes `currentUser`, then `authToken`; every other key keeps its value. */
  function ClearCurrentUser(store: Store): (store': Store)
    ensures GetItem(store', CurrentUserKey).None?
    ensures GetItem(store', AuthTokenKey).None?
    ensures AgreeExcept(store, store', {CurrentUserKey, AuthTokenKey})
  {
    var withoutUser := store - {CurrentUserKey};
    withoutUser - {AuthTokenKey}
  }

  /** Writes the token under `authToken` and touches no other key. */
  function StoreAuthToken(store: Store, token: string): (store': Store)
    ensures GetItem(store', AuthTokenKey) == Some(token)
    ensures AgreeExcept(store, store', {AuthTokenKey})
  {
    store[AuthTokenKey := token]
  }

  /** The second name the client exports for writing the token. */
  function SetAuthToken(store: Store, token: string): (store': Store)
    ensures GetItem(store', AuthTokenKey) == Some(token)
    ensures AgreeExcept(store, store', {AuthTokenKey})
  {
    store[AuthTokenKey := token]
  }

  /** The stored token, exactly as stored (an empty token is returned as the empty string). */
  function GetAuthToken(store: Store): (token: Option<string>)
    ensures token.Some? <==> AuthTokenKey in store
    ensures token.Some? ==> token.value == store[AuthTokenKey]
  {
    GetItem(store, AuthTokenKey)
  }

  /** Signed in exactly when the stored user entry is non-empty and parses to a user. */
  predicate IsAuthenticated(store: Store, parse: Parser)
    ensures IsAuthenticated(store, parse) <==>
      CurrentUserKey in store && store[CurrentUserKey] != "" && parse(store[CurrentUserKey]).Some?
  {
    GetCurrentUser(store, parse).Some?
  }

  /** After signing out there is no current user and no token, whatever the parser, and the
      session is no longer authenticated. */
  lemma ClearSignsOut(store: Store, parse: Parser)
    ensures GetCurrentUser(ClearCurrentUser(store), parse).None?
    ensures GetAuthToken(ClearCurrentUser(store)).None?
    ensures !IsAuthenticated(ClearCurrentUser(store), parse)
  {
  }

  /** A stored user reads back as itself when the parser inverts the encoder, and storing it
      leaves the token alone. */
  lemma SetThenGetUser(store: Store, user: User, encode: Encoder, parse: Parser)
    requires encode(user) != ""
    requires parse(encode(user)) == Some(user)
    ensures GetCurrentUser(SetCurrentUser(store, user, encode), parse) == Some(user)
    ensures IsAuthenticated(SetCurrentUser(store, user, encode), parse)
    ensures GetAuthToken(SetCurrentUser(store, user, encode)) == GetAuthToken(store)
  {
  }

  /** Both token writers have the same effect; a written token reads back, and the current
      user entry is untouched. */
  lemma TokenWriteThenRead(store: Store, token: string, parse: Parser)
    ensures StoreAuthToken(store, token) == SetAuthToken(store, token)
    ensures GetAuthToken(StoreAuthToken(store, token)) == Some(token)
    ensures GetCurrentUser(StoreAuthToken(store, token), parse) == GetCurrentUser(store, parse)
  {
  }
}
