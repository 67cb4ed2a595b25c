/** The authentication service (src/services/auth.js): the session token
    and the signed-in user kept in the browser's local storage. The
    storage is a map from keys to strings; the HTTP calls are parameters
    (the response the server gave, or whether the call succeeded). */
module Auth {
  import opened Options

  const TokenKey: string := "auth_token"
  const UserKey: string := "user"

  /** `response.data.data`: the token, when the server sent one, and the
      signed-in user as `JSON.stringify` writes it (the JSON text itself
      is not modelled). */
  datatype SessionData = SessionData(token: Option<string>, userJson: string)

  /** The request a service call sends. */
  datatype Request = Post(path: string, fields: map<string, string>) | Get(path: string)

  /** A token counts only when present and not empty. */
  predicate HasToken(token: Option<string>)
  {
    token.Some? && token.value != ""
  }

  /** Keys other than the two session keys are untouched. */
  ghost predicate OthersKept(before: map<string, string>, after: map<string, string>)
  {
    forall k :: k != TokenKey && k != UserKey ==> (k in after <==> k in before) && (k in after ==> after[k] == before[k])
  }

  /** The storage after a login or registration response is handled. */
  function Stored(storage: map<string, string>, data: SessionData): (r: map<string, string>)
    ensures HasToken(data.token) ==> TokenKey in r && r[TokenKey] == data.token.value && UserKey in r && r[UserKey] == data.userJson
    ensures !HasToken(data.token) ==> r == storage
    ensures OthersKept(storage, r)
  {
    if HasToken(data.token) then storage[TokenKey := data.token.value][UserKey := data.userJson] else storage
  }

  /** The storage once both session keys are removed. */
  function Cleared(storage: map<string, string>): (r: map<string, string>)
    ensures TokenKey !in r && UserKey !in r
    ensures OthersKept(storage, r)
  {
    storage - {TokenKey, UserKey}
  }

  /** The storage after a refresh response: only the token is replaced. */
  function Refreshed(storage: map<string, string>, token: Option<string>): (r: map<string, string>)
    ensures HasToken(token) ==> TokenKey in r && r[TokenKey] == token.value
    ensures !HasToken(token) ==> r == storage
    ensures UserKey in r <==> UserKey in storage
    ensures UserKey in r ==> r[UserKey] == storage[UserKey]
    ensures OthersKept(storage, r)
  {
    if HasToken(token) then storage[TokenKey := token.value] else storage
  }

  /** getCurrentUser: the stored user text, or null when it is absent or empty. */
  function CurrentUser(storage: map<string, string>): (u: Option<string>)
    ensures u.Some? <==> UserKey in storage && storage[UserKey] != ""
    ensures u.Some? ==> u.value == storage[UserKey]
  {
    if UserKey in storage && storage[UserKey] != "" then Some(storage[UserKey]) else None
  }

  /** isAuthenticated: a non-empty token is stored. */
  function Authenticated(storage: map<string, string>): (b: bool)
    ensures b <==> TokenKey in storage && storage[TokenKey] != ""
  {
    TokenKey in storage && storage[TokenKey] != ""
  }

  /** A response with a token signs the user in and makes its user the
      current one; one without a token changes nothing. */
  lemma LoginStartsSession(storage: map<string, string>, data: SessionData)
    ensures HasToken(data.token) ==> Authenticated(Stored(storage, data))
    ensures HasToken(data.token) && data.userJson != "" ==> CurrentUser(Stored(storage, data)) == Some(data.userJson)
    ensures !HasToken(data.token) ==> Authenticated(Stored(storage, data)) == Authenticated(storage)
  {
  }

  /** After logout nobody is signed in, whatever was stored before. */
  lemma LogoutEndsSession(storage: map<string, string>)
    ensures !Authenticated(Cleared(storage))
    ensures CurrentUser(Cleared(storage)) == None
    ensures Cleared(Cleared(storage)) == Cleared(storage)
  {
  }

  /** Logging out after a login leaves the storage as logging out before it would. */
  lemma LoginThenLogout(storage: map<string, string>, data: SessionData)
    ensures Cleared(Stored(storage, data)) == Cleared(storage)
  {
  }

  /** A refresh keeps the current user and only ever adds a session. */
  lemma RefreshKeepsUser(storage: map<string, string>, token: Option<string>)
    ensures CurrentUser(Refreshed(storage, token)) == CurrentUser(storage)
    ensures Authenticated(storage) ==> Authenticated(Refreshed(storage, token))
  {
  }

  /** The service object over the browser's local storage. */
  class AuthStore {
    var storage: map<string, string>

    constructor(initial: map<string, string>)
      ensures storage == initial
    {
      storage := initial;
    }

    function GetCurrentUser(): Option<string>
      reads this
    {
      CurrentUser(storage)
    }

    function IsAuthenticated(): bool
      reads this
    {
      Authenticated(storage)
    }

    /** login: posts the credentials; on a token, stores the session. */
    method Login(email: string, password: string, response: SessionData) returns (sent: Request, result: SessionData)
      modifies this
      ensures sent == Post("/auth/login", map["email" := email, "password" := password])
      ensures result == response
      ensures storage == Stored(old(storage), response)
    {
      sent := Post("/auth/login", map["email" := email, "password" := password]);
      if HasToken(response.token) {
        storage := storage[TokenKey := response.token.value];
        storage := storage[UserKey := response.userJson];
      }
      result := response;
    }

    /** register: posts the new account; on a token, stores the session. */
    method Register(username: string, email: string, password: string, response: SessionData) returns (sent: Request, result: SessionData)
      modifies this
      ensures sent == Post("/auth/register", map["username" := username, "email" := email, "password" := password])
      ensures result == response
      ensures storage == Stored(old(storage), response)
    {
      sent := Post("/auth/register", map["username" := username, "email" := email, "password" := password]);
      if HasToken(response.token) {
        storage := storage[TokenKey := response.token.value];
        storage := storage[UserKey := response.userJson];
      }
      result := response;
    }

    /** logout: removes the token, then the user. */
    method Logout()
      modifies this
      ensures storage == Cleared(old(storage))
    {
      storage := storage - {TokenKey};
      storage := storage - {UserKey};
    }

    /** refreshToken: posts an empty body; a returned token replaces the stored one. */
    method RefreshToken(response: SessionData) returns (sent: Request, result: SessionData)
      modifies this
      ensures sent == Post("/auth/refresh", map[])
      ensures result == response
      ensures storage == Refreshed(old(storage), response.token)
    {
      sent := Post("/auth/refresh", map[]);
      if HasToken(response.token) {
        storage := storage[TokenKey := response.token.value];
      }
      result := response;
    }

    /** verifyToken: a failed check clears the session and yields false;
        a successful one yields the (truthy) response and changes nothing. */
    method VerifyToken(succeeded: bool) returns (sent: Request, verified: bool)
      modifies this
      ensures sent == Get("/auth/verify")
      ensures verified == succeeded
      ensures succeeded ==> storage == old(storage)
      ensures !succeeded ==> storage == Cleared(old(storage))
    {
      sent := Get("/auth/verify");
      if succeeded {
        verified := true;
      } else {
        storage := storage - {TokenKey};
        storage := storage - {UserKey};
        verified := false;
      }
    }
  }
}
