/** The request builders and the error classifier of the database service
    (src/services/database.js). Sending the requests is left to axios and
    is not modelled: a builder yields the path and body it would send. */
module Database {
  import opened Options

  // ----- request bodies -----

  /** The body `createAlert` and `createCustomAlert` post to `/alerts`. */
  datatype AlertBody = AlertBody(userId: string, asteroidId: string, alertType: string, message: string, priority: string)

  // A default parameter applies only when the argument is `undefined`
  // (`None`): `Option.GetOr` is that rule.

  const DefaultPriority: string := "medium"

  /** alertService.createAlert. */
  function CreateAlert(userId: string, asteroidId: string, alertType: string, message: string, priority: Option<string>): (b: AlertBody)
    ensures b.userId == userId && b.asteroidId == asteroidId && b.alertType == alertType && b.message == message
    ensures priority.None? ==> b.priority == DefaultPriority
    ensures priority.Some? ==> b.priority == priority.value
  {
    AlertBody(userId, asteroidId, alertType, message, priority.GetOr(DefaultPriority))
  }

  /** alertService.createCustomAlert. */
  function CreateCustomAlert(userId: string, asteroidId: string, message: string, priority: Option<string>): (b: AlertBody)
    ensures b.alertType == "custom"
    ensures priority.None? ==> b.priority == DefaultPriority
  {
    AlertBody(userId, asteroidId, "custom", message, priority.GetOr(DefaultPriority))
  }

  /** A custom alert is the alert of type 'custom' with the same arguments. */
  lemma CustomAlertIsCustomType(userId: string, asteroidId: string, message: string, priority: Option<string>)
    ensures CreateCustomAlert(userId, asteroidId, message, priority) == CreateAlert(userId, asteroidId, "custom", message, priority)
  {
  }

  /** Leaving out a defaulted argument is the same call as passing its
      default: priority "medium" for both alert builders, notes "" for the
      watchlist post. */
  lemma OmittedDefaultsAreExplicit(userId: string, asteroidId: string, alertType: string, message: string)
    ensures CreateAlert(userId, asteroidId, alertType, message, None)
         == CreateAlert(userId, asteroidId, alertType, message, Some("medium"))
    ensures CreateCustomAlert(userId, asteroidId, message, None)
         == CreateCustomAlert(userId, asteroidId, message, Some("medium"))
    ensures AddToWatchlist(userId, asteroidId, None) == AddToWatchlist(userId, asteroidId, Some(""))
  {
  }

  /** The request `addToWatchlist` posts. */
  datatype WatchlistPost = WatchlistPost(path: string, asteroidId: string, notes: string)

  const UsersPrefix: string := "/users/"
  const WatchlistSuffix: string := "/watchlist"

  /** watchlistService.addToWatchlist. */
  function AddToWatchlist(userId: string, asteroidId: string, notes: Option<string>): (p: WatchlistPost)
    ensures p.asteroidId == asteroidId
    ensures p.notes == if notes.Some? then notes.value else ""
  {
    WatchlistPost(UsersPrefix + userId + WatchlistSuffix, asteroidId, notes.GetOr(""))
  }

  /** The user id is recovered from the path between its fixed prefix and
      suffix, so different users post to different paths. */
  lemma WatchlistPathNamesUser(userId: string, other: string, asteroidId: string, notes: Option<string>)
    ensures var path := AddToWatchlist(userId, asteroidId, notes).path;
      |path| == |UsersPrefix| + |userId| + |WatchlistSuffix|
      && path[..|UsersPrefix|] == UsersPrefix
      && path[|UsersPrefix|..|UsersPrefix| + |userId|] == userId
      && path[|UsersPrefix| + |userId|..] == WatchlistSuffix
    ensures userId != other ==> AddToWatchlist(userId, asteroidId, notes).path != AddToWatchlist(other, asteroidId, notes).path
  {
    var path := UsersPrefix + userId + WatchlistSuffix;
    assert path[..|UsersPrefix|] == UsersPrefix;
    assert path[|UsersPrefix|..|UsersPrefix| + |userId|] == userId;
    assert path[|UsersPrefix| + |userId|..] == WatchlistSuffix;
  }

  // ----- handleError -----

  /** The `data` object of an error response; its `message` may be absent. */
  datatype ResponseData = ResponseData(message: Option<string>)

  datatype ErrorResponse = ErrorResponse(status: int, data: Option<ResponseData>)

  /** The fields of an axios error that `handleError` reads: the response,
      whether a request was made, and the error's own message. */
  datatype AxiosError = AxiosError(response: Option<ErrorResponse>, requestMade: bool, message: string)

  datatype HandledError = HandledError(status: int, message: string, data: Option<ResponseData>)

  const GenericMessage: string := "An error occurred"
  const NoResponseMessage: string := "No response from server. Check backend connection."

  /** `error.response.data?.message || 'An error occurred'`: a server
      response always yields a message to show, the server's own when it
      sent a non-empty one. */
  function ServerMessage(data: Option<ResponseData>): (m: string)
    ensures m != ""
    ensures data.Some? && data.value.message.Some? && data.value.message.value != "" ==> m == data.value.message.value
    ensures !(data.Some? && data.value.message.Some? && data.value.message.value != "") ==> m == GenericMessage
  {
    if data.Some? && data.value.message.Some? && data.value.message.value != "" then data.value.message.value
    else GenericMessage
  }

  /** databaseService.handleError. Only a server response passes data
      through, together with its status and a non-empty message; without a
      response the data is null and the status, 0 or -1, tells whether a
      request was made. */
  function HandleError(e: AxiosError): (r: HandledError)
    ensures r.data.Some? ==> e.response.Some?
    ensures e.response.Some? ==>
      r.status == e.response.value.status && r.data == e.response.value.data
      && r.message == ServerMessage(e.response.value.data) && r.message != ""
    ensures e.response.None? ==> r.data.None? && (r.status == 0 <==> e.requestMade) && (r.status == -1 <==> !e.requestMade)
    ensures e.response.None? ==> r.message == if e.requestMade then NoResponseMessage else e.message
  {
    if e.response.Some? then
      HandledError(e.response.value.status, ServerMessage(e.response.value.data), e.response.value.data)
    else if e.requestMade then HandledError(0, NoResponseMessage, None)
    else HandledError(-1, e.message, None)
  }

  /** The three branches, in the order they are tried. */
  datatype ErrorKind = ServerResponded | NoResponse | SetupFailed

  function KindOf(e: AxiosError): (k: ErrorKind)
    ensures k == ServerResponded <==> e.response.Some?
    ensures k == NoResponse <==> e.response.None? && e.requestMade
    ensures k == SetupFailed <==> e.response.None? && !e.requestMade
  {
    if e.response.Some? then ServerResponded else if e.requestMade then NoResponse else SetupFailed
  }

  /** A response wins over a request that was made, and only a response
      carries its data through; without a response the status is 0 or -1
      and tells the two remaining cases apart. */
  lemma HandleErrorBranches(e: AxiosError)
    ensures HandleError(e).data.Some? ==> KindOf(e) == ServerResponded
    ensures KindOf(e) == NoResponse <==> e.response.None? && HandleError(e).status == 0
    ensures KindOf(e) == SetupFailed <==> e.response.None? && HandleError(e).status == -1
    ensures e.response.Some? && e.requestMade ==> HandleError(e) == HandleError(e.(requestMade := false))
  {
  }
}
