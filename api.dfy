/**
 * The API client: the request interceptor that attaches the bearer token, the
 * response interceptor that ends the session on a 401, the pipeline one call
 * goes through, and the request each endpoint wrapper builds. The HTTP
 * transport itself is a parameter.
 */
module Api {
  import opened Wrappers
  import opened Js
  import opened Web

  /** The server every path below is relative to. */
  const BaseUrl := "http://127.0.0.1:8001"

  const AuthorizationHeader := "Authorization"
  const BearerPrefix := "Bearer "

  /** Where the client sends the browser when the server rejects the session. */
  const LoginLocation := "/login"

  datatype Verb = Get | Post | Put | Delete

  /** A request body: none, or a record of fields. */
  datatype Body = NoBody | Fields(fields: map<string, JsValue>)

  /** What an endpoint wrapper hands to axios: the verb, the path, the query parameters and the body. */
  datatype Request = Request(verb: Verb, path: string, params: map<string, JsValue>, body: Body)

  datatype Response = Response(status: int, data: JsValue)

  /** An axios error: `error.response` is missing when no response arrived (a network failure or the timeout). */
  datatype HttpError = HttpError(response: Option<Response>, message: string)

  /** What a call settles to: a resolved response or a rejection with an error. */
  datatype Settled = Resolved(response: Response) | Rejected(error: HttpError)

  /** What the transport produced for a request. */
  datatype Reply = Delivered(response: Response) | Failed(error: HttpError)

  /** The URL axios sends a path to. */
  function UrlOf(path: string): (url: string)
    ensures |url| >= |BaseUrl| && url[..|BaseUrl|] == BaseUrl && url[|BaseUrl|..] == path
  {
    BaseUrl + path
  }

  // ---------------------------------------------------------------------------
  // Bearer credentials

  function Bearer(token: string): string
  {
    BearerPrefix + token
  }

  /** The token an `Authorization` header carries, if it is a bearer header. */
  function TokenOfBearer(header: string): Option<string>
  {
    if |header| >= |BearerPrefix| && header[..|BearerPrefix|] == BearerPrefix
    then Some(header[|BearerPrefix|..])
    else None
  }

  lemma BearerRoundTrip(token: string)
    ensures TokenOfBearer(Bearer(token)) == Some(token)
  {
  }

  /**
   * The headers after the request interceptor: with a truthy stored token an
   * `Authorization` header carrying exactly that token is set (replacing any
   * earlier one); without one the headers are left as they were. No other
   * header changes.
   */
  function WithAuth(headers: map<string, string>, token: Option<string>): (r: map<string, string>)
    ensures r.Keys == headers.Keys + (if Present(token) then {AuthorizationHeader} else {})
    ensures forall k :: k in headers && k != AuthorizationHeader ==> r[k] == headers[k]
    ensures Present(token) ==>
      (r[AuthorizationHeader] == Bearer(token.value) && TokenOfBearer(r[AuthorizationHeader]) == token)
    ensures !Present(token) ==> r == headers
  {
    if Present(token) then
      BearerRoundTrip(token.value);
      headers[AuthorizationHeader := Bearer(token.value)]
    else
      headers
  }

  // ---------------------------------------------------------------------------
  // Interceptors

  /** The axios request config the interceptor receives; its headers object is changed in place. */
  class RequestConfig {
    var request: Request
    var headers: map<string, string>

    constructor (request: Request, headers: map<string, string>)
      ensures this.request == request && this.headers == headers
    {
      this.request := request;
      this.headers := headers;
    }
  }

  /** The request interceptor: sets the bearer header from the stored token and returns the same config. */
  method OnRequest(env: Browser, config: RequestConfig) returns (r: RequestConfig)
    modifies config`headers
    ensures r == config
    ensures config.headers == WithAuth(old(config.headers), env.GetItem(TokenKey))
    ensures config.request == old(config.request)
  {
    var token := env.GetItem(TokenKey);
    if Present(token) {
      config.headers := config.headers[AuthorizationHeader := Bearer(token.value)];
    }
    r := config;
  }

  /** The request interceptor's error handler passes the error on unchanged. */
  function OnRequestError(error: HttpError): (r: Settled)
    ensures r.Rejected? && r.error == error
  {
    Rejected(error)
  }

  /** The response interceptor lets every successful response through unchanged. */
  function OnResponse(response: Response): (r: Settled)
    ensures r.Resolved? && r.response == response
  {
    Resolved(response)
  }

  /** `error.response?.status === 401`: an error without a response is never a 401. */
  predicate Unauthorized(error: HttpError)
    ensures error.response.None? ==> !Unauthorized(error)
    ensures error.response.Some? ==> (Unauthorized(error) <==> error.response.value.status == 401)
  {
    error.response.Some? && error.response.value.status == 401
  }

  /**
   * The response interceptor's error handler: on a 401 it removes the token
   * and the user from storage and sends the browser to the login page; any
   * other error, or one without a response, touches nothing. Either way the
   * same error is raised again.
   */
  method OnResponseError(env: Browser, error: HttpError) returns (r: Settled)
    modifies env`storage, env`location
    ensures r == Rejected(error)
    ensures Unauthorized(error) ==>
      env.storage == old(env.storage) - {TokenKey, UserKey} && env.location == LoginLocation
    ensures !Unauthorized(error) ==>
      env.storage == old(env.storage) && env.location == old(env.location)
    ensures old(SessionConsistent(env.storage)) ==> SessionConsistent(env.storage)
  {
    if Unauthorized(error) {
      env.RemoveItem(TokenKey);
      env.RemoveItem(UserKey);
      env.location := LoginLocation;
      ClearedSessionConsistent(old(env.storage));
    }
    r := Rejected(error);
  }

  /** The status a reply carries, if a response arrived at all. */
  function StatusOf(reply: Reply): Option<int>
  {
    match reply
    case Delivered(response) => Some(response.status)
    case Failed(error) => if error.response.Some? then Some(error.response.value.status) else None
  }

  /** axios's default `validateStatus`: only a 2xx status resolves. */
  predicate Accepted(status: int)
  {
    200 <= status < 300
  }

  /**
   * What axios makes of a reply before the response interceptor runs: a
   * response whose status is not 2xx becomes an error that carries it.
   */
  function CheckStatus(reply: Reply): (r: Reply)
    ensures r.Delivered? ==> r == reply && Accepted(r.response.status)
    ensures reply.Delivered? && Accepted(reply.response.status) ==> r == reply
    ensures reply.Delivered? && !Accepted(reply.response.status) ==>
      r.Failed? && r.error.response == Some(reply.response)
    ensures reply.Failed? ==> r == reply
    ensures StatusOf(r) == StatusOf(reply)
  {
    match reply
    case Delivered(response) =>
      if Accepted(response.status) then reply
      else Failed(HttpError(Some(response), "Request failed with status code " + IntToString(response.status)))
    case Failed(_) => reply
  }

  /**
   * One call through the client: the request interceptor runs on a fresh
   * config, the transport sends the request to its full URL with the
   * resulting headers, non-2xx responses are turned into errors, and the
   * response interceptor handles what comes back. The request carries the
   * bearer token stored when the call was made, and a 401 from any endpoint
   * ends the session.
   */
  method Send(env: Browser, request: Request, headers: map<string, string>,
              transport: (string, Request, map<string, string>) -> Reply) returns (r: Settled)
    modifies env`storage, env`location
    ensures var raw := transport(UrlOf(request.path), request, WithAuth(headers, old(env.GetItem(TokenKey))));
      StatusOf(raw) == Some(401) ==>
        env.storage == old(env.storage) - {TokenKey, UserKey} && env.location == LoginLocation
    ensures var reply := CheckStatus(transport(UrlOf(request.path), request, WithAuth(headers, old(env.GetItem(TokenKey)))));
      match reply
      case Delivered(response) =>
        r == Resolved(response) && env.storage == old(env.storage) && env.location == old(env.location)
      case Failed(error) =>
        && r == Rejected(error)
        && (Unauthorized(error) ==>
              env.storage == old(env.storage) - {TokenKey, UserKey} && env.location == LoginLocation)
        && (!Unauthorized(error) ==> env.storage == old(env.storage) && env.location == old(env.location))
  {
    var config := new RequestConfig(request, headers);
    config := OnRequest(env, config);
    var reply := CheckStatus(transport(UrlOf(config.request.path), config.request, config.headers));
    match reply
    case Delivered(response) =>
      r := OnResponse(response);
    case Failed(error) =>
      r := OnResponseError(env, error);
  }

  // ---------------------------------------------------------------------------
  // Query parameters

  /**
   * `v ? { key: v } : {}`, the filter `getAllPosts` and `getFlaggedComments`
   * build with key `user_id` and `getStatistics` with key `username`.
   */
  function FilterParams(key: string, v: JsValue): (r: map<string, JsValue>)
    ensures r.Keys <= {key}
    ensures key in r <==> Truthy(v)
    ensures key in r ==> r[key] == v
  {
    if Truthy(v) then map[key := v] else map[]
  }

  // ---------------------------------------------------------------------------
  // Paths that carry an id

  /** A path with an id interpolated between a fixed prefix and suffix. */
  function IdPath(prefix: string, id: JsValue, suffix: string): string
  {
    prefix + Render(id) + suffix
  }

  /** The text between a known prefix and suffix of a path, if the path has both. */
  function IdOf(path: string, prefix: string, suffix: string): Option<string>
  {
    if |path| >= |prefix| + |suffix| && path[..|prefix|] == prefix && path[|path| - |suffix|..] == suffix
    then Some(path[|prefix|..|path| - |suffix|])
    else None
  }

  lemma IdPathRoundTrip(prefix: string, id: JsValue, suffix: string)
    ensures IdOf(IdPath(prefix, id, suffix), prefix, suffix) == Some(Render(id))
  {
  }

  /** A non-negative numeric id can be read back, as a number, from the path it was put in. */
  lemma NumericIdInPath(prefix: string, id: nat, suffix: string)
    ensures IdOf(IdPath(prefix, Num(id), suffix), prefix, suffix).Some?
    ensures ParseDecimal(IdOf(IdPath(prefix, Num(id), suffix), prefix, suffix).value) == id
  {
  }

  // ---------------------------------------------------------------------------
  // authAPI

  function Login(credentials: Body): Request
  {
    Request(Post, "/api/login", map[], credentials)
  }

  function Register(userData: Body): Request
  {
    Request(Post, "/api/register", map[], userData)
  }

  // ---------------------------------------------------------------------------
  // userAPI

  function GetMyPosts(): Request
  {
    Request(Get, "/api/user/my-posts", map[], NoBody)
  }

  function GetExploreFeed(): Request
  {
    Request(Get, "/api/user/explore-feed", map[], NoBody)
  }

  function CreatePost(postData: Body): Request
  {
    Request(Post, "/api/posts/", map[], postData)
  }

  function CreateComment(commentData: Body): Request
  {
    Request(Post, "/api/comments/", map[], commentData)
  }

  /** `{ reason }` as a request body. */
  function ReasonBody(reason: JsValue): Body
  {
    Fields(map["reason" := reason])
  }

  function DeleteOwnPost(postId: JsValue, reason: JsValue): (r: Request)
    ensures r.verb == Delete && r.params == map[] && r.body == ReasonBody(reason)
    ensures IdOf(r.path, "/api/posts/", "") == Some(Render(postId))
  {
    IdPathRoundTrip("/api/posts/", postId, "");
    Request(Delete, IdPath("/api/posts/", postId, ""), map[], ReasonBody(reason))
  }

  function GetDeletedPostsNotifications(): Request
  {
    Request(Get, "/api/user/deleted-posts", map[], NoBody)
  }

  function MarkDeletedPostViewed(deletedPostId: JsValue): (r: Request)
    ensures r.verb == Put && r.params == map[] && r.body == NoBody
    ensures IdOf(r.path, "/api/user/deleted-posts/", "/mark-viewed") == Some(Render(deletedPostId))
  {
    IdPathRoundTrip("/api/user/deleted-posts/", deletedPostId, "/mark-viewed");
    Request(Put, IdPath("/api/user/deleted-posts/", deletedPostId, "/mark-viewed"), map[], NoBody)
  }

  function GetDeletedPostsCount(): Request
  {
    Request(Get, "/api/user/deleted-posts-count", map[], NoBody)
  }

  // ---------------------------------------------------------------------------
  // moderatorAPI

  function GetAllUsers(): Request
  {
    Request(Get, "/api/moderator/users", map[], NoBody)
  }

  function GetUsersDropdown(): Request
  {
    Request(Get, "/api/moderator/users-dropdown", map[], NoBody)
  }

  /** `getAllPosts(userId = null)`: the user filter is sent only for a truthy id. */
  function GetAllPosts(userId: JsValue): (r: Request)
    ensures r.verb == Get && r.path == "/api/moderator/all-posts" && r.body == NoBody
    ensures r.params == if Truthy(userId) then map["user_id" := userId] else map[]
  {
    Request(Get, "/api/moderator/all-posts", FilterParams("user_id", OrDefault(userId, Null)), NoBody)
  }

  function GetPostsForReview(): Request
  {
    Request(Get, "/api/moderator/posts-for-review", map[], NoBody)
  }

  function GetPostForReview(postId: JsValue): (r: Request)
    ensures r.verb == Get && r.params == map[] && r.body == NoBody
    ensures IdOf(r.path, "/api/moderator/posts/", "/review") == Some(Render(postId))
  {
    IdPathRoundTrip("/api/moderator/posts/", postId, "/review");
    Request(Get, IdPath("/api/moderator/posts/", postId, "/review"), map[], NoBody)
  }

  function GetPostComments(postId: JsValue): (r: Request)
    ensures r.verb == Get && r.params == map[] && r.body == NoBody
    ensures IdOf(r.path, "/api/moderator/posts/", "/view-comments") == Some(Render(postId))
  {
    IdPathRoundTrip("/api/moderator/posts/", postId, "/view-comments");
    Request(Get, IdPath("/api/moderator/posts/", postId, "/view-comments"), map[], NoBody)
  }

  /** `getFlaggedComments(userId = null)`: the user filter is sent only for a truthy id. */
  function GetFlaggedComments(userId: JsValue): (r: Request)
    ensures r.verb == Get && r.path == "/api/moderator/flagged-comments" && r.body == NoBody
    ensures r.params == if Truthy(userId) then map["user_id" := userId] else map[]
  {
    Request(Get, "/api/moderator/flagged-comments", FilterParams("user_id", OrDefault(userId, Null)), NoBody)
  }

  /** `getStatistics(username = null)`: the username filter is sent only for a truthy name. */
  function GetStatistics(username: JsValue): (r: Request)
    ensures r.verb == Get && r.path == "/api/moderator/statistics" && r.body == NoBody
    ensures r.params == if Truthy(username) then map["username" := username] else map[]
  {
    Request(Get, "/api/moderator/statistics", FilterParams("username", OrDefault(username, Null)), NoBody)
  }

  /** A falsy filter, a missing one and `0` all mean the same: no filter at all. */
  lemma FalsyFiltersSendNothing(v: JsValue)
    requires !Truthy(v)
    ensures GetAllPosts(v).params == map[] && GetAllPosts(v) == GetAllPosts(Undefined)
    ensures GetFlaggedComments(v).params == map[] && GetFlaggedComments(v) == GetFlaggedComments(Null)
    ensures GetStatistics(v).params == map[] && GetStatistics(v) == GetStatistics(Str(""))
    ensures GetAllPosts(Num(0)) == GetAllPosts(Null)
  {
  }

  /** `reviewComment(commentId, action, reason = '')`: the body is `{ action, reason }`. */
  function ReviewComment(commentId: JsValue, action: JsValue, reason: JsValue): (r: Request)
    ensures r.verb == Put && r.params == map[]
    ensures r.body.Fields? && r.body.fields.Keys == {"action", "reason"}
    ensures r.body.fields["action"] == action
    ensures r.body.fields["reason"] == if reason == Undefined then Str("") else reason
    ensures IdOf(r.path, "/api/moderator/comments/", "/review") == Some(Render(commentId))
  {
    IdPathRoundTrip("/api/moderator/comments/", commentId, "/review");
    Request(Put, IdPath("/api/moderator/comments/", commentId, "/review"), map[],
            Fields(map["action" := action, "reason" := OrDefault(reason, Str(""))]))
  }

  function DeletePost(postId: JsValue, reason: JsValue): (r: Request)
    ensures r.verb == Delete && r.params == map[] && r.body == ReasonBody(reason)
    ensures IdOf(r.path, "/api/moderator/posts/", "") == Some(Render(postId))
  {
    IdPathRoundTrip("/api/moderator/posts/", postId, "");
    Request(Delete, IdPath("/api/moderator/posts/", postId, ""), map[], ReasonBody(reason))
  }

  function DeleteUser(userId: JsValue, reason: JsValue): (r: Request)
    ensures r.verb == Delete && r.params == map[] && r.body == ReasonBody(reason)
    ensures IdOf(r.path, "/api/moderator/users/", "") == Some(Render(userId))
  {
    IdPathRoundTrip("/api/moderator/users/", userId, "");
    Request(Delete, IdPath("/api/moderator/users/", userId, ""), map[], ReasonBody(reason))
  }

  // ---------------------------------------------------------------------------
  // adminAPI

  function GetAllModerators(): Request
  {
    Request(Get, "/api/admin/moderators", map[], NoBody)
  }

  function SuspendModerator(moderatorId: JsValue, data: Body): (r: Request)
    ensures r.verb == Put && r.params == map[] && r.body == data
    ensures IdOf(r.path, "/api/admin/moderators/", "/suspend") == Some(Render(moderatorId))
  {
    IdPathRoundTrip("/api/admin/moderators/", moderatorId, "/suspend");
    Request(Put, IdPath("/api/admin/moderators/", moderatorId, "/suspend"), map[], data)
  }

  function UnsuspendModerator(moderatorId: JsValue): (r: Request)
    ensures r.verb == Put && r.params == map[] && r.body == NoBody
    ensures IdOf(r.path, "/api/admin/moderators/", "/unsuspend") == Some(Render(moderatorId))
  {
    IdPathRoundTrip("/api/admin/moderators/", moderatorId, "/unsuspend");
    Request(Put, IdPath("/api/admin/moderators/", moderatorId, "/unsuspend"), map[], NoBody)
  }

  function DeleteModerator(moderatorId: JsValue, data: Body): (r: Request)
    ensures r.verb == Delete && r.params == map[] && r.body == data
    ensures IdOf(r.path, "/api/admin/moderators/", "") == Some(Render(moderatorId))
  {
    IdPathRoundTrip("/api/admin/moderators/", moderatorId, "");
    Request(Delete, IdPath("/api/admin/moderators/", moderatorId, ""), map[], data)
  }

  /** The wrappers without arguments send no query parameters and no body, each with its own verb and path. */
  lemma FixedEndpoints()
    ensures GetMyPosts() == Request(Get, "/api/user/my-posts", map[], NoBody)
    ensures GetExploreFeed() == Request(Get, "/api/user/explore-feed", map[], NoBody)
    ensures GetDeletedPostsNotifications() == Request(Get, "/api/user/deleted-posts", map[], NoBody)
    ensures GetDeletedPostsCount() == Request(Get, "/api/user/deleted-posts-count", map[], NoBody)
    ensures GetAllUsers() == Request(Get, "/api/moderator/users", map[], NoBody)
    ensures GetUsersDropdown() == Request(Get, "/api/moderator/users-dropdown", map[], NoBody)
    ensures GetPostsForReview() == Request(Get, "/api/moderator/posts-for-review", map[], NoBody)
    ensures GetAllModerators() == Request(Get, "/api/admin/moderators", map[], NoBody)
  {
  }

  /** The wrappers that forward a caller's record send it unchanged as the body. */
  lemma ForwardedBodies(data: Body)
    ensures Login(data) == Request(Post, "/api/login", map[], data)
    ensures Register(data) == Request(Post, "/api/register", map[], data)
    ensures CreatePost(data) == Request(Post, "/api/posts/", map[], data)
    ensures CreateComment(data) == Request(Post, "/api/comments/", map[], data)
  {
  }
}
