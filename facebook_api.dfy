/** The Graph API client of the comment bot: building a client from its credentials,
  * classifying error responses, retrying a request, paging through a post's comments,
  * guarding a reply's text and shaping a fetched comment for storage.
  * Every network round trip is a parameter: a function from the attempt number (or the
  * page request) to what came back. */
module FacebookApi {
  import opened Wrappers
  import opened Text

  const GraphApiBaseUrl := "https://graph.facebook.com/v21.0"
  /** Attempts a request makes before it gives up on timeouts and connection failures. */
  const MaxRetries: nat := 3
  /** The longest reply the Graph API accepts. */
  const MaxReplyLength: nat := 8000
  /** The largest page the comments endpoint is asked for. */
  const MaxPageSize: int := 100

  const RateLimitCodes: seq<int> := [4, 17, 32, 613]
  const AuthenticationCodes: seq<int> := [102, 190]
  const PermissionCodes: seq<int> := [10, 200, 230, 270]
  const PermissionPrefix := "Permission denied: "
  const UnknownError := "Unknown error"

  function Min(a: int, b: int): int
  {
    if a <= b then a else b
  }

  // ---------------------------------------------------------------------------
  // The client
  // ---------------------------------------------------------------------------

  datatype Client = Client(pageId: string, accessToken: string, baseUrl: string)

  /** The two ways building a client fails. */
  datatype ConfigError = MissingPageId | MissingAccessToken

  /** A client from the arguments, each falling back to its configured secret; the page id is checked first. */
  function Connect(pageId: Option<string>, accessToken: Option<string>,
                   configuredPageId: Option<string>, configuredToken: Option<string>): (r: Result<Client, ConfigError>)
    ensures r.Ok? <==> Given(OrElse(pageId, configuredPageId)) && Given(OrElse(accessToken, configuredToken))
    ensures r == Err(MissingPageId) <==> !Given(OrElse(pageId, configuredPageId))
    ensures r.Ok? ==> r.value.pageId != "" && r.value.accessToken != "" && r.value.baseUrl == GraphApiBaseUrl
    ensures r.Ok? && Given(pageId) ==> r.value.pageId == pageId.value
    ensures r.Ok? && !Given(pageId) ==> configuredPageId == Some(r.value.pageId)
    ensures r.Ok? && Given(accessToken) ==> r.value.accessToken == accessToken.value
    ensures r.Ok? && !Given(accessToken) ==> configuredToken == Some(r.value.accessToken)
  {
    var page := OrElse(pageId, configuredPageId);
    var token := OrElse(accessToken, configuredToken);
    if !Given(page) then Err(MissingPageId)
    else if !Given(token) then Err(MissingAccessToken)
    else Ok(Client(page.value, token.value, GraphApiBaseUrl))
  }

  // ---------------------------------------------------------------------------
  // Error responses
  // ---------------------------------------------------------------------------

  /** The exception class an error is raised as; the rate-limit and authentication
    * classes derive from the generic API error, a permission error is a generic one. */
  datatype ErrorKind = RateLimit | Authentication | Permission | Generic

  datatype ApiError = ApiError(kind: ErrorKind, message: string, code: Option<int>,
                               subcode: Option<int>, traceId: Option<string>)

  /** The `error` object of a response; a missing key is `None`. */
  datatype ErrorBody = ErrorBody(message: Option<string>, code: Option<int>,
                                 subcode: Option<int>, traceId: Option<string>)

  predicate CodeIn(code: Option<int>, codes: seq<int>)
  {
    code.Some? && code.value in codes
  }

  /** The exception an error response raises: classified by its code, always an error. */
  function HandleError(error: ErrorBody): (e: ApiError)
    ensures e.code == error.code && e.subcode == error.subcode && e.traceId == error.traceId
    ensures e.kind == RateLimit <==> CodeIn(error.code, RateLimitCodes)
    ensures e.kind == Authentication <==> CodeIn(error.code, AuthenticationCodes)
    ensures e.kind == Permission <==> CodeIn(error.code, PermissionCodes)
    ensures e.kind == Generic <==>
      !CodeIn(error.code, RateLimitCodes + AuthenticationCodes + PermissionCodes)
    ensures e.kind == Permission ==> e.message == PermissionPrefix + error.message.UnwrapOr(UnknownError)
    ensures e.kind != Permission ==> e.message == error.message.UnwrapOr(UnknownError)
  {
    var message := error.message.UnwrapOr(UnknownError);
    if CodeIn(error.code, RateLimitCodes) then
      ApiError(RateLimit, message, error.code, error.subcode, error.traceId)
    else if CodeIn(error.code, AuthenticationCodes) then
      ApiError(Authentication, message, error.code, error.subcode, error.traceId)
    else if CodeIn(error.code, PermissionCodes) then
      ApiError(Permission, PermissionPrefix + message, error.code, error.subcode, error.traceId)
    else
      ApiError(Generic, message, error.code, error.subcode, error.traceId)
  }

  // ---------------------------------------------------------------------------
  // Requests with retries
  // ---------------------------------------------------------------------------

  /** A parsed response body: the data, or an `error` object. */
  datatype Reply<T> = Answer(body: T) | ErrorReply(error: ErrorBody)

  /** What one attempt of a request produced. */
  datatype Attempt<T> = Timeout | ConnectionFailure | Replied(reply: Reply<T>)

  /** The attempts that are retried. */
  predicate Transient<T>(a: Attempt<T>)
  {
    a.Timeout? || a.ConnectionFailure?
  }

  function RetriesExceeded(endpoint: string): ApiError
  {
    ApiError(Generic, "Max retries (3) exceeded for endpoint: " + endpoint, None, None, None)
  }

  function ReplyOutcome<T>(reply: Reply<T>): (r: Result<T, ApiError>)
    ensures r.Ok? <==> reply.Answer?
    ensures reply.Answer? ==> r.value == reply.body
    ensures reply.ErrorReply? ==> r.error == HandleError(reply.error)
  {
    match reply
    case Answer(body) => Ok(body)
    case ErrorReply(error) => Err(HandleError(error))
  }

  /** The outcome of a request from attempt number `retries` on, attempt `i` producing `attempt(i)`. */
  function RequestFrom<T>(endpoint: string, attempt: nat -> Attempt<T>, retries: nat): Result<T, ApiError>
    decreases MaxRetries - retries
  {
    if retries >= MaxRetries then Err(RetriesExceeded(endpoint))
    else if Transient(attempt(retries)) then RequestFrom(endpoint, attempt, retries + 1)
    else ReplyOutcome(attempt(retries).reply)
  }

  /** How many attempts the request makes from attempt number `retries` on. */
  function AttemptsFrom<T>(attempt: nat -> Attempt<T>, retries: nat): (n: nat)
    requires retries <= MaxRetries
    ensures retries <= n <= MaxRetries
    decreases MaxRetries - retries
  {
    if retries == MaxRetries then MaxRetries
    else if Transient(attempt(retries)) then AttemptsFrom(attempt, retries + 1)
    else retries + 1
  }

  /** Send a request, retrying timeouts and connection failures. */
  method MakeRequest<T>(endpoint: string, attempt: nat -> Attempt<T>) returns (r: Result<T, ApiError>, sent: nat)
    ensures r == RequestFrom(endpoint, attempt, 0)
    ensures sent == AttemptsFrom(attempt, 0) && 1 <= sent <= MaxRetries
  {
    var retries: nat := 0;
    while retries < MaxRetries
      invariant retries <= MaxRetries
      invariant RequestFrom(endpoint, attempt, retries) == RequestFrom(endpoint, attempt, 0)
      invariant AttemptsFrom(attempt, retries) == AttemptsFrom(attempt, 0)
      decreases MaxRetries - retries
    {
      match attempt(retries)
      case Replied(reply) =>
        match reply {
          case Answer(body) => return Ok(body), retries + 1;
          case ErrorReply(error) => return Err(HandleError(error)), retries + 1;
        }
      case _ =>
        retries := retries + 1;
    }
    return Err(RetriesExceeded(endpoint)), MaxRetries;
  }

  /** Only a run of retried attempts to the end makes the request give up. */
  lemma {:induction false} GivesUpAfterRetries<T>(endpoint: string, attempt: nat -> Attempt<T>, retries: nat)
    requires retries <= MaxRetries
    requires forall i :: retries <= i < MaxRetries ==> Transient(attempt(i))
    ensures RequestFrom(endpoint, attempt, retries) == Err(RetriesExceeded(endpoint))
    ensures AttemptsFrom(attempt, retries) == MaxRetries
    decreases MaxRetries - retries
  {
    if retries < MaxRetries {
      GivesUpAfterRetries(endpoint, attempt, retries + 1);
    }
  }

  /** The first attempt that is not retried decides the request, and no attempt is made after it. */
  lemma {:induction false} FirstReplyDecides<T>(endpoint: string, attempt: nat -> Attempt<T>, retries: nat, k: nat)
    requires retries <= k < MaxRetries
    requires forall i :: retries <= i < k ==> Transient(attempt(i))
    requires !Transient(attempt(k))
    ensures RequestFrom(endpoint, attempt, retries) == ReplyOutcome(attempt(k).reply)
    ensures AttemptsFrom(attempt, retries) == k + 1
    decreases k - retries
  {
    if retries < k {
      FirstReplyDecides(endpoint, attempt, retries + 1, k);
    }
  }

  // ---------------------------------------------------------------------------
  // Comment pages
  // ---------------------------------------------------------------------------

  /** One page of a comments response: its data, whether a next page is announced and the `after` cursor. */
  datatype Page<T> = Page(data: seq<T>, hasNext: bool, after: Option<string>)

  /** The parameters that vary between the page requests of one call. */
  datatype PageRequest = PageRequest(pageSize: int, after: Option<string>)

  function PageSize(limit: int): (n: int)
    ensures n <= MaxPageSize && n <= limit
    ensures n == limit || n == MaxPageSize
  {
    Min(limit, MaxPageSize)
  }

  /** `s[:n]` with Python's slicing: a negative `n` counts from the end. */
  function Take<T>(s: seq<T>, n: int): (r: seq<T>)
    ensures r <= s
    ensures n >= 0 ==> |r| == Min(n, |s|)
    ensures n < 0 ==> |r| == if |s| + n >= 0 then |s| + n else 0
  {
    if n >= 0 then (if n <= |s| then s[..n] else s)
    else if |s| + n >= 0 then s[..|s| + n]
    else []
  }

  /** The comments gathered after `page`, `all` holding those gathered so far; a failed page request fails the call. */
  function CollectFrom<T>(limit: int, fetch: PageRequest -> Result<Page<T>, ApiError>,
                          all: seq<T>, page: Page<T>): Result<seq<T>, ApiError>
    decreases limit - |all|
  {
    if !page.hasNext || |all| >= limit || !Given(page.after) then Ok(all)
    else
      match fetch(PageRequest(PageSize(limit), page.after))
      case Err(e) => Err(e)
      case Ok(next) =>
        if next.data == [] then Ok(all)
        else CollectFrom(limit, fetch, all + next.data, next)
  }

  /** The comments of a post, at most `limit` of them. */
  function PostComments<T>(limit: int, fetch: PageRequest -> Result<Page<T>, ApiError>): Result<seq<T>, ApiError>
  {
    match fetch(PageRequest(PageSize(limit), None))
    case Err(e) => Err(e)
    case Ok(first) =>
      match CollectFrom(limit, fetch, first.data, first)
      case Err(e) => Err(e)
      case Ok(all) => Ok(Take(all, limit))
  }

  /** Fetch a post's comments page by page. */
  method GetPostComments<T>(limit: int, fetch: PageRequest -> Result<Page<T>, ApiError>) returns (r: Result<seq<T>, ApiError>)
    ensures r == PostComments(limit, fetch)
  {
    var size := Min(limit, MaxPageSize);
    var first := fetch(PageRequest(size, None));
    if first.Err? {
      return Err(first.error);
    }
    var response := first.value;
    var all := response.data;
    while response.hasNext && |all| < limit
      invariant CollectFrom(limit, fetch, all, response) == CollectFrom(limit, fetch, first.value.data, first.value)
      decreases limit - |all|
    {
      if !Given(response.after) {
        break;
      }
      var next := fetch(PageRequest(size, response.after));
      if next.Err? {
        return Err(next.error);
      }
      if next.value.data == [] {
        break;
      }
      response := next.value;
      all := all + response.data;
    }
    return Ok(Take(all, limit));
  }

  /** The pages only ever extend what the first pages gathered. */
  lemma {:induction false} CollectFromExtends<T>(limit: int, fetch: PageRequest -> Result<Page<T>, ApiError>,
                                                  all: seq<T>, page: Page<T>)
    ensures CollectFrom(limit, fetch, all, page).Ok? ==> all <= CollectFrom(limit, fetch, all, page).value
    decreases limit - |all|
  {
    if page.hasNext && |all| < limit && Given(page.after) {
      var next := fetch(PageRequest(PageSize(limit), page.after));
      if next.Ok? && next.value.data != [] {
        CollectFromExtends(limit, fetch, all + next.value.data, next.value);
      }
    }
  }

  /** A call returns at most `limit` comments, the first page's comments first and in order. */
  lemma PostCommentsBounded<T>(limit: int, fetch: PageRequest -> Result<Page<T>, ApiError>)
    requires limit >= 0
    ensures PostComments(limit, fetch).Ok? ==> |PostComments(limit, fetch).value| <= limit
    ensures PostComments(limit, fetch).Ok? && fetch(PageRequest(PageSize(limit), None)).Ok? ==>
      var firstData := fetch(PageRequest(PageSize(limit), None)).value.data;
      PostComments(limit, fetch).value <= firstData || firstData <= PostComments(limit, fetch).value
  {
    var first := fetch(PageRequest(PageSize(limit), None));
    if first.Ok? {
      CollectFromExtends(limit, fetch, first.value.data, first.value);
    }
  }

  // ---------------------------------------------------------------------------
  // Replies
  // ---------------------------------------------------------------------------

  /** The text a reply posts: none for an empty or blank message, else the message cut to the limit. */
  function ReplyText(message: string): (r: Option<string>)
    ensures r.None? <==> forall i :: 0 <= i < |message| ==> IsSpace(message[i])
    ensures r.Some? ==> r.value <= message && |r.value| == Min(|message|, MaxReplyLength)
  {
    StripEmptyIffBlank(message);
    if message == [] || Strip(message) == [] then None
    else if |message| > MaxReplyLength then Some(message[..MaxReplyLength])
    else Some(message)
  }

  /** Why a reply was not posted. */
  datatype ReplyError = EmptyMessage | RequestFailed(error: ApiError)

  /** A reply to a comment: a blank message is refused before any request is made. */
  function ReplyToComment<T>(commentId: string, message: string,
                             attempt: string -> nat -> Attempt<T>): (r: Result<T, ReplyError>)
    ensures r == Err(EmptyMessage) <==> ReplyText(message).None?
  {
    match ReplyText(message)
    case None => Err(EmptyMessage)
    case Some(text) =>
      match RequestFrom("/" + commentId + "/comments", attempt(text), 0)
      case Ok(body) => Ok(body)
      case Err(e) => Err(RequestFailed(e))
  }

  // ---------------------------------------------------------------------------
  // Storage records
  // ---------------------------------------------------------------------------

  /** A comment as the Graph API returns it; `from` and `parent` are objects, empty when absent. */
  datatype FetchedComment = FetchedComment(id: Option<string>, message: Option<string>,
                                           createdTime: Option<string>,
                                           from: map<string, string>, parent: map<string, string>)

  /** The row a fetched comment is inserted as. */
  datatype StoredComment = StoredComment(
    fbCommentId: Option<string>, parentCommentId: Option<string>, threadDepth: nat,
    fbPostId: string, postType: Option<string>, campaignName: Option<string>,
    adSetName: Option<string>, adName: Option<string>,
    commenterName: string, commenterFbId: Option<string>,
    commentText: string, commentTime: Option<string>, replyStatus: string)

  function Lookup(m: map<string, string>, key: string): Option<string>
  {
    if key in m then Some(m[key]) else None
  }

  function FormatCommentForStorage(c: FetchedComment, postId: string, postType: Option<string>,
                                   campaignName: Option<string>, adSetName: Option<string>,
                                   adName: Option<string>): (r: StoredComment)
    ensures r.threadDepth == 1 <==> c.parent != map[]
    ensures r.threadDepth <= 1
    ensures r.parentCommentId.Some? ==> r.threadDepth == 1 && r.parentCommentId.value in c.parent.Values
    ensures c.parent != map[] && "id" in c.parent ==> r.parentCommentId == Some(c.parent["id"])
    ensures r.fbCommentId == c.id && r.fbPostId == postId && r.commentTime == c.createdTime
    ensures r.postType == postType && r.campaignName == campaignName
    ensures r.adSetName == adSetName && r.adName == adName
    ensures r.commenterName == if "name" in c.from then c.from["name"] else "Unknown"
    ensures r.commenterFbId == Lookup(c.from, "id")
    ensures r.commentText == c.message.UnwrapOr("")
    ensures r.replyStatus == "pending"
  {
    var hasParent := c.parent != map[];
    StoredComment(
      c.id,
      if hasParent then Lookup(c.parent, "id") else None,
      if hasParent then 1 else 0,
      postId, postType, campaignName, adSetName, adName,
      Lookup(c.from, "name").UnwrapOr("Unknown"),
      Lookup(c.from, "id"),
      c.message.UnwrapOr(""),
      c.createdTime,
      "pending")
  }
}
