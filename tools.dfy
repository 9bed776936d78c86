/**
  The `CallToolRequestSchema` handler on values: what each tool answers, the
  user cache it leaves behind and the requests it sends, given the arguments,
  the cache before the call and the backend. A thrown error is the `ErrorText`
  result "Error: " + message that the handler's `catch` returns with
  `isError: true`.
*/
module Tools {
  import opened Wrappers
  import opened JsText
  import opened Mattermost
  import opened Enrichment
  import Client

  /** The user record of `get_current_user` and `get_user_info`. */
  datatype UserDetails = UserDetails(id: Id, username: string, email: string, firstName: string,
                                     lastName: string, nickname: string, fullName: string)

  /** `found_user` of `search_user_messages`. */
  datatype FoundUser = FoundUser(id: Id, username: string, name: string)

  /** One entry of the `users` list of `search_users`. */
  datatype UserSummary = UserSummary(id: Id, username: string, name: string, nickname: string)

  /** The JSON object a successful tool call returns as its text content. */
  datatype Payload =
    | Profile(user: UserDetails)
    | UserNotFound(userId: Option<ArgValue>)
    | SearchResults(totalCount: nat, posts: seq<OutPost>)
    | UserMessages(foundUser: FoundUser, totalCount: nat, posts: seq<OutPost>)
    | NoSuchUser(error: string, totalCount: nat, posts: seq<OutPost>)
    | UserList(totalCount: nat, users: seq<UserSummary>)
    | Forwarded(document: string)
    | ChannelMessages(channelId: Option<ArgValue>, posts: seq<OutPost>)
    | Thread(posts: seq<OutPost>)

  /** The tool result: a JSON payload, or the error text of a result with `isError: true`. */
  datatype CallResult = Content(payload: Payload) | ErrorText(text: string)

  /** One tool call: its result, the user cache after it and the requests it sent, in order. */
  datatype Outcome = Outcome(result: CallResult, cache: map<Id, User>, sent: seq<Request>)

  const ToolNames := {"get_current_user", "get_user_info", "search_messages", "search_user_messages",
                      "search_users", "get_teams", "get_channels", "get_channel_messages", "get_post_thread"}

  /** The `catch` of the handler: `Error: ${error.message}`. */
  function ErrorResult(e: ToolError): CallResult {
    ErrorText("Error: " + ErrorMessage(e))
  }

  function Fail(e: ToolError, cache: map<Id, User>, sent: seq<Request>): Outcome {
    Outcome(ErrorResult(e), cache, sent)
  }

  /** The user fields both profile tools report; `email || ""` for the optional email. */
  function Details(u: User): (d: UserDetails)
    ensures d.fullName == DisplayName(u)
    ensures u.username != "" ==> d.fullName != ""
  {
    UserDetails(u.id, u.username, if u.email.Some? then u.email.value else "",
                u.firstName, u.lastName, u.nickname, DisplayName(u))
  }

  // ----- Enrichment of a reply that lists posts -----

  /** The enriched posts (or the error thrown on the way), the cache after and the requests sent. */
  datatype Enriched = Enriched(posts: Result<seq<OutPost>, ToolError>, cache: map<Id, User>, sent: seq<Request>)

  /** Resolve the authors of the list, then reshape its posts. */
  function EnrichList(list: PostList, cache: map<Id, User>, backend: Backend, shape: Shape): Enriched {
    match AuthorIds(list)
    case Failure(e) => Enriched(Failure(e), cache, [])
    case Success(ids) =>
      var r := Client.UsersInfoSpec(cache, backend, ids);
      var order := if list.order.Some? then list.order.value else [];
      Enriched(Success(Reshape(order, list.posts, r.users, shape)), r.cache, r.sent)
  }

  /** A reply that lists posts: a REST error is thrown, a list is enriched. */
  function FetchAndEnrich(reply: Reply<PostList>, cache: map<Id, User>, backend: Backend, shape: Shape): Enriched {
    match reply
    case HttpError(status, statusText) => Enriched(Failure(ApiError(status, statusText)), cache, [])
    case Ok(list) => EnrichList(list, cache, backend, shape)
  }

  // ----- The tools -----

  function GetCurrentUser(cache: map<Id, User>, backend: Backend): Outcome {
    match backend.userAt(MeEndpoint)
    case HttpError(status, statusText) => Fail(ApiError(status, statusText), cache, [Get(MeEndpoint)])
    case Ok(me) => Outcome(Content(Profile(Details(me))), cache, [Get(MeEndpoint)])
  }

  function GetUserInfo(args: map<string, ArgValue>, cache: map<Id, User>, backend: Backend): Outcome {
    var userId := Arg(args, "user_id");
    var step := Client.GetUserSpec(cache, backend, AsText(userId));
    match step.user
    case None => Outcome(Content(UserNotFound(userId)), step.cache, step.sent)
    case Some(u) => Outcome(Content(Profile(Details(u))), step.cache, step.sent)
  }

  function SearchMessages(args: map<string, ArgValue>, cache: map<Id, User>, backend: Backend): Outcome {
    var query := Arg(args, "query");
    var isOrSearch := Or(Arg(args, "is_or_search"), Bool(false));
    var e := FetchAndEnrich(backend.searchPosts(query, isOrSearch), cache, backend, Full);
    var sent := [SearchPostsRequest(query, isOrSearch)] + e.sent;
    match e.posts
    case Failure(err) => Fail(err, e.cache, sent)
    case Success(posts) => Outcome(Content(SearchResults(|posts|, posts)), e.cache, sent)
  }

  /** The post search of `search_user_messages`: `from:<username>`, followed by
      a space and the keyword when the keyword is truthy. */
  function UserQuery(username: string, keyword: ArgValue): (r: string)
    ensures |r| >= 5 + |username| && r[..5 + |username|] == "from:" + username
    ensures |r| == 5 + |username| <==> !Truthy(Some(keyword))
    ensures Truthy(Some(keyword)) ==> r[5 + |username|..] == " " + AsText(Some(keyword))
  {
    if Truthy(Some(keyword)) then "from:" + username + " " + AsText(Some(keyword))
    else "from:" + username
  }

  /** The error text of `search_user_messages` when no user matches. */
  function NoSuchUserText(userName: Option<ArgValue>): string {
    "사용자 '" + AsText(userName) + "'를 찾을 수 없습니다."
  }

  /** The message search for the first matched user. */
  function MessagesOf(user: User, keyword: ArgValue, cache: map<Id, User>, backend: Backend): Outcome {
    var terms := Some(Str(UserQuery(user.username, keyword)));
    var e := FetchAndEnrich(backend.searchPosts(terms, Bool(false)), cache, backend, Full);
    var sent := [SearchPostsRequest(terms, Bool(false))] + e.sent;
    match e.posts
    case Failure(err) => Fail(err, e.cache, sent)
    case Success(posts) =>
      Outcome(Content(UserMessages(FoundUser(user.id, user.username, ShortName(user)), |posts|, posts)),
              e.cache, sent)
  }

  /** `search_user_messages`: the user by username, else the first of a user
      search; no user ends the call with the "not found" payload. */
  function SearchUserMessages(args: map<string, ArgValue>, cache: map<Id, User>, backend: Backend): Outcome {
    var userName := Arg(args, "user_name");
    var keyword := Or(Arg(args, "keyword"), Str(""));
    var byName := Get(UserByNameEndpoint(AsText(userName)));
    match backend.userAt(UserByNameEndpoint(AsText(userName)))
    case Ok(user) =>
      var o := MessagesOf(user, keyword, cache, backend);
      Outcome(o.result, o.cache, [byName] + o.sent)
    case HttpError(_, _) =>
      var before := [byName, SearchUsersRequest(userName)];
      match backend.searchUsers(userName)
      case HttpError(status, statusText) => Fail(ApiError(status, statusText), cache, before)
      case Ok(users) =>
        if |users| == 0 then Outcome(Content(NoSuchUser(NoSuchUserText(userName), 0, [])), cache, before)
        else
          var o := MessagesOf(users[0], keyword, cache, backend);
          Outcome(o.result, o.cache, before + o.sent)
  }

  function Summaries(users: seq<User>): (r: seq<UserSummary>)
    ensures |r| == |users|
  {
    seq(|users|, i requires 0 <= i < |users| =>
      UserSummary(users[i].id, users[i].username, ShortName(users[i]), users[i].nickname))
  }

  function SearchUsers(args: map<string, ArgValue>, cache: map<Id, User>, backend: Backend): Outcome {
    var term := Arg(args, "search_term");
    match backend.searchUsers(term)
    case HttpError(status, statusText) => Fail(ApiError(status, statusText), cache, [SearchUsersRequest(term)])
    case Ok(users) => Outcome(Content(UserList(|users|, Summaries(users))), cache, [SearchUsersRequest(term)])
  }

  /** `get_teams` and `get_channels`: the REST body passed on as it is. */
  function ForwardDocument(endpoint: string, cache: map<Id, User>, backend: Backend): Outcome {
    match backend.documentAt(endpoint)
    case HttpError(status, statusText) => Fail(ApiError(status, statusText), cache, [Get(endpoint)])
    case Ok(document) => Outcome(Content(Forwarded(document)), cache, [Get(endpoint)])
  }

  /** The page requested by `get_channel_messages`: `page || 0` and `per_page || 60`. */
  function ChannelPage(args: map<string, ArgValue>): string {
    ChannelPostsEndpoint(AsText(Arg(args, "channel_id")), Or(Arg(args, "page"), Num(0)),
                         Or(Arg(args, "per_page"), Num(60)))
  }

  function GetChannelMessages(args: map<string, ArgValue>, cache: map<Id, User>, backend: Backend): Outcome {
    var endpoint := ChannelPage(args);
    var e := FetchAndEnrich(backend.postsAt(endpoint), cache, backend, Compact);
    var sent := [Get(endpoint)] + e.sent;
    match e.posts
    case Failure(err) => Fail(err, e.cache, sent)
    case Success(posts) => Outcome(Content(ChannelMessages(Arg(args, "channel_id"), posts)), e.cache, sent)
  }

  function GetPostThread(args: map<string, ArgValue>, cache: map<Id, User>, backend: Backend): Outcome {
    var endpoint := ThreadEndpoint(AsText(Arg(args, "post_id")));
    var e := FetchAndEnrich(backend.postsAt(endpoint), cache, backend, Compact);
    var sent := [Get(endpoint)] + e.sent;
    match e.posts
    case Failure(err) => Fail(err, e.cache, sent)
    case Success(posts) => Outcome(Content(Thread(posts)), e.cache, sent)
  }

  /** The `case`s of the handler's `switch (name)`, and the `default` for any other name. */
  datatype Tool =
    | GetCurrentUserTool | GetUserInfoTool | SearchMessagesTool | SearchUserMessagesTool | SearchUsersTool
    | GetTeamsTool | GetChannelsTool | GetChannelMessagesTool | GetPostThreadTool
    | OtherTool(name: string)

  /** The name each known tool is called by. */
  function ToolName(t: Tool): string {
    match t
    case GetCurrentUserTool => "get_current_user"
    case GetUserInfoTool => "get_user_info"
    case SearchMessagesTool => "search_messages"
    case SearchUserMessagesTool => "search_user_messages"
    case SearchUsersTool => "search_users"
    case GetTeamsTool => "get_teams"
    case GetChannelsTool => "get_channels"
    case GetChannelMessagesTool => "get_channel_messages"
    case GetPostThreadTool => "get_post_thread"
    case OtherTool(name) => name
  }

  /** The `case` a tool name selects. */
  function ToolOf(name: string): (t: Tool)
    ensures t.OtherTool? <==> name !in ToolNames
    ensures ToolName(t) == name
  {
    if name == "get_current_user" then GetCurrentUserTool
    else if name == "get_user_info" then GetUserInfoTool
    else if name == "search_messages" then SearchMessagesTool
    else if name == "search_user_messages" then SearchUserMessagesTool
    else if name == "search_users" then SearchUsersTool
    else if name == "get_teams" then GetTeamsTool
    else if name == "get_channels" then GetChannelsTool
    else if name == "get_channel_messages" then GetChannelMessagesTool
    else if name == "get_post_thread" then GetPostThreadTool
    else OtherTool(name)
  }

  /** The body of each `case`, and the `default` that throws "Unknown tool". */
  function Run(tool: Tool, args: map<string, ArgValue>, cache: map<Id, User>, backend: Backend): Outcome {
    match tool
    case GetCurrentUserTool => GetCurrentUser(cache, backend)
    case GetUserInfoTool => GetUserInfo(args, cache, backend)
    case SearchMessagesTool => SearchMessages(args, cache, backend)
    case SearchUserMessagesTool => SearchUserMessages(args, cache, backend)
    case SearchUsersTool => SearchUsers(args, cache, backend)
    case GetTeamsTool => ForwardDocument(TeamsEndpoint, cache, backend)
    case GetChannelsTool => ForwardDocument(TeamChannelsEndpoint(AsText(Arg(args, "team_id"))), cache, backend)
    case GetChannelMessagesTool => GetChannelMessages(args, cache, backend)
    case GetPostThreadTool => GetPostThread(args, cache, backend)
    case OtherTool(name) => Fail(UnknownTool(name), cache, [])
  }

  /** The handler: arguments are required first, then the tool is chosen by name. */
  function Dispatch(name: string, args: Option<map<string, ArgValue>>, cache: map<Id, User>,
                    backend: Backend): Outcome
  {
    match args
    case None => Fail(MissingArguments, cache, [])
    case Some(a) => Run(ToolOf(name), a, cache, backend)
  }

  // ----- Properties -----

  /** Every known tool is selected by its own name, so each `case` is reachable. */
  lemma ToolNamesSelect(t: Tool)
    requires t.OtherTool? ==> t.name !in ToolNames
    ensures ToolOf(ToolName(t)) == t
    ensures t.OtherTool? || ToolName(t) in ToolNames
  {
  }

  /** Missing arguments are reported before the tool name is looked at, whatever
      the name, and nothing is sent. */
  lemma MissingArgumentsFirst(name: string, cache: map<Id, User>, backend: Backend)
    ensures Dispatch(name, None, cache, backend) == Outcome(ErrorText("Error: " + "Arguments are required"), cache, [])
  {
  }

  /** An unknown tool name is an error result that names the tool, and nothing is sent. */
  lemma UnknownToolNamed(name: string, args: map<string, ArgValue>, cache: map<Id, User>, backend: Backend)
    requires name !in ToolNames
    ensures Dispatch(name, Some(args), cache, backend)
              == Outcome(ErrorText("Error: " + ("Unknown tool: " + name)), cache, [])
  {
  }

  /** Resolving the authors of a listing only adds to the cache. */
  lemma FetchAndEnrichKeepsCache(reply: Reply<PostList>, cache: map<Id, User>, backend: Backend, shape: Shape)
    ensures var c := FetchAndEnrich(reply, cache, backend, shape).cache;
            forall id :: id in cache ==> id in c && c[id] == cache[id]
  {
    if reply.Ok? && AuthorIds(reply.body).Success? {
      Client.UsersInfoCache(cache, backend, AuthorIds(reply.body).value);
    }
  }

  /** `get_current_user` and `get_user_info` report the display name as
      `full_name`, which is non-empty whenever the username is. */
  lemma ProfileFullName(args: map<string, ArgValue>, cache: map<Id, User>, backend: Backend)
    ensures forall r :: r == GetCurrentUser(cache, backend).result || r == GetUserInfo(args, cache, backend).result ==>
              r.Content? && r.payload.Profile? && r.payload.user.username != "" ==> r.payload.user.fullName != ""
  {
  }

  /** `get_user_info` on an id that resolves to no user answers with the
      "User not found" payload naming the id, not with an error result; on one
      that resolves to a user it reports that user. */
  lemma UserInfoResolved(args: map<string, ArgValue>, cache: map<Id, User>, backend: Backend)
    ensures var user := Client.Resolve(cache, backend, AsText(Arg(args, "user_id")));
            GetUserInfo(args, cache, backend).result
              == if user.None? then Content(UserNotFound(Arg(args, "user_id"))) else Content(Profile(Details(user.value)))
  {
    Client.GetUserResolves(cache, backend, AsText(Arg(args, "user_id")));
  }

  /** `search_messages` reports as `total_count` the number of posts it returns,
      which is the length of the `order` of the search reply. */
  lemma SearchResultsCounted(args: map<string, ArgValue>, cache: map<Id, User>, backend: Backend, list: PostList)
    requires backend.searchPosts(Arg(args, "query"), Or(Arg(args, "is_or_search"), Bool(false))) == Ok(list)
    ensures var r := SearchMessages(args, cache, backend).result;
            r.Content? ==> r.payload.SearchResults?
                           && r.payload.totalCount == |r.payload.posts|
                           && |r.payload.posts| == (if list.order.Some? then |list.order.value| else 0)
  {
  }

  /** `search_user_messages` with no user by that username and an empty user
      search answers with the "not found" payload, and no post search is sent. */
  lemma NoMatchingUser(args: map<string, ArgValue>, cache: map<Id, User>, backend: Backend)
    requires backend.userAt(UserByNameEndpoint(AsText(Arg(args, "user_name")))).HttpError?
    requires backend.searchUsers(Arg(args, "user_name")) == Ok([])
    ensures var o := SearchUserMessages(args, cache, backend);
            && o.result == Content(NoSuchUser(NoSuchUserText(Arg(args, "user_name")), 0, []))
            && o.cache == cache
            && forall k :: 0 <= k < |o.sent| ==> !o.sent[k].SearchPostsRequest?
  {
  }

  /** `search_user_messages` searches the posts of the first matched user only:
      the one user found by username, else the first of the user search. The
      search is `from:<username>[ <keyword>]`, not an OR search, and comes after
      the lookups; `found_user` is that user with the short name. */
  lemma FirstMatchedUser(args: map<string, ArgValue>, cache: map<Id, User>, backend: Backend, user: User)
    requires match backend.userAt(UserByNameEndpoint(AsText(Arg(args, "user_name"))))
             case Ok(u) => u == user
             case HttpError(_, _) =>
               backend.searchUsers(Arg(args, "user_name")).Ok?
               && |backend.searchUsers(Arg(args, "user_name")).body| > 0
               && backend.searchUsers(Arg(args, "user_name")).body[0] == user
    ensures var o := SearchUserMessages(args, cache, backend);
            var n := if backend.userAt(UserByNameEndpoint(AsText(Arg(args, "user_name")))).Ok? then 1 else 2;
            var query := UserQuery(user.username, Or(Arg(args, "keyword"), Str("")));
            && |o.sent| > n
            && o.sent[n] == SearchPostsRequest(Some(Str(query)), Bool(false))
            && (o.result.Content? ==>
                  o.result.payload.UserMessages?
                  && o.result.payload.totalCount == |o.result.payload.posts|
                  && o.result.payload.foundUser == FoundUser(user.id, user.username, ShortName(user)))
  {
  }

  /** `get_channel_messages` asks first for the page of `ChannelPage` and
      echoes the `channel_id` argument in its payload. */
  lemma ChannelMessagesRequest(args: map<string, ArgValue>, cache: map<Id, User>, backend: Backend)
    ensures var o := GetChannelMessages(args, cache, backend);
            && |o.sent| > 0 && o.sent[0] == Get(ChannelPage(args))
            && (o.result.Content? ==> o.result.payload == ChannelMessages(Arg(args, "channel_id"), o.result.payload.posts))
  {
  }

  /** Without a truthy `page` or `per_page` (absent, or 0) the first page of 60
      posts is requested. */
  lemma ChannelPageDefaults(args: map<string, ArgValue>)
    requires !Truthy(Arg(args, "page")) && !Truthy(Arg(args, "per_page"))
    ensures ChannelPage(args) == "/channels/" + AsText(Arg(args, "channel_id")) + "/posts?page=0&per_page=60"
  {
    assert IntToString(0) == "0";
    assert IntToString(60) == "60";
  }

  /** An explicit `per_page` of 0 is falsy and becomes 60. */
  lemma ZeroPerPageIsDefault(args: map<string, ArgValue>)
    requires Arg(args, "per_page") == Some(Num(0))
    ensures ChannelPage(args) == ChannelPage(args["per_page" := Num(60)])
  {
  }

  /** `search_users` lists every user the search returns, in the same order,
      under the short name (no fall-back to the username), with `total_count`
      the number of users; it reads no user record and leaves the cache alone. */
  lemma SearchUsersListed(args: map<string, ArgValue>, cache: map<Id, User>, backend: Backend, users: seq<User>)
    requires backend.searchUsers(Arg(args, "search_term")) == Ok(users)
    ensures var o := SearchUsers(args, cache, backend);
            && o.cache == cache
            && o.sent == [SearchUsersRequest(Arg(args, "search_term"))]
            && o.result.Content? && o.result.payload.UserList?
            && o.result.payload.totalCount == |o.result.payload.users| == |users|
            && forall i :: 0 <= i < |users| ==>
                 var s := o.result.payload.users[i];
                 s.id == users[i].id && s.username == users[i].username
                 && s.name == ShortName(users[i]) && s.nickname == users[i].nickname
  {
  }
}
