/**
  The `CallToolRequestSchema` handler run against the one `MattermostClient`
  the server holds: each tool calls the client's methods in the order the
  handler awaits them, so its user cache and request log change as the
  handler leaves them. Each method is proved to answer, cache and send
  exactly what the tool's function in `Tools` says. An early `return` of an
  error result stands for a throw that reaches the handler's `catch`.
*/
module Server {
  import opened Wrappers
  import opened Mattermost
  import opened Enrichment
  import opened Tools
  import opened Client

  /** The enrichment block: distinct authors, `getUsersInfo`, then `order.map`. */
  method EnrichReply(client: MattermostClient, backend: Backend, reply: Reply<PostList>, shape: Shape)
    returns (posts: Result<seq<OutPost>, ToolError>)
    modifies client
    ensures var e := FetchAndEnrich(reply, old(client.userCache), backend, shape);
            posts == e.posts && client.userCache == e.cache && client.sent == old(client.sent) + e.sent
  {
    if reply.HttpError? {
      return Failure(ApiError(reply.status, reply.statusText));
    }
    var list := reply.body;
    var ids := AuthorIds(list);
    if ids.Failure? {
      return Failure(ids.error);
    }
    AuthorIdsSpec(list);
    var userMap := client.GetUsersInfo(backend, ids.value);
    var order := if list.order.Some? then list.order.value else [];
    posts := Success(Reshape(order, list.posts, userMap, shape));
  }

  method GetCurrentUserCall(client: MattermostClient, backend: Backend) returns (result: CallResult)
    modifies client
    ensures var o := GetCurrentUser(old(client.userCache), backend);
            result == o.result && client.userCache == o.cache && client.sent == old(client.sent) + o.sent
  {
    var reply := client.GetMe(backend);
    match reply
    case HttpError(status, statusText) => result := ErrorResult(ApiError(status, statusText));
    case Ok(me) => result := Content(Profile(Details(me)));
  }

  method GetUserInfoCall(client: MattermostClient, backend: Backend, args: map<string, ArgValue>)
    returns (result: CallResult)
    modifies client
    ensures var o := GetUserInfo(args, old(client.userCache), backend);
            result == o.result && client.userCache == o.cache && client.sent == old(client.sent) + o.sent
  {
    var userId := Arg(args, "user_id");
    var user := client.GetUser(backend, AsText(userId));
    match user
    case None => result := Content(UserNotFound(userId));
    case Some(u) => result := Content(Profile(Details(u)));
  }

  method SearchMessagesCall(client: MattermostClient, backend: Backend, args: map<string, ArgValue>)
    returns (result: CallResult)
    modifies client
    ensures var o := SearchMessages(args, old(client.userCache), backend);
            result == o.result && client.userCache == o.cache && client.sent == old(client.sent) + o.sent
  {
    var query := Arg(args, "query");
    var isOrSearch := Or(Arg(args, "is_or_search"), Bool(false));
    AppendAssoc(client.sent, [SearchPostsRequest(query, isOrSearch)],
                FetchAndEnrich(backend.searchPosts(query, isOrSearch), client.userCache, backend, Full).sent);
    var reply := client.SearchPosts(backend, query, isOrSearch);
    var posts := EnrichReply(client, backend, reply, Full);
    match posts
    case Failure(e) => result := ErrorResult(e);
    case Success(ps) => result := Content(SearchResults(|ps|, ps));
  }

  /** The second half of `search_user_messages`, once a user has been matched. */
  method MessagesOfCall(client: MattermostClient, backend: Backend, user: User, keyword: ArgValue)
    returns (result: CallResult)
    modifies client
    ensures var o := MessagesOf(user, keyword, old(client.userCache), backend);
            result == o.result && client.userCache == o.cache && client.sent == old(client.sent) + o.sent
  {
    var terms := Some(Str(UserQuery(user.username, keyword)));
    AppendAssoc(client.sent, [SearchPostsRequest(terms, Bool(false))],
                FetchAndEnrich(backend.searchPosts(terms, Bool(false)), client.userCache, backend, Full).sent);
    var reply := client.SearchPosts(backend, terms, Bool(false));
    var posts := EnrichReply(client, backend, reply, Full);
    match posts
    case Failure(e) => result := ErrorResult(e);
    case Success(ps) =>
      result := Content(UserMessages(FoundUser(user.id, user.username, ShortName(user)), |ps|, ps));
  }

  method SearchUserMessagesCall(client: MattermostClient, backend: Backend, args: map<string, ArgValue>)
    returns (result: CallResult)
    modifies client
    ensures var o := SearchUserMessages(args, old(client.userCache), backend);
            result == o.result && client.userCache == o.cache && client.sent == old(client.sent) + o.sent
  {
    var userName := Arg(args, "user_name");
    var keyword := Or(Arg(args, "keyword"), Str(""));
    ghost var s0 := client.sent;
    ghost var lookup := Get(UserByNameEndpoint(AsText(userName)));
    ghost var before: seq<Request> := [lookup];
    var byName := client.GetUserByUsername(backend, AsText(userName));
    var users: seq<User>;
    if byName.Ok? {
      users := [byName.body];
    } else {
      var found := client.SearchUsers(backend, userName);
      AppendAssoc(s0, [lookup], [SearchUsersRequest(userName)]);
      before := [lookup, SearchUsersRequest(userName)];
      if found.HttpError? {
        return ErrorResult(ApiError(found.status, found.statusText));
      }
      users := found.body;
    }
    assert client.sent == s0 + before;
    if |users| == 0 {
      return Content(NoSuchUser(NoSuchUserText(userName), 0, []));
    }
    AppendAssoc(s0, before, MessagesOf(users[0], keyword, client.userCache, backend).sent);
    result := MessagesOfCall(client, backend, users[0], keyword);
  }

  method SearchUsersCall(client: MattermostClient, backend: Backend, args: map<string, ArgValue>)
    returns (result: CallResult)
    modifies client
    ensures var o := SearchUsers(args, old(client.userCache), backend);
            result == o.result && client.userCache == o.cache && client.sent == old(client.sent) + o.sent
  {
    var reply := client.SearchUsers(backend, Arg(args, "search_term"));
    match reply
    case HttpError(status, statusText) => result := ErrorResult(ApiError(status, statusText));
    case Ok(users) => result := Content(UserList(|users|, Summaries(users)));
  }

  method GetTeamsCall(client: MattermostClient, backend: Backend) returns (result: CallResult)
    modifies client
    ensures var o := ForwardDocument(TeamsEndpoint, old(client.userCache), backend);
            result == o.result && client.userCache == o.cache && client.sent == old(client.sent) + o.sent
  {
    var reply := client.GetTeams(backend);
    match reply
    case HttpError(status, statusText) => result := ErrorResult(ApiError(status, statusText));
    case Ok(document) => result := Content(Forwarded(document));
  }

  method GetChannelsCall(client: MattermostClient, backend: Backend, args: map<string, ArgValue>)
    returns (result: CallResult)
    modifies client
    ensures var o := ForwardDocument(TeamChannelsEndpoint(AsText(Arg(args, "team_id"))), old(client.userCache), backend);
            result == o.result && client.userCache == o.cache && client.sent == old(client.sent) + o.sent
  {
    var reply := client.GetChannelsForTeam(backend, AsText(Arg(args, "team_id")));
    match reply
    case HttpError(status, statusText) => result := ErrorResult(ApiError(status, statusText));
    case Ok(document) => result := Content(Forwarded(document));
  }

  method GetChannelMessagesCall(client: MattermostClient, backend: Backend, args: map<string, ArgValue>)
    returns (result: CallResult)
    modifies client
    ensures var o := GetChannelMessages(args, old(client.userCache), backend);
            result == o.result && client.userCache == o.cache && client.sent == old(client.sent) + o.sent
  {
    var channelId := Arg(args, "channel_id");
    var page := Or(Arg(args, "page"), Num(0));
    var perPage := Or(Arg(args, "per_page"), Num(60));
    AppendAssoc(client.sent, [Get(ChannelPage(args))],
                FetchAndEnrich(backend.postsAt(ChannelPage(args)), client.userCache, backend, Compact).sent);
    var reply := client.GetChannelMessages(backend, AsText(channelId), page, perPage);
    var posts := EnrichReply(client, backend, reply, Compact);
    match posts
    case Failure(e) => result := ErrorResult(e);
    case Success(ps) => result := Content(ChannelMessages(channelId, ps));
  }

  method GetPostThreadCall(client: MattermostClient, backend: Backend, args: map<string, ArgValue>)
    returns (result: CallResult)
    modifies client
    ensures var o := GetPostThread(args, old(client.userCache), backend);
            result == o.result && client.userCache == o.cache && client.sent == old(client.sent) + o.sent
  {
    ghost var endpoint := ThreadEndpoint(AsText(Arg(args, "post_id")));
    AppendAssoc(client.sent, [Get(endpoint)],
                FetchAndEnrich(backend.postsAt(endpoint), client.userCache, backend, Compact).sent);
    var reply := client.GetPostThread(backend, AsText(Arg(args, "post_id")));
    var posts := EnrichReply(client, backend, reply, Compact);
    match posts
    case Failure(e) => result := ErrorResult(e);
    case Success(ps) => result := Content(Thread(ps));
  }

  /** The handler: `!args` first, then the `switch (name)`; every throw becomes
      the error result of the `catch`. */
  method CallTool(client: MattermostClient, backend: Backend, name: string, args: Option<map<string, ArgValue>>)
    returns (result: CallResult)
    modifies client
    ensures var o := Dispatch(name, args, old(client.userCache), backend);
            result == o.result && client.userCache == o.cache && client.sent == old(client.sent) + o.sent
  {
    if args.None? {
      return ErrorResult(MissingArguments);
    }
    var a := args.value;
    match ToolOf(name)
    case GetCurrentUserTool => result := GetCurrentUserCall(client, backend);
    case GetUserInfoTool => result := GetUserInfoCall(client, backend, a);
    case SearchMessagesTool => result := SearchMessagesCall(client, backend, a);
    case SearchUserMessagesTool => result := SearchUserMessagesCall(client, backend, a);
    case SearchUsersTool => result := SearchUsersCall(client, backend, a);
    case GetTeamsTool => result := GetTeamsCall(client, backend);
    case GetChannelsTool => result := GetChannelsCall(client, backend, a);
    case GetChannelMessagesTool => result := GetChannelMessagesCall(client, backend, a);
    case GetPostThreadTool => result := GetPostThreadCall(client, backend, a);
    case OtherTool(_) => result := ErrorResult(UnknownTool(name));
  }
}
