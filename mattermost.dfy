/**
  The values the server exchanges with the Mattermost REST API and with its
  MCP caller: user and post records, tool arguments, the replies of the REST
  endpoints (an oracle standing in for the network), and the display-name
  rules applied to user records.
*/
module Mattermost {
  import opened Wrappers
  import opened JsText
  import Kst

  type Id = string

  // ----- Tool arguments -----

  /** A JSON value passed as a tool argument: a string, an integral number or a boolean.
      An absent argument is `None` where an `Option<ArgValue>` is expected. */
  datatype ArgValue = Str(s: string) | Num(n: int) | Bool(b: bool)

  /** JavaScript truthiness: "", 0 and false are falsy, as is a missing argument. */
  predicate Truthy(v: Option<ArgValue>) {
    match v
    case None => false
    case Some(Str(s)) => s != ""
    case Some(Num(n)) => n != 0
    case Some(Bool(b)) => b
  }

  /** `v || fallback`: the argument itself when it is truthy, otherwise the fallback. */
  function Or(v: Option<ArgValue>, fallback: ArgValue): ArgValue {
    if Truthy(v) then v.value else fallback
  }

  /** `${v}`: the text a template literal makes of an argument (`undefined` when it is missing). */
  function AsText(v: Option<ArgValue>): string {
    match v
    case None => "undefined"
    case Some(Str(s)) => s
    case Some(Num(n)) => IntToString(n)
    case Some(Bool(b)) => if b then "true" else "false"
  }

  /** `args.key`: the argument under `key`, if the caller supplied one. */
  function Arg(args: map<string, ArgValue>, key: string): Option<ArgValue> {
    if key in args then Some(args[key]) else None
  }

  // ----- Records of the REST API -----

  /** `MattermostUser`; `email` is optional. */
  datatype User = User(id: Id, username: string, firstName: string, lastName: string,
                       nickname: string, email: Option<string>)

  /** `MattermostPost`, with its two timestamps as epoch milliseconds. */
  datatype Post = Post(id: Id, message: string, userId: Id, channelId: Id,
                       createAt: Kst.EpochMillis, updateAt: Kst.EpochMillis)

  /** The shared shape of a search result, a thread and a channel page: post ids
      in display order (absent in some replies) and the posts by id. */
  datatype PostList = PostList(order: Option<seq<Id>>, posts: map<Id, Post>)

  /** The resolved author of a post, as `getUsersInfo` records it. */
  datatype UserInfo = UserInfo(username: string, name: string)

  /** What `getUsersInfo` records for an id it could not resolve. */
  const UnknownUser := UserInfo("unknown", "Unknown User")

  // ----- The REST backend -----

  /** What one REST call yields: the decoded body, or a non-2xx status with its status text. */
  datatype Reply<+T> = Ok(body: T) | HttpError(status: nat, statusText: string)

  /** The Mattermost server as the client sees it during one tool call: what each
      GET endpoint returns, by the body type the caller reads from it, and what the
      two POST searches return for a given request body. */
  datatype Backend = Backend(
    userAt: string -> Reply<User>,
    postsAt: string -> Reply<PostList>,
    documentAt: string -> Reply<string>,
    searchPosts: (Option<ArgValue>, ArgValue) -> Reply<PostList>,
    searchUsers: Option<ArgValue> -> Reply<seq<User>>)

  /** One request sent to the server: a GET of an endpoint path, or one of the
      POST searches with the fields of its JSON body (`None` for a field that
      JSON.stringify leaves out because its value is undefined). */
  datatype Request =
    | Get(endpoint: string)
    | SearchPostsRequest(terms: Option<ArgValue>, isOrSearch: ArgValue)
    | SearchUsersRequest(term: Option<ArgValue>)

  function UserEndpoint(userId: Id): string {
    "/users/" + userId
  }

  function UserByNameEndpoint(username: string): string {
    "/users/username/" + username
  }

  const MeEndpoint := "/users/me"
  const TeamsEndpoint := "/users/me/teams"

  function TeamChannelsEndpoint(teamId: string): string {
    "/users/me/teams/" + teamId + "/channels"
  }

  function ThreadEndpoint(postId: string): string {
    "/posts/" + postId + "/thread"
  }

  /** `getChannelMessages`: the endpoint of one page of a channel's posts. */
  function ChannelPostsEndpoint(channelId: string, page: ArgValue, perPage: ArgValue): string {
    "/channels/" + channelId + "/posts?page=" + AsText(Some(page)) + "&per_page=" + AsText(Some(perPage))
  }

  /** The message of the error `request` throws for a non-2xx reply. */
  function HttpErrorMessage(status: nat, statusText: string): string {
    "Mattermost API error: " + IntToString(status) + " " + statusText
  }

  /** The errors a tool call can throw; the handler's `catch` reports each by its message. */
  datatype ToolError =
    | MissingArguments
    | UnknownTool(name: string)
    | ApiError(status: nat, statusText: string)
    | MissingPost

  /** `error.message` of each error. A post id in `order` without an entry in
      `posts` makes `posts[postId].user_id` throw a TypeError with the V8 text. */
  function ErrorMessage(e: ToolError): string {
    match e
    case MissingArguments => "Arguments are required"
    case UnknownTool(name) => "Unknown tool: " + name
    case ApiError(status, statusText) => HttpErrorMessage(status, statusText)
    case MissingPost => "Cannot read properties of undefined (reading 'user_id')"
  }

  // ----- Display names -----

  /** `${first_name} ${last_name}`.trim() */
  function JoinedName(u: User): string {
    Trim(u.firstName + " " + u.lastName)
  }

  /** The `name`/`full_name` of `getUsersInfo`, `get_current_user` and `get_user_info`:
      the joined name, else the nickname, else the username. */
  function DisplayName(u: User): (r: string)
    ensures r == JoinedName(u) || r == u.nickname || r == u.username
    ensures u.username != "" ==> r != ""
  {
    if JoinedName(u) != "" then JoinedName(u)
    else if u.nickname != "" then u.nickname
    else u.username
  }

  /** The `name` of `search_users` and of `found_user`: the joined name, else the
      nickname, with no fall-back to the username. */
  function ShortName(u: User): (r: string)
    ensures r == JoinedName(u) || r == u.nickname
  {
    if JoinedName(u) != "" then JoinedName(u) else u.nickname
  }

  /** The two name rules agree except where the short one is empty, and only there
      does the display name fall back to the username. */
  lemma DisplayNameExtendsShortName(u: User)
    ensures ShortName(u) != "" ==> DisplayName(u) == ShortName(u)
    ensures ShortName(u) == "" ==> DisplayName(u) == u.username
  {
  }

  /** The joined name is empty exactly when both name parts are white space, and
      then the display name is the nickname, or the username without one. */
  lemma DisplayNameFallsBack(u: User)
    ensures JoinedName(u) == "" <==> AllWhiteSpace(u.firstName) && AllWhiteSpace(u.lastName)
    ensures AllWhiteSpace(u.firstName) && AllWhiteSpace(u.lastName) ==>
              DisplayName(u) == (if u.nickname != "" then u.nickname else u.username)
  {
    TrimJoinedEmpty(u.firstName, u.lastName);
  }

  /** A user with a username and a blank name but no nickname: `search_users` and
      `found_user` report an empty name for them while `full_name` is the username. */
  lemma ShortNameCanBeEmpty(u: User)
    requires u == User("u1", "cwpark", " ", "", "", None)
    ensures u.username != "" && ShortName(u) == "" && DisplayName(u) == "cwpark"
  {
    TrimJoinedEmpty(u.firstName, u.lastName);
  }
}
