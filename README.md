# mattermost-mcp-server in Dafny

A model of the Mattermost MCP server (`src/index.ts`): the layer between the
Model Context Protocol tool calls and the Mattermost REST API. The network is
an oracle, `Mattermost.Backend`. It gives the reply of every GET endpoint and
of the two POST searches, either a decoded body or an HTTP error with its
status and status text. A ghost request log, `sent`, records every REST call
in the order it is made. With it the model can state facts such as "a cache
hit fetches nothing" or "no user, no post search".

Modules, in dependency order:

- `Wrappers`: `Option` and `Result`.
- `JsText`: the JavaScript string operations the server relies on. These are
  `String.prototype.trim`, the first-occurrence `replace` with a string
  pattern, and the decimal text of an integer inside a template literal.
- `Kst`: `formatTimestamp` as integer calendar arithmetic. Epoch milliseconds
  plus nine hours become the UTC calendar fields of `toISOString`, then `Z`
  is replaced by `+09:00`. The module also has a reader, `InstantOf`, for
  the `date-time` grammar of section 5.6 of RFC 3339, with the month and day
  limits of section 5.7. With it the module proves that reading the string
  back, offset included, gives the original instant.
- `Mattermost`: the records (`User`, `Post`, post lists), the tool argument
  values together with JavaScript's `||` and template-literal coercion, the
  REST endpoints, the error messages and the two display-name rules.
- `Client`: `class MattermostClient` with its `userCache` map. `GetUser` is
  the memoising lookup. `GetUsersInfo` is the loop that resolves a list of
  ids. The remaining request methods each send one request. `GetUserSpec`
  and `UsersInfoSpec` are the value-level specifications the methods are
  proved against.
- `Enrichment`: the post enrichment the handler repeats four times. It takes
  the distinct author ids in first-occurrence order, resolves them, and maps
  `order` to output records with author fallbacks and KST timestamps. It
  comes in a full shape (search) and a compact shape (channel page, thread).
- `Tools`: the `CallToolRequestSchema` handler on values. Each tool is a
  function from arguments, cache and backend to an `Outcome`: the result,
  the cache after the call, and the requests sent. Every throw becomes the
  `"Error: " + message` result of the handler's `catch`. `Dispatch` adds the
  `!args` check and the `switch (name)`.
- `Server`: the same handler run as methods against one `MattermostClient`.
  Each is proved to leave exactly the result, cache and request log that
  its `Tools` function gives.

Three behaviours of `src/index.ts` the model keeps:

- Authors are collected with `[...new Set(...)]`, which lists each id once in
  the order of its first occurrence. The user lookups of `getUsersInfo`
  therefore happen in that order, and the model fixes it.
- The `name` in `search_users` and in `found_user` falls back only to the
  nickname, never to the username, so it can be empty (`ShortNameCanBeEmpty`).
  Only `full_name` and the `getUsersInfo` name fall back to the username.
- Only a missing `arguments` object is rejected (lines 325-327). A missing
  individual argument such as `user_id` is not checked: it reaches an
  endpoint path as the text `undefined` and is left out of a POST body.

## Model

| member | source | states |
|---|---|---|
| JsText.Trim | src/index.ts:125 | `trim` removes white space at both ends: the result is empty exactly when the text is all white space, and otherwise starts and ends with non-white space |
| JsText.TrimIsInfix | src/index.ts:125 | the trimmed text is the infix of the input that is left after its leading and trailing white space |
| JsText.TrimIdempotent | src/index.ts:125 | trimming twice is trimming once |
| JsText.TrimJoinedEmpty | src/index.ts:125 | `${first} ${last}`.trim() is empty exactly when both name parts are white space |
| JsText.ReplaceFirst | src/index.ts:49 | `replace` with a string pattern leaves a text without that character unchanged |
| JsText.ReplaceFirstOccurrence | src/index.ts:49 | `replace` substitutes only the first occurrence and keeps the rest |
| JsText.NatToString | src/index.ts:160 | the decimal text of a number is non-empty, all digits, and has no leading zero |
| JsText.NatToStringValue | src/index.ts:160 | the decimal text reads back to the number |
| JsText.IntToString | src/index.ts:72 | a negative number gets a leading `-`; what follows is decimal digits with no leading zero (only 0 is "0") that read back to its magnitude |
| Kst.DayFromYearNext | src/index.ts:48 | consecutive years start 365 or 366 days apart, by the Gregorian leap rule |
| Kst.DayFromYearIncreasing | src/index.ts:48 | later years start on later days |
| Kst.YearFromDay | src/index.ts:48-49 | the year found for a day number is the one whose first day is at or before that day and whose successor's first day is after it |
| Kst.YearFromDayUnique | src/index.ts:48-49 | that year is the only one containing the day |
| Kst.MonthFrom | src/index.ts:48-49 | the month found for a day of the year is the one whose range contains it |
| Kst.MonthUnique | src/index.ts:48-49 | only one month contains a given day of the year |
| Kst.CivilOfDay | src/index.ts:48-49 | day number and time of day give valid calendar fields, years 0000-9999 |
| Kst.ToCivil | src/index.ts:48-49 | every instant in range has valid calendar fields |
| Kst.FromCivilToCivil | src/index.ts:48-49 | the calendar fields of an instant denote that instant |
| Kst.ToCivilFromCivil | src/index.ts:48-49 | every valid calendar field set is the decomposition of exactly one instant in range |
| Kst.FourDigitYearDays | src/index.ts:48-49 | the instant range of four-digit years is the range of days of the years 0 through 9999 |
| Kst.Render | src/index.ts:49 | `YYYY-MM-DDTHH:mm:ss.sss` is 23 characters |
| Kst.RenderHasNoZ | src/index.ts:49 | the rendered fields contain no `Z`, so `replace('Z', '+09:00')` touches only the suffix |
| Kst.FormatTimestamp | src/index.ts:46-50 | the result is the rendering of the UTC calendar fields of t + 9 h followed by `+09:00` |
| Kst.MonthTablesAgree | src/index.ts:48-49 | the month lengths used to compute dates agree with the day limits of section 5.7 of RFC 3339 |
| Kst.InstantOf | src/index.ts:49 | a text read as an instant is a `date-time` of section 5.6 of RFC 3339 |
| Kst.RenderedWithOffset | src/index.ts:49 | a rendering followed by `+09:00` is a `date-time` whose fields are the calendar fields |
| Kst.FormatTimestampIsDateTime | src/index.ts:46-50 | `formatTimestamp` yields a 29-character RFC 3339 `date-time` ending in `+09:00` whose fields are those of t + 9 h |
| Kst.InstantOfRendered | src/index.ts:49 | reading a rendering back with its `+09:00` offset gives the instant nine hours before its fields |
| Kst.FormatTimestampRoundTrip | src/index.ts:46-50 | reading `formatTimestamp(t)` back with its offset gives t |
| Kst.WallClockRoundTrip | src/index.ts:46-50 | the +09:00 wall-clock rendering of any instant in range reads back as that instant |
| Kst.CivilAtEpochKst | src/index.ts:48 | instant 0 plus nine hours is 1970-01-01 09:00:00.000 |
| Kst.RenderEpochKst | src/index.ts:49 | those fields render as `1970-01-01T09:00:00.000` |
| Mattermost.Or | src/index.ts:557-558 | `v \|\| d` (definition; its uses are stated by `Tools.ChannelPageDefaults` and `Tools.ZeroPerPageIsDefault`) |
| Mattermost.AsText | src/index.ts:160 | `${v}` for an argument (definition; its uses are stated by `Tools.ChannelPageDefaults`, `Tools.ChannelMessagesRequest` and `Tools.UserInfoResolved`) |
| Mattermost.Arg | src/index.ts:351 | `args.key` (definition; its uses are stated by `Tools.UserInfoResolved`, `Tools.SearchResultsCounted` and `Tools.ChannelMessagesRequest`) |
| Mattermost.DisplayName | src/index.ts:125 | the name is the joined name, the nickname or the username, and is non-empty when the username is |
| Mattermost.ShortName | src/index.ts:521 | the name of `search_users` and `found_user` is the joined name or the nickname |
| Mattermost.DisplayNameExtendsShortName | src/index.ts:498 | the two name rules agree wherever the short name is non-empty; otherwise the display name is the username |
| Mattermost.DisplayNameFallsBack | src/index.ts:343 | the joined name is empty exactly when first and last names are white space; then the full name is the nickname, else the username |
| Mattermost.ShortNameCanBeEmpty | src/index.ts:521 | a user with a username, blank names and no nickname is listed with an empty name but has a non-empty full name |
| Client.Info | src/index.ts:122-129 | a resolved user with a username gets a non-empty name; an unresolved id gets `{username: "unknown", name: "Unknown User"}` |
| Client.GetUserTransitions | src/index.ts:102-115 | a hit returns the cached user, sends nothing and keeps the cache; a miss sends one GET; a successful fetch adds exactly `userId -> user`; a failed fetch returns null and keeps the cache |
| Client.CachedUserIsStale | src/index.ts:104-106 | once cached, a user is returned unchanged however the backend's record has changed |
| Client.GetUserResolves | src/index.ts:102-115 | the user returned is the cached one, else the backend's; old cache entries are kept; the only new key is the requested id |
| Client.UsersInfoCache | src/index.ts:117-133 | resolving a list keeps every cached entry and adds only requested ids the backend returned |
| Client.UsersInfoKeys | src/index.ts:117-133 | the returned map's keys are exactly the requested ids |
| Client.UsersInfoEntries | src/index.ts:120-129 | each requested id maps to the name record of the user it resolves to (cache first, then backend), or to the unknown-user record |
| Client.UsersInfoAllCached | src/index.ts:104-106 | when every requested id is cached, nothing is sent and the cache is unchanged |
| Client.UsersInfoCachesResolved | src/index.ts:117-133 | after the call, a requested id is in the cache exactly when it resolves to a user, so its next lookup is a hit |
| Client.GetUserKeys | src/index.ts:108-111 | `getUser` adds its id to the cache exactly when the id resolves to a user, and no other key |
| Client.ResolveAfterUsersInfo | src/index.ts:117-133 | what an id resolves to is the same before and after `getUsersInfo` |
| Client.UsersInfoStep | src/index.ts:119-130 | one more id in the list is one more `getUser` after the rest, its name record added to the map and its requests appended |
| Client.UsersInfoRequests | src/index.ts:120-121 | at most one request per entry of the list, each a GET of a requested id that was not cached (an id listed twice whose lookup fails is fetched twice) |
| Client.MattermostClient.constructor | src/index.ts:54-58 | a new client has an empty cache and has sent nothing |
| Client.MattermostClient.GetUser | src/index.ts:102-115 | the cache transitions of `getUser` on the client's `userCache` field, and the requests sent; the result and new state are those of `Client.GetUserSpec` |
| Client.MattermostClient.GetUsersInfo | src/index.ts:117-133 | the loop leaves the map, cache and request log of the specification; keys are exactly the ids; entries are the resolved name records |
| Client.MattermostClient.GetMe | src/index.ts:135-137 | the reply of `GET /users/me`, with one request sent |
| Client.MattermostClient.GetUserByUsername | src/index.ts:98-100 | the reply of `GET /users/username/<name>`, with one request sent |
| Client.MattermostClient.SearchPosts | src/index.ts:78-86 | the reply of the post search for these terms and mode, with one request sent |
| Client.MattermostClient.SearchUsers | src/index.ts:88-96 | the reply of the user search for this term, with one request sent |
| Client.MattermostClient.GetTeams | src/index.ts:143-145 | the reply of `GET /users/me/teams`, with one request sent |
| Client.MattermostClient.GetChannelsForTeam | src/index.ts:147-149 | the reply of the team's channel list, with one request sent |
| Client.MattermostClient.GetPostThread | src/index.ts:155-157 | the reply of `GET /posts/<id>/thread`, with one request sent |
| Client.MattermostClient.GetChannelMessages | src/index.ts:159-161 | the reply of the channel page endpoint with `page` and `per_page` in its query, with one request sent |
| Enrichment.Distinct | src/index.ts:393 | `[...new Set(xs)]` has the same members as xs, no duplicates, and is no longer |
| Enrichment.DistinctOfDistinct | src/index.ts:393 | a list without repetitions is its own distinct list, so deduplication is idempotent |
| Enrichment.DistinctOfPrefix | src/index.ts:393 | first-occurrence order: the distinct ids of a prefix are a prefix of the distinct ids |
| Enrichment.AuthorIdsSpec | src/index.ts:393 | the authors are duplicate-free and exactly the `user_id`s of the posts named in `order`; none when `order` is absent; a missing post is the TypeError |
| Enrichment.Reshape | src/index.ts:399-415 | one output record per id of `order` |
| Enrichment.EnrichPostFields | src/index.ts:405-414 | a record carries the post's id, message and author, the author fallbacks and the KST creation time; only the full shape keeps channel and update time |
| Enrichment.ReshapePreservesOrder | src/index.ts:566-579 | record i describes the post `order[i]`, in order, with the fields above |
| Enrichment.AuthorFieldsNonEmpty | src/index.ts:409-410 | author username and name are never empty; an unresolved author is `unknown` / `Unknown User` |
| Enrichment.ShownAuthor | src/index.ts:403-410 | the author fields agree with the user the id resolves to |
| Enrichment.EnrichedAuthors | src/index.ts:393-415 | after `getUsersInfo` on the authors, every record shows its author as the resolved user with the fallbacks, or as the unknown user |
| Tools.Details | src/index.ts:337-343 | `full_name` is the display name and non-empty when the username is |
| Tools.UserQuery | src/index.ts:462-464 | the query is `from:<username>`, followed by a space and the keyword exactly when the keyword is truthy |
| Tools.Summaries | src/index.ts:518-523 | one summary per user found |
| Tools.ToolOf | src/index.ts:329-630 | a name selects one of the nine tools exactly when it is one of their names, and the default case otherwise |
| Tools.ToolNamesSelect | src/index.ts:329-630 | each tool is selected by its own name |
| Tools.MissingArgumentsFirst | src/index.ts:325-327 | without arguments any call is the error result `Error: Arguments are required`, sends nothing and keeps the cache |
| Tools.UnknownToolNamed | src/index.ts:629-630 | an unknown name is the error result `Error: Unknown tool: <name>`, sends nothing and keeps the cache |
| Tools.FetchAndEnrichKeepsCache | src/index.ts:393-396 | enriching posts never drops or changes a cached user |
| Tools.ProfileFullName | src/index.ts:343 | `get_current_user` and `get_user_info` report a non-empty `full_name` whenever the username is non-empty |
| Tools.UserInfoResolved | src/index.ts:350-384 | `get_user_info` answers `{error: "User not found", user_id}` when the id resolves to no user, and the profile otherwise, never an error result |
| Tools.SearchResultsCounted | src/index.ts:386-428 | `total_count` is the number of posts and equals the length of `order` (0 when absent) |
| Tools.NoMatchingUser | src/index.ts:445-458 | no matching user gives the error payload with count 0 and no posts, keeps the cache and sends no post search |
| Tools.FirstMatchedUser | src/index.ts:461-466 | the first matched user is the one searched for: the next request is the post search with its query and `is_or_search` false, and `found_user` is that user; `total_count` is the number of posts returned |
| Tools.ChannelMessagesRequest | src/index.ts:555-560 | the first request is the channel page and the answer echoes `channel_id` |
| Tools.ChannelPageDefaults | src/index.ts:557-560 | without `page` and `per_page` the page requested is `page=0&per_page=60` |
| Tools.ZeroPerPageIsDefault | src/index.ts:558 | an explicit `per_page` of 0 is falsy and requests the same page as 60 |
| Tools.SearchUsersListed | src/index.ts:508-528 | `search_users` lists every user found, in order, with the short name and `total_count` the number of users; it keeps the cache |
| Mattermost.Truthy | src/index.ts:557-558 | JavaScript truthiness of an argument: "", 0, false and a missing argument are falsy |
| Mattermost.JoinedName | src/index.ts:125 | `${first_name} ${last_name}`.trim() |
| Mattermost.UserEndpoint | src/index.ts:109 | the path `/users/<id>` of `getUser` |
| Mattermost.UserByNameEndpoint | src/index.ts:99 | the path `/users/username/<name>` |
| Mattermost.TeamChannelsEndpoint | src/index.ts:148 | the path `/users/me/teams/<team>/channels` |
| Mattermost.ThreadEndpoint | src/index.ts:156 | the path `/posts/<post>/thread` |
| Mattermost.ChannelPostsEndpoint | src/index.ts:160 | the path `/channels/<channel>/posts?page=<page>&per_page=<per_page>`, each part as its template-literal text; its defaults are stated by `Tools.ChannelPageDefaults` |
| Mattermost.HttpErrorMessage | src/index.ts:72 | `Mattermost API error: <status> <statusText>`, the status in decimal (`JsText.IntToString`) |
| Mattermost.ErrorMessage | src/index.ts:637 | `error.message` of each error a tool can throw: `Arguments are required` (line 326), `Unknown tool: <name>` (line 630), the REST error (line 72), and V8's TypeError text for a post id of `order` missing from `posts` (line 393); the error results are stated by `Tools.MissingArgumentsFirst` and `Tools.UnknownToolNamed` |
| Kst.IsLeapYear | src/index.ts:48 | the Gregorian leap rule: divisible by 4, and by 400 when divisible by 100 |
| Kst.DayFromYear | src/index.ts:48 | the day number of 1 January of a year, counted from 1970; its step is stated by `Kst.DayFromYearNext` |
| Kst.ToIsoString | src/index.ts:49 | `toISOString()`: the rendering of the UTC fields followed by `Z`; `Kst.FormatTimestamp` is proved to replace exactly that `Z` |
| Client.GetUserSpec | src/index.ts:102-115 | `getUser` on values: the answer, the cache after and the requests sent; its transitions are stated by `Client.GetUserTransitions`, `Client.CachedUserIsStale` and `Client.GetUserResolves`, and `Client.MattermostClient.GetUser` is proved against it |
| Client.Resolve | src/index.ts:104-111 | the user an id stands for: the cached record, else the backend's reply, else none; `Client.GetUserResolves` proves `getUser` answers it |
| Client.UsersInfoSpec | src/index.ts:117-133 | `getUsersInfo` on values: `getUser` on each id in turn, recording its name record; stated by `Client.UsersInfoKeys`, `Client.UsersInfoEntries`, `Client.UsersInfoCache`, `Client.UsersInfoRequests`, and met by the loop `Client.MattermostClient.GetUsersInfo` |
| Enrichment.UserIdsOf | src/index.ts:393 | `order.map(postId => posts[postId].user_id)` |
| Enrichment.AuthorIds | src/index.ts:393 | `[...new Set(order?.map(...) \|\| [])]`, or the TypeError of a missing post; stated by `Enrichment.AuthorIdsSpec` |
| Enrichment.AuthorUsername | src/index.ts:409 | `userInfo?.username \|\| "unknown"`; stated by `Enrichment.AuthorFieldsNonEmpty` |
| Enrichment.AuthorName | src/index.ts:410 | `userInfo?.name \|\| "Unknown User"`; stated by `Enrichment.AuthorFieldsNonEmpty` |
| Enrichment.EnrichPost | src/index.ts:405-414 | the output record of one post, in the full shape of lines 405-414 or the compact shape of lines 571-578; stated by `Enrichment.EnrichPostFields` |
| Tools.ErrorResult | src/index.ts:632-641 | the `catch`: text `Error: <message>` of a result with `isError: true` |
| Tools.FetchAndEnrich | src/index.ts:393-415 | a REST error is thrown; a post list goes through the enrichment; stated by `Tools.FetchAndEnrichKeepsCache` and met by `Server.EnrichReply` |
| Tools.EnrichList | src/index.ts:393-415 | the authors of the list resolved by `getUsersInfo`, then `order` reshaped (`[]` when `order` is absent); stated by `Enrichment.EnrichedAuthors` |
| Tools.GetCurrentUser | src/index.ts:330-348 | `get_current_user`; stated by `Tools.ProfileFullName`, met by `Server.GetCurrentUserCall` |
| Tools.GetUserInfo | src/index.ts:350-384 | `get_user_info`; stated by `Tools.UserInfoResolved` and `Tools.ProfileFullName`, met by `Server.GetUserInfoCall` |
| Tools.SearchMessages | src/index.ts:386-428 | `search_messages` with `is_or_search \|\| false`; stated by `Tools.SearchResultsCounted`, met by `Server.SearchMessagesCall` |
| Tools.SearchUserMessages | src/index.ts:430-506 | `search_user_messages`: lookup by username, else the user search, then the first user or the not-found payload; stated by `Tools.NoMatchingUser` and `Tools.FirstMatchedUser`, met by `Server.SearchUserMessagesCall` |
| Tools.MessagesOf | src/index.ts:460-505 | the post search for the first matched user and its `found_user` payload; met by `Server.MessagesOfCall` |
| Tools.NoSuchUserText | src/index.ts:451 | the not-found message naming the searched user name |
| Tools.SearchUsers | src/index.ts:508-528 | `search_users`; stated by `Tools.SearchUsersListed`, met by `Server.SearchUsersCall` |
| Tools.ForwardDocument | src/index.ts:530-553 | `get_teams` and `get_channels`: the REST body passed on; met by `Server.GetTeamsCall` and `Server.GetChannelsCall` |
| Tools.ChannelPage | src/index.ts:556-560 | the page endpoint with `page \|\| 0` and `per_page \|\| 60`; stated by `Tools.ChannelPageDefaults` and `Tools.ZeroPerPageIsDefault` |
| Tools.GetChannelMessages | src/index.ts:555-592 | `get_channel_messages`; stated by `Tools.ChannelMessagesRequest`, met by `Server.GetChannelMessagesCall` |
| Tools.GetPostThread | src/index.ts:594-627 | `get_post_thread`: the thread's posts in the compact shape; met by `Server.GetPostThreadCall` |
| Tools.ToolName | src/index.ts:329-629 | the name in each `case` label |
| Tools.Run | src/index.ts:329-630 | the body of each `case`, and the `default` that throws `Unknown tool`; stated by `Tools.UnknownToolNamed` |
| Tools.Dispatch | src/index.ts:321-643 | the handler: `!args` first, then the `switch (name)`, every throw caught; stated by `Tools.MissingArgumentsFirst` and `Tools.UnknownToolNamed`, met by `Server.CallTool` |
| Server.EnrichReply | src/index.ts:393-415 | the enrichment on the client: result, cache and request log as specified |
| Server.GetCurrentUserCall | src/index.ts:330-348 | `get_current_user` on the client leaves the result, cache and requests of its specification |
| Server.GetUserInfoCall | src/index.ts:350-384 | the same for `get_user_info` |
| Server.SearchMessagesCall | src/index.ts:386-428 | the same for `search_messages` |
| Server.MessagesOfCall | src/index.ts:460-505 | the same for the message search of the first matched user |
| Server.SearchUserMessagesCall | src/index.ts:430-506 | the same for `search_user_messages`, including the fallback search and the early return |
| Server.SearchUsersCall | src/index.ts:508-528 | the same for `search_users` |
| Server.GetTeamsCall | src/index.ts:530-540 | the same for `get_teams` |
| Server.GetChannelsCall | src/index.ts:542-553 | the same for `get_channels` |
| Server.GetChannelMessagesCall | src/index.ts:555-592 | the same for `get_channel_messages` |
| Server.GetPostThreadCall | src/index.ts:594-627 | the same for `get_post_thread` |
| Server.CallTool | src/index.ts:321-643 | the whole handler leaves the result, cache and request log of `Dispatch` |

## Left out

- `request`, `fetch`, the URL prefix, the headers and JSON decoding are I/O. The backend oracle stands in for them. A reply is a decoded body or an HTTP error. Network failures and malformed JSON are not distinguished from an HTTP error.
- The MCP `Server`, the stdio transport, `main` and the environment configuration are process plumbing.
- The `ListToolsRequestSchema` catalog is static schema data with no behaviour.
- `getPost` and `getChannel` are not modelled: no tool calls them.
- The text of `JSON.stringify(..., null, 2)` is not modelled. Payloads are records.
- Concurrent tool calls sharing `userCache` are not modelled. Calls are sequential, and the backend is fixed for the duration of one call.
- Instants whose KST time falls outside the years 0000 to 9999 are not modelled. There `toISOString` would switch to six-digit years or throw a RangeError. `Kst.EpochMillis` is restricted to integral milliseconds in the four-digit range.
- Tool arguments are modelled as strings, integers or booleans. Other JSON values, fractional numbers and `NaN` are not modelled. The `as string` / `as number` casts check nothing, and the model keeps the supplied value as it is.
- Numbers are unbounded integers and `JsText.IntToString` always prints plain decimal digits. JavaScript's `${n}` differs for large numbers: from 1e21 it prints exponent form (`1e+21`), and above 2^53 the value itself is no longer exact. A `page` or `per_page` of that size gives a different endpoint text in the source than in `Mattermost.ChannelPostsEndpoint`.
- Users are modelled with every string field present. A REST record missing `first_name` or `last_name` would put the text `undefined` into the joined name.
- `get_user_info` passes the raw `user_id` value to `getUser`, and the JavaScript `Map` keys by that value. The number `5` and the string `"5"` are different keys, and so are `undefined` and `"undefined"`. The model keys the cache by the argument's template-literal text (`Mattermost.AsText`), so it does not keep these apart. In the model, `get_user_info` with `user_id: 5` answers from an entry cached under `"5"` and sends nothing. The source misses there and fetches `/users/5`, then caches the reply under `5`. For string ids, which is every id `getUsersInfo` passes, the two agree.
- Tools.Summaries: states only the length. The per-user fields are stated by `Tools.SearchUsersListed`.
- Tools.Dispatch: its properties are stated per tool (`Tools.UserInfoResolved`, `Tools.NoMatchingUser`, and the rest) and through `Server.CallTool`. No single lemma states "every error result starts with `Error: `" or "the cache only grows" over all nine tools at once.
