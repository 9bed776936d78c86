/**
  `MattermostClient`: the REST client with its user cache. Each REST call is
  answered by the backend oracle and recorded in the ghost log `sent`, so the
  contracts can say which calls reach the server. `getUser` and `getUsersInfo`
  are specified by functions on values (GetUserSpec, UsersInfoSpec) whose
  properties are proved as lemmas.
*/
module Client {
  import opened Wrappers
  import opened Mattermost

  /** What one `getUser` call answers and leaves behind: its result, the cache
      after it and the requests it sent. */
  datatype Lookup = Lookup(user: Option<User>, cache: map<Id, User>, sent: seq<Request>)

  /** `getUser` on values. */
  function GetUserSpec(cache: map<Id, User>, backend: Backend, userId: Id): Lookup {
    if userId in cache then Lookup(Some(cache[userId]), cache, [])
    else match backend.userAt(UserEndpoint(userId))
      case Ok(u) => Lookup(Some(u), cache[userId := u], [Get(UserEndpoint(userId))])
      case HttpError(_, _) => Lookup(None, cache, [Get(UserEndpoint(userId))])
  }

  /** The user an id stands for, given the cache and the backend: the cached
      record if there is one (however the backend has changed since), otherwise
      whatever GET /users/{id} returns now. */
  function Resolve(cache: map<Id, User>, backend: Backend, userId: Id): Option<User> {
    if userId in cache then Some(cache[userId])
    else match backend.userAt(UserEndpoint(userId))
      case Ok(u) => Some(u)
      case HttpError(_, _) => None
  }

  /** What `getUsersInfo` records for the answer of `getUser`. */
  function Info(user: Option<User>): (r: UserInfo)
    ensures user.Some? && user.value.username != "" ==> r.username != "" && r.name != ""
    ensures user.None? ==> r == UnknownUser
  {
    match user
    case Some(u) => UserInfo(u.username, DisplayName(u))
    case None => UnknownUser
  }

  /** What one `getUsersInfo` call answers and leaves behind. */
  datatype Resolution = Resolution(users: map<Id, UserInfo>, cache: map<Id, User>, sent: seq<Request>)

  /** `getUsersInfo` on values: `getUser` for each id in turn, the answer recorded
      under the id (a later occurrence of an id overwrites an earlier one). */
  function UsersInfoSpec(cache: map<Id, User>, backend: Backend, userIds: seq<Id>): Resolution
    decreases |userIds|
  {
    if userIds == [] then Resolution(map[], cache, [])
    else
      var prev := UsersInfoSpec(cache, backend, userIds[..|userIds| - 1]);
      var last := userIds[|userIds| - 1];
      var step := GetUserSpec(prev.cache, backend, last);
      Resolution(prev.users[last := Info(step.user)], step.cache, prev.sent + step.sent)
  }

  /** Requests logged one call after another: the log is associative in its parts. */
  lemma AppendAssoc<T>(a: seq<T>, b: seq<T>, c: seq<T>)
    ensures a + b + c == a + (b + c)
  {
  }

  /** One more id: `getUsersInfo` on a list extended by one id is `getUser` on
      that id, after the list, with the cache the list left. */
  lemma UsersInfoStep(cache: map<Id, User>, backend: Backend, userIds: seq<Id>, i: nat)
    requires i < |userIds|
    ensures var prev := UsersInfoSpec(cache, backend, userIds[..i]);
            var step := GetUserSpec(prev.cache, backend, userIds[i]);
            UsersInfoSpec(cache, backend, userIds[..i + 1])
              == Resolution(prev.users[userIds[i] := Info(step.user)], step.cache, prev.sent + step.sent)
  {
    assert userIds[..i + 1][..i] == userIds[..i];
  }

  /** The three transitions of `getUser`: a hit answers from the cache and sends
      nothing; a miss sends GET /users/{id} and caches exactly that user on
      success, or answers null and caches nothing on failure. */
  lemma GetUserTransitions(cache: map<Id, User>, backend: Backend, userId: Id)
    ensures var r := GetUserSpec(cache, backend, userId);
            && (userId in cache ==> r == Lookup(Some(cache[userId]), cache, []))
            && (userId !in cache ==> r.sent == [Get(UserEndpoint(userId))])
            && (userId !in cache && backend.userAt(UserEndpoint(userId)).Ok? ==>
                  var u := backend.userAt(UserEndpoint(userId)).body;
                  r.user == Some(u) && r.cache == cache[userId := u] && r.cache.Keys == cache.Keys + {userId})
            && (userId !in cache && backend.userAt(UserEndpoint(userId)).HttpError? ==>
                  r.user == None && r.cache == cache)
  {
  }

  /** A cached user is served even when the backend record has changed: two
      backends give the same answer and the same cache for a cached id. */
  lemma CachedUserIsStale(cache: map<Id, User>, before: Backend, after: Backend, userId: Id)
    requires userId in cache
    ensures GetUserSpec(cache, after, userId) == GetUserSpec(cache, before, userId)
    ensures GetUserSpec(cache, after, userId).user == Some(cache[userId])
  {
  }

  /** `getUser` answers with the user Resolve stands for, and only ever adds to
      the cache the user it answers with. */
  lemma GetUserResolves(cache: map<Id, User>, backend: Backend, userId: Id)
    ensures var r := GetUserSpec(cache, backend, userId);
            && r.user == Resolve(cache, backend, userId)
            && (forall id :: id in cache ==> id in r.cache && r.cache[id] == cache[id])
            && (forall id :: id in r.cache ==> id in cache || (id == userId && r.user == Some(r.cache[id])))
  {
  }

  /** Cache entries, once made, are never changed; an entry that `getUsersInfo`
      adds is for a requested id and holds what GET /users/{id} returned. */
  lemma {:induction false} UsersInfoCache(cache: map<Id, User>, backend: Backend, userIds: seq<Id>)
    ensures var r := UsersInfoSpec(cache, backend, userIds);
            && (forall id :: id in cache ==> id in r.cache && r.cache[id] == cache[id])
            && (forall id :: id in r.cache && id !in cache ==>
                  id in userIds && backend.userAt(UserEndpoint(id)) == Ok(r.cache[id]))
    decreases |userIds|
  {
    if userIds != [] {
      var init := userIds[..|userIds| - 1];
      var last := userIds[|userIds| - 1];
      UsersInfoCache(cache, backend, init);
      var prev := UsersInfoSpec(cache, backend, init);
      GetUserResolves(prev.cache, backend, last);
      forall id | id in init ensures id in userIds {
        var k :| 0 <= k < |init| && init[k] == id;
        assert userIds[k] == id;
      }
    }
  }

  /** A `getUser` call adds its id to the cache exactly when the id resolves to a user. */
  lemma GetUserKeys(cache: map<Id, User>, backend: Backend, userId: Id)
    ensures forall id :: id in GetUserSpec(cache, backend, userId).cache <==>
              id in cache || (id == userId && Resolve(cache, backend, userId).Some?)
  {
  }

  /** `getUsersInfo` does not change what an id resolves to: a user it cached is
      the one the backend returned. */
  lemma ResolveAfterUsersInfo(cache: map<Id, User>, backend: Backend, userIds: seq<Id>, id: Id)
    ensures Resolve(UsersInfoSpec(cache, backend, userIds).cache, backend, id) == Resolve(cache, backend, id)
  {
    UsersInfoCache(cache, backend, userIds);
  }

  /** After `getUsersInfo`, every requested id that resolves to a user is in the
      cache, and a requested id that resolves to none is not, so the next lookup
      of a resolved id is a hit. */
  lemma {:induction false} UsersInfoCachesResolved(cache: map<Id, User>, backend: Backend, userIds: seq<Id>)
    ensures var r := UsersInfoSpec(cache, backend, userIds);
            forall id :: id in userIds ==> (id in r.cache <==> Resolve(cache, backend, id).Some?)
    decreases |userIds|
  {
    if userIds != [] {
      var init := userIds[..|userIds| - 1];
      var last := userIds[|userIds| - 1];
      UsersInfoCachesResolved(cache, backend, init);
      var prev := UsersInfoSpec(cache, backend, init);
      var next := GetUserSpec(prev.cache, backend, last).cache;
      assert UsersInfoSpec(cache, backend, userIds).cache == next;
      GetUserKeys(prev.cache, backend, last);
      ResolveAfterUsersInfo(cache, backend, init, last);
      forall id | id in userIds ensures id in next <==> Resolve(cache, backend, id).Some? {
        InInitOrLast(userIds, id);
      }
    }
  }

  /** An element of a non-empty list is its last element or an element of the rest. */
  lemma InInitOrLast<T>(s: seq<T>, x: T)
    requires x in s
    ensures x == s[|s| - 1] || x in s[..|s| - 1]
  {
    var k :| 0 <= k < |s| && s[k] == x;
    if k < |s| - 1 {
      assert s[..|s| - 1][k] == x;
    }
  }

  /** The key set of the map `getUsersInfo` returns is exactly the set of requested ids. */
  lemma {:induction false} UsersInfoKeys(cache: map<Id, User>, backend: Backend, userIds: seq<Id>)
    ensures forall id :: id in UsersInfoSpec(cache, backend, userIds).users <==> id in userIds
    decreases |userIds|
  {
    if userIds != [] {
      var init := userIds[..|userIds| - 1];
      UsersInfoKeys(cache, backend, init);
      InitLast(userIds);
    }
  }

  /** Each requested id maps to the record of the user it resolves to when the
      call starts (name: joined name, else nickname, else username), or to the
      sentinel {username: "unknown", name: "Unknown User"} when it resolves to none. */
  lemma {:induction false} UsersInfoEntries(cache: map<Id, User>, backend: Backend, userIds: seq<Id>)
    ensures var r := UsersInfoSpec(cache, backend, userIds);
            forall id :: id in userIds ==> id in r.users && r.users[id] == Info(Resolve(cache, backend, id))
    decreases |userIds|
  {
    if userIds != [] {
      var init := userIds[..|userIds| - 1];
      var last := userIds[|userIds| - 1];
      UsersInfoEntries(cache, backend, init);
      UsersInfoCache(cache, backend, init);
      UsersInfoKeys(cache, backend, init);
      var prev := UsersInfoSpec(cache, backend, init);
      GetUserResolves(prev.cache, backend, last);
      assert Resolve(prev.cache, backend, last) == Resolve(cache, backend, last);
      InitLast(userIds);
    }
  }

  /** Ids already in the cache cost no request: when every requested id is cached,
      `getUsersInfo` sends nothing and leaves the cache as it was. */
  lemma {:induction false} UsersInfoAllCached(cache: map<Id, User>, backend: Backend, userIds: seq<Id>)
    requires forall i :: 0 <= i < |userIds| ==> userIds[i] in cache
    ensures UsersInfoSpec(cache, backend, userIds).sent == []
    ensures UsersInfoSpec(cache, backend, userIds).cache == cache
    decreases |userIds|
  {
    if userIds != [] {
      UsersInfoAllCached(cache, backend, userIds[..|userIds| - 1]);
    }
  }

  /** `req` is GET /users/{id} for an id of `ids` that is not in `cache`. */
  predicate UncachedRequest(cache: map<Id, User>, ids: seq<Id>, req: Request) {
    exists id :: id in ids && id !in cache && req == Get(UserEndpoint(id))
  }

  /** Every request `getUsersInfo` sends is GET /users/{id} for a requested id
      that was not cached, and there is at most one per entry of the list (an id
      listed twice whose lookup fails is fetched twice). */
  lemma {:induction false} UsersInfoRequests(cache: map<Id, User>, backend: Backend, userIds: seq<Id>)
    ensures var r := UsersInfoSpec(cache, backend, userIds);
            && |r.sent| <= |userIds|
            && forall k :: 0 <= k < |r.sent| ==> UncachedRequest(cache, userIds, r.sent[k])
    decreases |userIds|
  {
    if userIds != [] {
      var init := userIds[..|userIds| - 1];
      var last := userIds[|userIds| - 1];
      UsersInfoRequests(cache, backend, init);
      var prev := UsersInfoSpec(cache, backend, init);
      var step := GetUserSpec(prev.cache, backend, last).sent;
      var sent := UsersInfoSpec(cache, backend, userIds).sent;
      assert sent == prev.sent + step;
      assert step == [] || (last !in cache && step == [Get(UserEndpoint(last))]) by {
        UsersInfoCache(cache, backend, init);
      }
      assert |sent| <= |userIds| by {
        assert |step| <= 1 && |init| + 1 == |userIds|;
      }
      assert forall k :: 0 <= k < |sent| ==> UncachedRequest(cache, userIds, sent[k]) by {
        RequestsExtend(cache, init, last, prev.sent, step);
        InitLast(userIds);
      }
    }
  }

  /** Requests for uncached ids of `init`, followed by none or by the request for
      `last` when that is uncached, are requests for uncached ids of `init + [last]`. */
  lemma RequestsExtend(cache: map<Id, User>, init: seq<Id>, last: Id, sent: seq<Request>, step: seq<Request>)
    requires forall k :: 0 <= k < |sent| ==> UncachedRequest(cache, init, sent[k])
    requires step == [] || (last !in cache && step == [Get(UserEndpoint(last))])
    ensures forall k :: 0 <= k < |sent + step| ==> UncachedRequest(cache, init + [last], (sent + step)[k])
  {
    forall k | 0 <= k < |sent + step|
      ensures UncachedRequest(cache, init + [last], (sent + step)[k])
    {
      if k < |sent| {
        assert sent[k] == (sent + step)[k];
        var id :| id in init && id !in cache && sent[k] == Get(UserEndpoint(id));
        assert id in init + [last];
      } else {
        assert (sent + step)[k] == Get(UserEndpoint(last));
        assert last in init + [last];
      }
    }
  }

  /** A non-empty list is its first entries followed by its last. */
  lemma InitLast<T>(s: seq<T>)
    requires s != []
    ensures s[..|s| - 1] + [s[|s| - 1]] == s
  {
  }

  class MattermostClient {
    /** `userCache`: users fetched so far, by id. */
    var userCache: map<Id, User>
    /** Every request this client has sent, oldest first. */
    ghost var sent: seq<Request>

    constructor()
      ensures userCache == map[] && sent == []
    {
      userCache := map[];
      sent := [];
    }

    /** `getUser`: the cached user, else GET /users/{id}, cached on success; null on failure. */
    method GetUser(backend: Backend, userId: Id) returns (user: Option<User>)
      modifies this
      ensures userId in old(userCache) ==>
                user == Some(old(userCache)[userId]) && userCache == old(userCache) && sent == old(sent)
      ensures userId !in old(userCache) ==> sent == old(sent) + [Get(UserEndpoint(userId))]
      ensures userId !in old(userCache) ==>
                match backend.userAt(UserEndpoint(userId))
                case Ok(u) => user == Some(u) && userCache == old(userCache)[userId := u]
                case HttpError(_, _) => user == None && userCache == old(userCache)
      ensures var l := GetUserSpec(old(userCache), backend, userId);
              user == l.user && userCache == l.cache && sent == old(sent) + l.sent
    {
      if userId in userCache {
        return Some(userCache[userId]);
      }
      sent := sent + [Get(UserEndpoint(userId))];
      match backend.userAt(UserEndpoint(userId))
      case Ok(u) =>
        userCache := userCache[userId := u];
        user := Some(u);
      case HttpError(_, _) =>
        user := None;
    }

    /** `getUsersInfo`: one entry per requested id, filled in a loop over the ids. */
    method GetUsersInfo(backend: Backend, userIds: seq<Id>) returns (userMap: map<Id, UserInfo>)
      modifies this
      ensures var r := UsersInfoSpec(old(userCache), backend, userIds);
              userMap == r.users && userCache == r.cache && sent == old(sent) + r.sent
      ensures forall id :: id in userMap <==> id in userIds
      ensures forall id :: id in userIds ==> userMap[id] == Info(Resolve(old(userCache), backend, id))
    {
      userMap := map[];
      var i := 0;
      while i < |userIds|
        invariant 0 <= i <= |userIds|
        invariant var r := UsersInfoSpec(old(userCache), backend, userIds[..i]);
                  userMap == r.users && userCache == r.cache && sent == old(sent) + r.sent
      {
        UsersInfoStep(old(userCache), backend, userIds, i);
        ghost var prev := UsersInfoSpec(old(userCache), backend, userIds[..i]);
        AppendAssoc(old(sent), prev.sent, GetUserSpec(userCache, backend, userIds[i]).sent);
        var user := GetUser(backend, userIds[i]);
        if user.Some? {
          userMap := userMap[userIds[i] := UserInfo(user.value.username, DisplayName(user.value))];
        } else {
          userMap := userMap[userIds[i] := UnknownUser];
        }
        i := i + 1;
      }
      assert userIds[..i] == userIds;
      UsersInfoKeys(old(userCache), backend, userIds);
      UsersInfoEntries(old(userCache), backend, userIds);
    }

    /** `getMe`: GET /users/me. */
    method GetMe(backend: Backend) returns (reply: Reply<User>)
      modifies this`sent
      ensures reply == backend.userAt(MeEndpoint) && sent == old(sent) + [Get(MeEndpoint)]
    {
      sent := sent + [Get(MeEndpoint)];
      reply := backend.userAt(MeEndpoint);
    }

    /** `getUserByUsername`: GET /users/username/{username}. */
    method GetUserByUsername(backend: Backend, username: string) returns (reply: Reply<User>)
      modifies this`sent
      ensures reply == backend.userAt(UserByNameEndpoint(username))
      ensures sent == old(sent) + [Get(UserByNameEndpoint(username))]
    {
      sent := sent + [Get(UserByNameEndpoint(username))];
      reply := backend.userAt(UserByNameEndpoint(username));
    }

    /** `searchPosts`: POST /posts/search with body {terms, is_or_search}. */
    method SearchPosts(backend: Backend, terms: Option<ArgValue>, isOrSearch: ArgValue) returns (reply: Reply<PostList>)
      modifies this`sent
      ensures reply == backend.searchPosts(terms, isOrSearch)
      ensures sent == old(sent) + [SearchPostsRequest(terms, isOrSearch)]
    {
      sent := sent + [SearchPostsRequest(terms, isOrSearch)];
      reply := backend.searchPosts(terms, isOrSearch);
    }

    /** `searchUsers`: POST /users/search with body {term, allow_inactive: false}. */
    method SearchUsers(backend: Backend, term: Option<ArgValue>) returns (reply: Reply<seq<User>>)
      modifies this`sent
      ensures reply == backend.searchUsers(term) && sent == old(sent) + [SearchUsersRequest(term)]
    {
      sent := sent + [SearchUsersRequest(term)];
      reply := backend.searchUsers(term);
    }

    /** `getTeams`: GET /users/me/teams, forwarded as it is. */
    method GetTeams(backend: Backend) returns (reply: Reply<string>)
      modifies this`sent
      ensures reply == backend.documentAt(TeamsEndpoint) && sent == old(sent) + [Get(TeamsEndpoint)]
    {
      sent := sent + [Get(TeamsEndpoint)];
      reply := backend.documentAt(TeamsEndpoint);
    }

    /** `getChannelsForTeam`: GET /users/me/teams/{teamId}/channels, forwarded as it is. */
    method GetChannelsForTeam(backend: Backend, teamId: string) returns (reply: Reply<string>)
      modifies this`sent
      ensures reply == backend.documentAt(TeamChannelsEndpoint(teamId))
      ensures sent == old(sent) + [Get(TeamChannelsEndpoint(teamId))]
    {
      sent := sent + [Get(TeamChannelsEndpoint(teamId))];
      reply := backend.documentAt(TeamChannelsEndpoint(teamId));
    }

    /** `getPostThread`: GET /posts/{postId}/thread. */
    method GetPostThread(backend: Backend, postId: string) returns (reply: Reply<PostList>)
      modifies this`sent
      ensures reply == backend.postsAt(ThreadEndpoint(postId)) && sent == old(sent) + [Get(ThreadEndpoint(postId))]
    {
      sent := sent + [Get(ThreadEndpoint(postId))];
      reply := backend.postsAt(ThreadEndpoint(postId));
    }

    /** `getChannelMessages`: GET of one page of a channel's posts. */
    method GetChannelMessages(backend: Backend, channelId: string, page: ArgValue, perPage: ArgValue)
      returns (reply: Reply<PostList>)
      modifies this`sent
      ensures reply == backend.postsAt(ChannelPostsEndpoint(channelId, page, perPage))
      ensures sent == old(sent) + [Get(ChannelPostsEndpoint(channelId, page, perPage))]
    {
      sent := sent + [Get(ChannelPostsEndpoint(channelId, page, perPage))];
      reply := backend.postsAt(ChannelPostsEndpoint(channelId, page, perPage));
    }
  }
}
