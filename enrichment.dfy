/**
  The post enrichment the tool handler repeats for search results, a user's
  messages, a channel page and a thread: collect the distinct authors of the
  posts named in `order`, resolve them with `getUsersInfo`, and map `order`
  to output records that carry the author's username and display name and
  the KST creation time.
*/
module Enrichment {
  import opened Wrappers
  import opened Mattermost
  import Kst
  import Client

  predicate NoDuplicates(xs: seq<Id>) {
    forall i, j :: 0 <= i < j < |xs| ==> xs[i] != xs[j]
  }

  /** `[...new Set(xs)]`: each id once, in the order of its first occurrence. */
  function Distinct(xs: seq<Id>): (r: seq<Id>)
    ensures forall x :: x in r <==> x in xs
    ensures NoDuplicates(r)
    ensures |r| <= |xs|
    decreases |xs|
  {
    if xs == [] then []
    else
      var prev := Distinct(xs[..|xs| - 1]);
      var last := xs[|xs| - 1];
      assert xs == xs[..|xs| - 1] + [last];
      if last in prev then prev else prev + [last]
  }

  /** A list without repetitions passes through unchanged, so Distinct is idempotent. */
  lemma {:induction false} DistinctOfDistinct(xs: seq<Id>)
    requires NoDuplicates(xs)
    ensures Distinct(xs) == xs
    decreases |xs|
  {
    if xs != [] {
      var init := xs[..|xs| - 1];
      DistinctOfDistinct(init);
      assert xs[|xs| - 1] !in init by {
        forall k | 0 <= k < |init| ensures init[k] != xs[|xs| - 1] {
          assert init[k] == xs[k];
        }
      }
      assert xs == init + [xs[|xs| - 1]];
    }
  }

  /** First-occurrence order: the distinct ids of a prefix are a prefix of the
      distinct ids of the whole list. */
  lemma {:induction false} DistinctOfPrefix(xs: seq<Id>, k: nat)
    requires k <= |xs|
    ensures Distinct(xs[..k]) <= Distinct(xs)
    decreases |xs|
  {
    if k < |xs| {
      var init := xs[..|xs| - 1];
      DistinctOfPrefix(init, k);
      assert init[..k] == xs[..k];
    } else {
      assert xs[..k] == xs;
    }
  }

  /** Every id in `order` names a post of the list. */
  predicate AllPresent(order: seq<Id>, posts: map<Id, Post>) {
    forall i :: 0 <= i < |order| ==> order[i] in posts
  }

  /** `order.map(postId => posts[postId].user_id)` */
  function UserIdsOf(order: seq<Id>, posts: map<Id, Post>): seq<Id>
    requires AllPresent(order, posts)
  {
    seq(|order|, i requires 0 <= i < |order| => posts[order[i]].userId)
  }

  /** `[...new Set(list.order?.map(postId => list.posts[postId].user_id) || [])]`:
      the authors to resolve, or the TypeError of an id without a post. */
  function AuthorIds(list: PostList): Result<seq<Id>, ToolError> {
    match list.order
    case None => Success([])
    case Some(order) =>
      if AllPresent(order, list.posts) then Success(Distinct(UserIdsOf(order, list.posts)))
      else Failure(MissingPost)
  }

  /** The authors are the distinct `user_id`s of exactly the posts named in
      `order`; none when `order` is absent; an id of `order` without a post is
      the TypeError. */
  lemma AuthorIdsSpec(list: PostList)
    ensures list.order.None? ==> AuthorIds(list) == Success([])
    ensures list.order.Some? ==> (AuthorIds(list).Success? <==> AllPresent(list.order.value, list.posts))
    ensures AuthorIds(list).Failure? ==> AuthorIds(list).error == MissingPost
    ensures AuthorIds(list).Success? ==> NoDuplicates(AuthorIds(list).value)
    ensures AuthorIds(list).Success? && list.order.Some? ==>
              forall x :: x in AuthorIds(list).value <==>
                exists i :: 0 <= i < |list.order.value| && list.posts[list.order.value[i]].userId == x
  {
    if list.order.Some? && AllPresent(list.order.value, list.posts) {
      var order := list.order.value;
      var ids := UserIdsOf(order, list.posts);
      forall x | x in ids ensures exists i :: 0 <= i < |order| && list.posts[order[i]].userId == x {
        var i :| 0 <= i < |ids| && ids[i] == x;
      }
      forall x | exists i :: 0 <= i < |order| && list.posts[order[i]].userId == x ensures x in ids {
        var i :| 0 <= i < |order| && list.posts[order[i]].userId == x;
        assert ids[i] == x;
      }
    }
  }

  // ----- Output records -----

  /** Which record the handler builds: search results keep `channel_id` and
      `update_at`; channel pages and threads drop both. */
  datatype Shape = Full | Compact

  datatype OutPost =
    | FullPost(id: Id, message: string, userId: Id, username: string, userName: string,
               channelId: Id, createAt: string, updateAt: string)
    | CompactPost(id: Id, message: string, userId: Id, username: string, userName: string,
                  createAt: string)

  /** `userInfo?.username || "unknown"` */
  function AuthorUsername(users: map<Id, UserInfo>, userId: Id): string {
    if userId in users && users[userId].username != "" then users[userId].username else "unknown"
  }

  /** `userInfo?.name || "Unknown User"` */
  function AuthorName(users: map<Id, UserInfo>, userId: Id): string {
    if userId in users && users[userId].name != "" then users[userId].name else "Unknown User"
  }

  /** The record made of one post. */
  function EnrichPost(p: Post, users: map<Id, UserInfo>, shape: Shape): OutPost {
    match shape
    case Full =>
      FullPost(p.id, p.message, p.userId, AuthorUsername(users, p.userId), AuthorName(users, p.userId),
               p.channelId, Kst.FormatTimestamp(p.createAt), Kst.FormatTimestamp(p.updateAt))
    case Compact =>
      CompactPost(p.id, p.message, p.userId, AuthorUsername(users, p.userId), AuthorName(users, p.userId),
                  Kst.FormatTimestamp(p.createAt))
  }

  /** `order.map(postId => ...)`: one record per id of `order`, in order. */
  function Reshape(order: seq<Id>, posts: map<Id, Post>, users: map<Id, UserInfo>, shape: Shape): (r: seq<OutPost>)
    requires AllPresent(order, posts)
    ensures |r| == |order|
  {
    seq(|order|, i requires 0 <= i < |order| => EnrichPost(posts[order[i]], users, shape))
  }

  /** The record of a post carries its id, message, author and KST creation time;
      only the full shape carries the channel and the KST update time. */
  lemma EnrichPostFields(p: Post, users: map<Id, UserInfo>, shape: Shape)
    ensures var r := EnrichPost(p, users, shape);
            && r.id == p.id && r.message == p.message && r.userId == p.userId
            && r.username == AuthorUsername(users, p.userId)
            && r.userName == AuthorName(users, p.userId)
            && r.createAt == Kst.FormatTimestamp(p.createAt)
            && (r.FullPost? <==> shape == Full)
            && (r.FullPost? ==> r.channelId == p.channelId && r.updateAt == Kst.FormatTimestamp(p.updateAt))
  {
  }

  /** The output keeps the length and the order of `order`: record i describes
      the post order[i], with its id, message, author and KST creation time; only
      the full shape carries the channel and the KST update time. */
  lemma ReshapePreservesOrder(order: seq<Id>, posts: map<Id, Post>, users: map<Id, UserInfo>, shape: Shape)
    requires AllPresent(order, posts)
    ensures var r := Reshape(order, posts, users, shape);
            && |r| == |order|
            && forall i :: 0 <= i < |order| ==>
                 var p := posts[order[i]];
                 && r[i].id == p.id && r[i].message == p.message && r[i].userId == p.userId
                 && r[i].username == AuthorUsername(users, p.userId)
                 && r[i].userName == AuthorName(users, p.userId)
                 && r[i].createAt == Kst.FormatTimestamp(p.createAt)
                 && (r[i].FullPost? <==> shape == Full)
                 && (r[i].FullPost? ==> r[i].channelId == p.channelId
                                        && r[i].updateAt == Kst.FormatTimestamp(p.updateAt))
  {
    forall i | 0 <= i < |order| {
      EnrichPostFields(posts[order[i]], users, shape);
    }
  }

  /** The author fields never come out empty: a missing or empty username
      becomes "unknown" and a missing or empty name "Unknown User". */
  lemma AuthorFieldsNonEmpty(users: map<Id, UserInfo>, userId: Id)
    ensures AuthorUsername(users, userId) != "" && AuthorName(users, userId) != ""
    ensures userId !in users ==>
              AuthorUsername(users, userId) == "unknown" && AuthorName(users, userId) == "Unknown User"
  {
  }

  /** The username a post's author is shown with, from the user its id resolves to. */
  function ShownUsername(user: Option<User>): string {
    if user.Some? && user.value.username != "" then user.value.username else "unknown"
  }

  /** The name a post's author is shown with, from the user its id resolves to. */
  function ShownName(user: Option<User>): string {
    if user.Some? && DisplayName(user.value) != "" then DisplayName(user.value) else "Unknown User"
  }

  /** The author fields of a record agree with the user the author id resolves
      to when `getUsersInfo` has recorded that user. */
  lemma ShownAuthor(users: map<Id, UserInfo>, cache: map<Id, User>, backend: Backend, userId: Id)
    requires userId in users && users[userId] == Client.Info(Client.Resolve(cache, backend, userId))
    ensures AuthorUsername(users, userId) == ShownUsername(Client.Resolve(cache, backend, userId))
    ensures AuthorName(users, userId) == ShownName(Client.Resolve(cache, backend, userId))
  {
  }

  /** End to end: after `getUsersInfo` on the authors of the list, every output
      record shows its author as the user the author id resolves to (cache first,
      then the backend), with the display-name fallbacks, or as the unknown user. */
  lemma EnrichedAuthors(list: PostList, cache: map<Id, User>, backend: Backend, shape: Shape)
    requires AuthorIds(list).Success? && list.order.Some?
    ensures var users := Client.UsersInfoSpec(cache, backend, AuthorIds(list).value).users;
            var r := Reshape(list.order.value, list.posts, users, shape);
            forall i :: 0 <= i < |r| ==>
              && r[i].userId in users
              && r[i].username == ShownUsername(Client.Resolve(cache, backend, r[i].userId))
              && r[i].userName == ShownName(Client.Resolve(cache, backend, r[i].userId))
  {
    AuthorIdsSpec(list);
    var ids := AuthorIds(list).value;
    var order := list.order.value;
    var users := Client.UsersInfoSpec(cache, backend, ids).users;
    Client.UsersInfoEntries(cache, backend, ids);
    var r := Reshape(order, list.posts, users, shape);
    forall i | 0 <= i < |r|
      ensures r[i].userId in users
      ensures r[i].username == ShownUsername(Client.Resolve(cache, backend, r[i].userId))
      ensures r[i].userName == ShownName(Client.Resolve(cache, backend, r[i].userId))
    {
      var p := list.posts[order[i]];
      EnrichPostFields(p, users, shape);
      assert p.userId in ids;
      ShownAuthor(users, cache, backend, p.userId);
    }
  }
}
