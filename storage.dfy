/** The server's data layer over denormalised rows: the three toggle updates
    that read one row, flip a boolean column and write the row back, and the
    pure builders of the post and story views with their `timeAgo` text.
    Tables are maps from id to row; a query's `ORDER BY created_at DESC`
    result is the sequence given to the view builders. */
module Storage {
  import opened Common

  const PostNotFound := "Post not found"
  const UserNotFound := "User not found"

  /** The `posts` columns the data layer reads and writes; NULL-able columns are options. */
  datatype PostRow = PostRow(
    id: int,
    userId: int,
    image: string,
    caption: Option<string>,
    likes: Option<int>,
    comments: Option<int>,
    isLiked: Option<bool>,
    isSaved: Option<bool>,
    location: Option<string>,
    createdAt: Option<int>)

  /** The `users` columns the data layer reads and writes, `isFollowing` included. */
  datatype UserRow = UserRow(
    id: int,
    username: string,
    name: string,
    avatar: Option<string>,
    isFollowing: Option<bool>)

  datatype StoryRow = StoryRow(
    id: int,
    userId: int,
    image: string,
    isLive: Option<bool>,
    isSeen: Option<bool>,
    createdAt: Option<int>)

  /** JavaScript truthiness of a nullable boolean column: NULL counts as false. */
  predicate Truthy(b: Option<bool>) {
    b.Some? && b.value
  }

  /** `post.likes || 0`: a NULL counter reads as 0. */
  function StoredLikes(row: PostRow): int {
    row.likes.GetOr(0)
  }

  // ---------------------------------------------------------------------
  // The rows the toggles write back

  /** The row togglePostLike writes: `isLiked` negated, `likes` moved by one
      in the direction of the new state, every other column as it was. */
  function LikeToggled(row: PostRow): (r: PostRow)
    ensures r.isLiked == Some(!Truthy(row.isLiked))
    ensures !Truthy(row.isLiked) ==> r.likes == Some(StoredLikes(row) + 1)
    ensures Truthy(row.isLiked) ==> r.likes == Some(StoredLikes(row) - 1)
    ensures r.(isLiked := row.isLiked, likes := row.likes) == row
  {
    var isLiked := !Truthy(row.isLiked);
    var newLikes := if isLiked then StoredLikes(row) + 1 else StoredLikes(row) - 1;
    row.(isLiked := Some(isLiked), likes := Some(newLikes))
  }

  /** The row togglePostSave writes: only `isSaved` changes. */
  function SaveToggled(row: PostRow): (r: PostRow)
    ensures r.isSaved == Some(!Truthy(row.isSaved))
    ensures r.likes == row.likes
    ensures r.(isSaved := row.isSaved) == row
  {
    row.(isSaved := Some(!Truthy(row.isSaved)))
  }

  /** The row toggleUserFollow writes: only `isFollowing` changes. */
  function FollowToggled(row: UserRow): (r: UserRow)
    ensures r.isFollowing == Some(!Truthy(row.isFollowing))
    ensures r.(isFollowing := row.isFollowing) == row
  {
    row.(isFollowing := Some(!Truthy(row.isFollowing)))
  }

  /** Liking twice restores the like state and a non-NULL counter; a NULL
      counter comes back as 0 and a NULL flag as false. */
  lemma LikeToggledTwice(row: PostRow)
    ensures Truthy(LikeToggled(LikeToggled(row)).isLiked) == Truthy(row.isLiked)
    ensures row.likes.Some? ==> LikeToggled(LikeToggled(row)).likes == row.likes
    ensures row.likes.None? ==> LikeToggled(LikeToggled(row)).likes == Some(0)
    ensures row.likes.Some? && row.isLiked.Some? ==> LikeToggled(LikeToggled(row)) == row
  {
  }

  lemma SaveToggledTwice(row: PostRow)
    ensures row.isSaved.Some? ==> SaveToggled(SaveToggled(row)) == row
    ensures Truthy(SaveToggled(SaveToggled(row)).isSaved) == Truthy(row.isSaved)
  {
  }

  lemma FollowToggledTwice(row: UserRow)
    ensures row.isFollowing.Some? ==> FollowToggled(FollowToggled(row)) == row
    ensures Truthy(FollowToggled(FollowToggled(row)).isFollowing) == Truthy(row.isFollowing)
  {
  }

  /** The counter is not floored: un-liking a row whose counter is already
      0 stores -1. Consistency of the counter with the flag (at least one
      like while the flag is set) is what keeps it non-negative, and every
      like toggle preserves that consistency. */
  ghost predicate LikesConsistent(row: PostRow) {
    StoredLikes(row) >= (if Truthy(row.isLiked) then 1 else 0)
  }

  lemma LikeKeepsConsistency(row: PostRow)
    requires LikesConsistent(row)
    ensures LikesConsistent(LikeToggled(row))
    ensures LikeToggled(row).likes.value >= 0
  {
  }

  lemma LikeNotFloored()
    ensures LikeToggled(PostRow(1, 1, "", None, Some(0), None, Some(true), None, None, None)).likes == Some(-1)
  {
  }

  // ---------------------------------------------------------------------
  // The tables and the read-modify-write updates

  datatype LikeState = LikeState(isLiked: bool, likes: int)

  /** Every row is stored under its own id, as a primary key lookup finds it. */
  ghost predicate KeyedById(posts: map<int, PostRow>, users: map<int, UserRow>, stories: map<int, StoryRow>) {
    && (forall id :: id in posts ==> posts[id].id == id)
    && (forall id :: id in users ==> users[id].id == id)
    && (forall id :: id in stories ==> stories[id].id == id)
  }

  class Database {
    var posts: map<int, PostRow>
    var users: map<int, UserRow>
    var stories: map<int, StoryRow>

    ghost predicate Valid()
      reads this
    {
      KeyedById(posts, users, stories)
    }

    constructor (posts: map<int, PostRow>, users: map<int, UserRow>, stories: map<int, StoryRow>)
      requires KeyedById(posts, users, stories)
      ensures Valid()
      ensures this.posts == posts && this.users == users && this.stories == stories
    {
      this.posts := posts;
      this.users := users;
      this.stories := stories;
    }

    /** togglePostLike(postId, userId): `userId` is accepted and ignored. */
    method TogglePostLike(postId: int, userId: int) returns (r: Result<LikeState>)
      requires Valid()
      modifies this
      ensures Valid()
      ensures postId !in old(posts) ==> r == Err(PostNotFound) && posts == old(posts)
      ensures postId in old(posts) ==>
        && posts == old(posts)[postId := LikeToggled(old(posts)[postId])]
        && r == Ok(LikeState(posts[postId].isLiked.value, posts[postId].likes.value))
      ensures users == old(users) && stories == old(stories)
    {
      if postId !in posts {
        return Err(PostNotFound);
      }
      var post := posts[postId];
      var isLiked := !Truthy(post.isLiked);
      var newLikes := if isLiked then StoredLikes(post) + 1 else StoredLikes(post) - 1;
      posts := posts[postId := post.(isLiked := Some(isLiked), likes := Some(newLikes))];
      r := Ok(LikeState(isLiked, newLikes));
    }

    method TogglePostSave(postId: int) returns (r: Result<bool>)
      requires Valid()
      modifies this
      ensures Valid()
      ensures postId !in old(posts) ==> r == Err(PostNotFound) && posts == old(posts)
      ensures postId in old(posts) ==>
        && posts == old(posts)[postId := SaveToggled(old(posts)[postId])]
        && r == Ok(posts[postId].isSaved.value)
      ensures users == old(users) && stories == old(stories)
    {
      if postId !in posts {
        return Err(PostNotFound);
      }
      var post := posts[postId];
      var isSaved := !Truthy(post.isSaved);
      posts := posts[postId := post.(isSaved := Some(isSaved))];
      r := Ok(isSaved);
    }

    /** toggleUserFollow(userId): flips the flag stored on the user's own row;
        there is no follower argument and no self-follow check. */
    method ToggleUserFollow(userId: int) returns (r: Result<bool>)
      requires Valid()
      modifies this
      ensures Valid()
      ensures userId !in old(users) ==> r == Err(UserNotFound) && users == old(users)
      ensures userId in old(users) ==>
        && users == old(users)[userId := FollowToggled(old(users)[userId])]
        && r == Ok(users[userId].isFollowing.value)
      ensures posts == old(posts) && stories == old(stories)
    {
      if userId !in users {
        return Err(UserNotFound);
      }
      var user := users[userId];
      var isFollowing := !Truthy(user.isFollowing);
      users := users[userId := user.(isFollowing := Some(isFollowing))];
      r := Ok(isFollowing);
    }
  }

  // ---------------------------------------------------------------------
  // Views

  /** Whole seconds elapsed, rounded down as `Math.floor` does. */
  function ElapsedSeconds(createdAt: int, now: int): (s: int)
    ensures s * 1000 <= now - createdAt < s * 1000 + 1000
  {
    (now - createdAt) / 1000
  }

  /** getTimeAgo(date), with the clock reading `now` (milliseconds) as a parameter. */
  function TimeAgo(createdAt: Option<int>, now: int): (r: string)
    ensures createdAt.None? ==> r == "Just now"
    ensures createdAt.Some? ==>
      var s := ElapsedSeconds(createdAt.value, now);
      && (s < 60 ==> r == "Just now")
      && (60 <= s < 3600 ==> 1 <= s / 60 < 60 && r == NatToString(s / 60) + "m ago")
      && (3600 <= s < 86400 ==> 1 <= s / 3600 < 24 && r == NatToString(s / 3600) + "h ago")
      && (86400 <= s ==> 1 <= s / 86400 && r == NatToString(s / 86400) + "d ago")
  {
    if createdAt.None? then "Just now"
    else
      var seconds := ElapsedSeconds(createdAt.value, now);
      if seconds < 60 then "Just now"
      else if seconds < 3600 then NatToString(seconds / 60) + "m ago"
      else if seconds < 86400 then NatToString(seconds / 3600) + "h ago"
      else NatToString(seconds / 86400) + "d ago"
  }

  datatype PostAuthor = PostAuthor(id: int, username: string, name: string, avatar: Option<string>)

  /** One row of getPosts' query: the post columns and the left-joined author. */
  datatype PostQueryRow = PostQueryRow(post: PostRow, user: Option<PostAuthor>)

  /** The post shape the server returns and the client renders. */
  datatype PostView = PostView(
    id: string,
    user: Option<PostAuthor>,
    image: string,
    caption: Option<string>,
    likes: int,
    comments: int,
    isLiked: bool,
    isSaved: bool,
    location: string,
    timeAgo: string,
    likedBy: seq<string>)

  function ToPostView(p: PostQueryRow, now: int): (v: PostView)
    ensures v.id == IntToString(p.post.id)
    ensures v.user == p.user && v.image == p.post.image && v.caption == p.post.caption
    ensures p.post.likes.None? ==> v.likes == 0
    ensures p.post.likes.Some? ==> v.likes == p.post.likes.value
    ensures p.post.comments.None? ==> v.comments == 0
    ensures p.post.comments.Some? ==> v.comments == p.post.comments.value
    ensures v.isLiked <==> p.post.isLiked == Some(true)
    ensures v.isSaved <==> p.post.isSaved == Some(true)
    ensures p.post.location.None? ==> v.location == ""
    ensures p.post.location.Some? ==> v.location == p.post.location.value
    ensures v.timeAgo == TimeAgo(p.post.createdAt, now)
    ensures v.likedBy == []
  {
    PostView(
      IntToString(p.post.id),
      p.user,
      p.post.image,
      p.post.caption,
      p.post.likes.GetOr(0),
      p.post.comments.GetOr(0),
      Truthy(p.post.isLiked),
      Truthy(p.post.isSaved),
      p.post.location.GetOr(""),
      TimeAgo(p.post.createdAt, now),
      [])
  }

  /** The result of getPosts: one view per query row, in the query's order. */
  function PostViews(rows: seq<PostQueryRow>, now: int): (r: seq<PostView>)
    ensures |r| == |rows|
    ensures forall i :: 0 <= i < |rows| ==> r[i] == ToPostView(rows[i], now)
  {
    Map((p: PostQueryRow) => ToPostView(p, now), rows)
  }

  /** Posts with distinct ids keep distinct string ids in the views. */
  lemma PostViewIdsDistinct(rows: seq<PostQueryRow>, now: int, i: int, j: int)
    requires 0 <= i < |rows| && 0 <= j < |rows|
    requires rows[i].post.id != rows[j].post.id
    ensures PostViews(rows, now)[i].id != PostViews(rows, now)[j].id
  {
    if PostViews(rows, now)[i].id == PostViews(rows, now)[j].id {
      IntToStringInjective(rows[i].post.id, rows[j].post.id);
    }
  }

  datatype StoryAuthor = StoryAuthor(id: int, username: string, avatar: Option<string>)

  datatype StoryQueryRow = StoryQueryRow(story: StoryRow, user: Option<StoryAuthor>)

  datatype StoryView = StoryView(
    id: string,
    user: Option<StoryAuthor>,
    isLive: bool,
    isSeen: bool,
    isYourStory: bool)

  function ToStoryView(s: StoryQueryRow): (v: StoryView)
    ensures v.id == IntToString(s.story.id)
    ensures v.user == s.user
    ensures v.isLive <==> s.story.isLive == Some(true)
    ensures v.isSeen <==> s.story.isSeen == Some(true)
    ensures !v.isYourStory
  {
    StoryView(IntToString(s.story.id), s.user, Truthy(s.story.isLive), Truthy(s.story.isSeen), false)
  }

  /** The result of getStories: one view per query row, in the query's order. */
  function StoryViews(rows: seq<StoryQueryRow>): (r: seq<StoryView>)
    ensures |r| == |rows|
    ensures forall i :: 0 <= i < |rows| ==> r[i] == ToStoryView(rows[i])
    ensures forall i :: 0 <= i < |r| ==> !r[i].isYourStory
  {
    Map(ToStoryView, rows)
  }
}
