/** The client's optimistic cache: every update maps the previous list to a
    new one (`prev.map(...)` with object spread, or an array spread); the
    React state setter only swaps the result in. The cached posts are
    modelled as the server's post view, with every field present. */
module AppContext {
  import opened Common
  import Storage

  type Post = Storage.PostView

  /** A user as the profile screens display it. */
  datatype User = User(
    id: string,
    username: string,
    name: string,
    avatar: string,
    bio: string,
    location: string,
    posts: int,
    followers: int,
    following: int,
    isFollowing: bool)

  /** The liked copy of a post: `isLiked` negated, `likes` moved by one
      against the old flag, every other field kept. */
  function Liked(post: Post): (q: Post)
    ensures q.isLiked == !post.isLiked
    ensures q.likes == (if post.isLiked then post.likes - 1 else post.likes + 1)
    ensures q.(isLiked := post.isLiked, likes := post.likes) == post
  {
    post.(isLiked := !post.isLiked, likes := if post.isLiked then post.likes - 1 else post.likes + 1)
  }

  function LikeIfMatch(postId: string, post: Post): Post {
    if post.id == postId then Liked(post) else post
  }

  function SaveIfMatch(postId: string, post: Post): Post {
    if post.id == postId then post.(isSaved := !post.isSaved) else post
  }

  function FollowIfMatch(userId: string, user: User): User {
    if user.id == userId then user.(isFollowing := !user.isFollowing) else user
  }

  /** toggleLike(postId) applied to the previous list of posts. */
  function ToggleLike(posts: seq<Post>, postId: string): (r: seq<Post>)
    ensures |r| == |posts|
    ensures forall i :: 0 <= i < |posts| && posts[i].id == postId ==>
      && r[i].isLiked == !posts[i].isLiked
      && r[i].likes == (if posts[i].isLiked then posts[i].likes - 1 else posts[i].likes + 1)
      && r[i].(isLiked := posts[i].isLiked, likes := posts[i].likes) == posts[i]
    ensures forall i :: 0 <= i < |posts| && posts[i].id != postId ==> r[i] == posts[i]
  {
    Map((p: Post) => LikeIfMatch(postId, p), posts)
  }

  /** toggleSave(postId): only `isSaved` of the matching posts changes. */
  function ToggleSave(posts: seq<Post>, postId: string): (r: seq<Post>)
    ensures |r| == |posts|
    ensures forall i :: 0 <= i < |posts| && posts[i].id == postId ==>
      r[i].isSaved == !posts[i].isSaved && r[i].likes == posts[i].likes &&
      r[i].(isSaved := posts[i].isSaved) == posts[i]
    ensures forall i :: 0 <= i < |posts| && posts[i].id != postId ==> r[i] == posts[i]
  {
    Map((p: Post) => SaveIfMatch(postId, p), posts)
  }

  /** toggleFollow(userId): only `isFollowing` of the matching users changes. */
  function ToggleFollow(users: seq<User>, userId: string): (r: seq<User>)
    ensures |r| == |users|
    ensures forall i :: 0 <= i < |users| && users[i].id == userId ==>
      r[i].isFollowing == !users[i].isFollowing &&
      r[i].(isFollowing := users[i].isFollowing) == users[i]
    ensures forall i :: 0 <= i < |users| && users[i].id != userId ==> r[i] == users[i]
  {
    Map((u: User) => FollowIfMatch(userId, u), users)
  }

  /** addPost(newPost): `[newPost, ...posts]`. */
  function AddPost(posts: seq<Post>, newPost: Post): (r: seq<Post>)
    ensures |r| == |posts| + 1
    ensures r[0] == newPost
    ensures r[1..] == posts
  {
    [newPost] + posts
  }

  /** Each toggle undone by a second toggle of the same id. */
  lemma ToggleLikeTwice(posts: seq<Post>, postId: string)
    ensures ToggleLike(ToggleLike(posts, postId), postId) == posts
  {
  }

  lemma ToggleSaveTwice(posts: seq<Post>, postId: string)
    ensures ToggleSave(ToggleSave(posts, postId), postId) == posts
  {
  }

  lemma ToggleFollowTwice(users: seq<User>, userId: string)
    ensures ToggleFollow(ToggleFollow(users, userId), userId) == users
  {
  }

  /** The optimistic like agrees with the server: toggling the cached view of
      a row gives the view of the row togglePostLike writes back. */
  lemma LikeMirrorsServer(row: Storage.PostQueryRow, now: int)
    ensures Liked(Storage.ToPostView(row, now))
         == Storage.ToPostView(Storage.PostQueryRow(Storage.LikeToggled(row.post), row.user), now)
  {
  }

  /** The same for saving. */
  lemma SaveMirrorsServer(row: Storage.PostQueryRow, now: int)
    ensures SaveIfMatch(IntToString(row.post.id), Storage.ToPostView(row, now))
         == Storage.ToPostView(Storage.PostQueryRow(Storage.SaveToggled(row.post), row.user), now)
  {
  }
}
