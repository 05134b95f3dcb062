# Piple: server toggles, client cache, auth, story viewer and registration form

This project models the parts of the Piple social app (a React Native client
and an Express/drizzle server) that follow exact sequential rules. It proves
properties of each in Dafny.

- **Server data layer** (`server/storage.ts`). The `posts`, `users` and
  `stories` tables are maps from id to row, held by a `Database` class.
  `togglePostLike`, `togglePostSave` and `toggleUserFollow` each read one
  row, flip a boolean column, adjust `likes` where relevant, and write the
  row back. A missing row gives "Post not found" or "User not found". The
  pure functions build the post and story views and the `timeAgo` text.
- **Client optimistic cache** (`src/context/AppContext.js`). `toggleLike`,
  `toggleSave`, `toggleFollow` and `addPost` are functions from list to list.
  Cached posts are modelled as complete records of the server's post view
  (id, author, counters and flags all present). In the app the cache is
  seeded from local mock data, and posts added on the client lack some of
  these fields (see "## Left out"). A lemma shows that toggling a like on
  the view of a row gives exactly the view of the row the server writes back.
- **Authentication** (`server/auth.ts`). A `UserStore` class holds the user
  rows and the serial id counter. `Register` checks for a taken email, then a
  taken username, then inserts. `Login` is a decision over a lookup and
  `VerifyToken` a decision over `verify`. bcrypt, jsonwebtoken and
  `encodeURIComponent` are uninterpreted functions held in a `Crypto` value.
- **Story viewer** (`src/screens/StoryViewerScreen.js`). A class holds
  `currentIndex` and a flag recording that `navigation.goBack()` was called.
  Its event methods are tied to a pure `Step` function. `Step` is proved to
  keep the index in range over any sequence of events. The progress bars are
  a function of the index.
- **Registration form** (`src/screens/RegisterScreen.js`). The checks in
  `handleRegister` form an ordered chain. Each failing check gives its own
  alert, and `register` is called only when every check passes.

Modelling choices:

- A NULL column is `None` and column values are `Some(value)`.
- JavaScript truthiness is written out. A NULL flag reads as false. A NULL
  counter reads as 0. `!user.password` holds for NULL and for the empty
  string.
- `Math.floor(ms / 1000)` is Dafny's `/`. Its divisor is positive, so it
  rounds down the same way for negative operands.
- The clock reading `now` is a parameter of `TimeAgo`.
- shared/schema.ts declares `follows`, `post_likes` and `saved_posts` join
  tables (lines 49-68), but server/storage.ts never uses them. Like, save and
  follow state is the boolean column storage.ts reads and writes on the post
  or user row (`isLiked`, `isSaved`, `isFollowing`).
- The `likes` counter is not floored at 0; `LikeNotFloored` shows -1 being
  stored.
- `toggleUserFollow` takes only the id of the user row; it has no follower
  argument and no self-follow check.
- No toggle writes a notification.
- `storage.getUserByEmail` and `storage.getUserByUsername` are called by
  `auth.ts` but are not defined in `server/storage.ts`. They are modelled as
  `Auth.Lookup`, which returns the first matching row in insertion order.
- `Storage.Database.Valid` records that each row is stored under its own
  primary key. The toggles preserve it; no other contract depends on it.
- The `users` table appears twice: as `Storage.UserRow`, with the columns
  storage.ts touches, and as `Auth.StoredUser`, with the columns auth.ts
  touches. The two modules never share a table value, so nothing links them.

## Model

| member | source | states |
|---|---|---|
| `Common.Map` | server/storage.ts:55-67 | `Array.prototype.map`: one result per element, in the same order, each the function applied to that element |
| `Common.NatToString` | server/storage.ts:155-157 | decimal text of a natural number: non-empty, digits only, no leading zero |
| `Common.NatToStringValue` | server/storage.ts:155-157 | reading the decimal text back gives the number (round trip) |
| `Common.IntToString` | server/storage.ts:56 | `id.toString()`: the digits, with a leading `-` for a negative id |
| `Common.IntToStringInjective` | server/storage.ts:56 | different ids give different strings |
| `Storage.LikeToggled` | server/storage.ts:85-89 | the row written back: `isLiked` is the negation of the stored flag (NULL read as false); `likes` is stored (NULL read as 0) + 1 when newly liked and - 1 when unliked; every other column unchanged |
| `Storage.SaveToggled` | server/storage.ts:100-104 | only `isSaved` is negated; `likes` and every other column unchanged |
| `Storage.FollowToggled` | server/storage.ts:140-144 | only `isFollowing` is negated; every other column unchanged |
| `Storage.LikeToggledTwice` | server/storage.ts:85-90 | liking twice restores the like state, and restores `likes` when it was non-NULL (NULL becomes 0); a row with both columns non-NULL comes back exactly |
| `Storage.SaveToggledTwice` | server/storage.ts:100-104 | saving twice restores the save state; a non-NULL flag comes back exactly |
| `Storage.FollowToggledTwice` | server/storage.ts:140-144 | following twice restores the follow state; a non-NULL flag comes back exactly |
| `Storage.LikeKeepsConsistency` | server/storage.ts:85-86 | a counter of at least 1 while liked and at least 0 otherwise stays so after a toggle, so it never goes negative from such a state |
| `Storage.LikeNotFloored` | server/storage.ts:86 | un-liking a row whose counter is 0 stores -1: there is no floor |
| `Storage.Database.constructor` | server/storage.ts:6-10 | the tables start as given, every row stored under its own id |
| `Storage.Database.TogglePostLike` | server/storage.ts:80-93 | a missing id fails with "Post not found" and changes nothing; otherwise only that row is replaced by `LikeToggled` of it, the result is exactly the written `{isLiked, likes}`, the other tables are unchanged and `userId` has no effect |
| `Storage.Database.TogglePostSave` | server/storage.ts:95-107 | a missing id fails with "Post not found" and changes nothing; otherwise only that row is replaced by `SaveToggled` of it and the written `isSaved` is returned |
| `Storage.Database.ToggleUserFollow` | server/storage.ts:135-147 | a missing id fails with "User not found" and changes nothing; otherwise only that user row is replaced by `FollowToggled` of it and the written `isFollowing` is returned |
| `Storage.ElapsedSeconds` | server/storage.ts:152 | the whole seconds elapsed, rounded down: `s*1000 <= now - created < s*1000 + 1000` |
| `Storage.TimeAgo` | server/storage.ts:149-158 | NULL date or under 60 s: "Just now"; under 3600 s: minutes (1 to 59) + "m ago"; under 86400 s: hours (1 to 23) + "h ago"; otherwise days (at least 1) + "d ago" |
| `Storage.ToPostView` | server/storage.ts:55-67 | id stringified; user, image and caption copied; NULL `likes`/`comments` become 0, NULL flags false, NULL `location` ""; `timeAgo` from `createdAt`; `likedBy` empty |
| `Storage.PostViews` | server/storage.ts:32-68 | one view per query row, in the query's (`createdAt` descending) order |
| `Storage.PostViewIdsDistinct` | server/storage.ts:56 | posts with different ids get different view ids |
| `Storage.ToStoryView` | server/storage.ts:126-132 | id stringified, author copied, NULL flags false, `isYourStory` always false |
| `Storage.StoryViews` | server/storage.ts:109-133 | one view per query row, in order, none marked as the viewer's own |
| `AppContext.Liked` | src/context/AppContext.js:22-26 | `isLiked` negated; `likes` - 1 if it was liked, + 1 otherwise; every other field unchanged |
| `AppContext.ToggleLike` | src/context/AppContext.js:18-30 | same length and order; posts with the id are `Liked`, posts with other ids unchanged |
| `AppContext.ToggleSave` | src/context/AppContext.js:32-38 | same length and order; only `isSaved` of matching posts is negated, `likes` untouched; other posts unchanged |
| `AppContext.ToggleFollow` | src/context/AppContext.js:40-46 | same length and order; only `isFollowing` of matching users is negated; other users unchanged |
| `AppContext.AddPost` | src/context/AppContext.js:48-50 | the new post first, then the old posts in their order |
| `AppContext.ToggleLikeTwice` | src/context/AppContext.js:24-25 | toggling the like of the same id twice gives back the original list |
| `AppContext.ToggleSaveTwice` | src/context/AppContext.js:35 | toggling the save of the same id twice gives back the original list |
| `AppContext.ToggleFollowTwice` | src/context/AppContext.js:43 | toggling the follow of the same id twice gives back the original list |
| `AppContext.LikeMirrorsServer` | src/context/AppContext.js:21-26 | the optimistic like of a post's view equals the view of the row `togglePostLike` writes back |
| `AppContext.SaveMirrorsServer` | src/context/AppContext.js:35 | the optimistic save of a post's view equals the view of the row `togglePostSave` writes back |
| `Auth.JwtSecret` | server/auth.ts:5 | the environment's non-empty secret, else the built-in default; never empty |
| `Auth.Lookup` | server/auth.ts:22-28 | finds nothing exactly when no row matches the email (or username); a found row is in the store, matches, and no earlier row matches |
| `Auth.LookupAppended` | server/auth.ts:61 | after inserting a row that no earlier row matches, the lookup finds that row |
| `Auth.NewUser` | server/auth.ts:32-40 | the inserted row has the next id, the given username, email and name, the password `hash(password, 10)` (never the plain password), and the ui-avatars URL built from the encoded name (`AvatarUrl`, auth.ts:39) |
| `Auth.Reply` | server/auth.ts:42-57 | the token signs `{userId: id, email}` with the secret and "30d"; the returned user has id, username, email, name and avatar and no password |
| `Auth.Login` | server/auth.ts:60-89 | succeeds exactly when the email is found, the stored password is present (`HasPassword`: `!user.password` is false only for a non-empty hash) and compare accepts it; any failure says "Invalid email or password"; a success signs `{userId, email}` for the found user |
| `Auth.VerifyToken` | server/auth.ts:91-98 | the decoded claims when verification succeeds, otherwise "Invalid token" |
| `Auth.ReplyTokenVerifies` | server/auth.ts:42-46 | with libraries that verify what they sign, an issued token verifies to `{userId, email}` of its user |
| `Auth.AppendKeepsUnique` | server/auth.ts:22-30 | when neither the email nor the username is found, inserting keeps usernames and emails unique |
| `Auth.LoginAfterRegistration` | server/auth.ts:61-71 | with a hash that its compare accepts, logging in right after registering succeeds with the same reply |
| `Auth.UserStore.constructor` | shared/schema.ts:3-4 | an empty user table whose serial starts at 1 |
| `Auth.UserStore.Register` | server/auth.ts:16-58 | a taken email fails with "Email already exists" before the username is looked up; a fresh email with a taken username fails with "Username already exists"; both leave the store unchanged; otherwise exactly `NewUser` is appended under the next id and its `Reply` returned; ids and accounts stay unique |
| `StoryViewer.Step` | src/screens/StoryViewerScreen.js:41-62 | next increments below the last story and closes at the last without moving; previous decrements above 0 and does nothing at 0; a tap left of `width/2` is previous and any other tap is next; a finished timer is next and an unfinished one does nothing; the index stays in range |
| `StoryViewer.RunStaysInRange` | src/screens/StoryViewerScreen.js:19-53 | from a valid index, any sequence of events keeps the index in `[0, stories.length)` |
| `StoryViewer.RunStaysClosed` | src/screens/StoryViewerScreen.js:45 | once `goBack` has been called, no event undoes it |
| `StoryViewer.NextsReachLast` | src/screens/StoryViewerScreen.js:42-43 | `n` next events from index `i` with `i + n` at most the last index reach `i + n` without closing |
| `StoryViewer.BarFor` | src/screens/StoryViewerScreen.js:81-89 | a bar is full exactly below the current index, animating exactly at it, and empty exactly above it |
| `StoryViewer.ProgressBars` | src/screens/StoryViewerScreen.js:75-94 | one bar per story, bar `i` being `BarFor(i, current)` |
| `StoryViewer.BarsCount` | src/screens/StoryViewerScreen.js:81-89 | at a valid index exactly `current` bars are full and exactly one animates |
| `StoryViewer.StoryViewerScreen.constructor` | src/screens/StoryViewerScreen.js:19-20 | the index starts at `initialIndex` (default 0) and the viewer is open |
| `StoryViewer.StoryViewerScreen.HandleNext` | src/screens/StoryViewerScreen.js:41-47 | below the last index the index increments; at the last story the viewer closes and the index is unchanged |
| `StoryViewer.StoryViewerScreen.HandlePrevious` | src/screens/StoryViewerScreen.js:49-53 | above 0 the index decrements; at 0 nothing changes |
| `StoryViewer.StoryViewerScreen.HandlePress` | src/screens/StoryViewerScreen.js:55-62 | a tap at `x < width/2` acts as previous, any other tap as next |
| `StoryViewer.StoryViewerScreen.TimerEnded` | src/screens/StoryViewerScreen.js:32-36 | a finished timer acts as next; an interrupted one changes nothing |
| `StoryViewer.StoryViewerScreen.Close` | src/screens/StoryViewerScreen.js:101 | the close button closes the viewer and keeps the index |
| `StoryViewer.StoryViewerScreen.Bars` | src/screens/StoryViewerScreen.js:75-94 | the bars rendered for the current index: full below, animating at, empty above |
| `RegisterScreen.HandleRegister` | src/screens/RegisterScreen.js:28-45 | "Please fill in all fields" exactly when username, email, name or password is empty; then "Passwords do not match" exactly when the confirmation differs; then "Password must be at least 6 characters" exactly when shorter than 6; `register(username, email, password, name)` exactly when all pass |
| `RegisterScreen.AfterRegister` | src/screens/RegisterScreen.js:48-50 | a failed reply is shown as "Registration Failed" with its error text; a success shows nothing |
| `RegisterScreen.EmptinessIgnoresConfirmation` | src/screens/RegisterScreen.js:29-32 | when a field is empty, the confirmation field does not affect the outcome |
| `RegisterScreen.SixCharactersPass` | src/screens/RegisterScreen.js:39-42 | a matching password of exactly 6 characters reaches `register` |

## Left out

- HTTP routes (`server/index.ts`) are not modelled. Their argument mismatches with `storage.ts` are not modelled either: the model keeps `storage.ts`'s own signatures.
- The drizzle/pg queries are not modelled. The join and the `createdAt` descending order of `getPosts`/`getStories` are taken as the given input order. `getUsers`, `getUserById`, `createUser` and `createPost` are single queries with no logic.
- Concurrency and transactions are not modelled. Each toggle and each registration runs as one atomic step, so the read-then-write race and the duplicate-check race are absent.
- Storage.Database.ToggleUserFollow: the `users` table at shared/schema.ts:3-16 declares no `is_following` column, so against that schema `user.isFollowing` at server/storage.ts:140 is always undefined (read as false) and the write at lines 142-144 has no column to land in. The model gives `UserRow` the column storage.ts reads and writes, so it does not capture that mismatch.
- Auth.UserStore.Register: `username` is varchar(50), `email` varchar(255) and `name` varchar(100) (shared/schema.ts:5-8). A registration with a longer value passes both pre-checks and then fails inside `storage.createUser` (server/auth.ts:34) with a database error, adding no user. The model has no length limits, so it returns `Ok` and appends the row in that case.
- Storage.Database.TogglePostLike: the `likes` column is a 32-bit `integer`. The model's counter is unbounded, so it does not capture the database error at 2^31 - 1.
- Auth.NewUser: bcrypt's random salt is not modelled. The hash is a function of the password and the cost factor alone.
- Token expiry ('30d') is clock-based. It is passed to `sign` as text and otherwise left to the library.
- Auth.VerifyToken: `jwt.verify` returns the whole decoded payload, including the `iat` and `exp` fields `jwt.sign` adds; the cast at server/auth.ts:93 does not remove them. The model's `Claims` hold only `userId` and `email`.
- `encodeURIComponent` is an uninterpreted function.
- RegisterScreen.HandleRegister: `password.length` counts UTF-16 code units in JavaScript, while the model counts characters. Passwords outside the Basic Multilingual Plane are therefore measured differently.
- The `setLoading` calls and the asynchronous `register` request around the form checks are side effects and are not modelled.
- StoryViewer.StoryViewerScreen.constructor: requires a valid `initialIndex` into a non-empty story list. The screen accepts any route params, and with an empty `stories` or an out-of-range `initialIndex` its render throws at src/screens/StoryViewerScreen.js:64-70 when it reads `currentStory.image`. The model does not capture that crash.
- AppContext.AddPost: cached posts are modelled as complete post views. The only caller, src/screens/CreatePostScreen.js:83-95, builds a post with no `id`, `user` or `likes` (and with a `mediaType` field the model lacks). The model cannot express such a post, so what follows from its missing fields is not captured.
- AppContext.ToggleLike: for a cached post without `id`, `toggleLike(item.id)` is `toggleLike(undefined)`, which matches every post lacking an id; with `likes` undefined, the new value is `undefined + 1`, which is NaN, and a second toggle leaves it NaN. ToggleLikeTwice therefore holds only for posts that have an id and a numeric `likes` below 2^53: `likes` is a JavaScript double, so at 2^53 `likes + 1` rounds back to 2^53 and the second toggle gives 2^53 - 1. The model's counter is an unbounded integer and represents only the posts for which the lemma holds.
- AppContext.AddPost: `addPost` builds from the `posts` of the last render, not from the state updater's previous value. The model passes that list in, so a lost update between two quick calls is not captured.
- Story animation, `STORY_DURATION` and the interpolated width of the animating bar are floating-point timing. Only the finished or stopped timer is modelled, as an event.
- The story viewer does not stop handling events after `goBack`. The unmount and the cleanup that stops the timer are navigation effects outside the model.
- `formatNumber`, the client login check, AsyncStorage/`fetch` plumbing, seed data and all styling and rendering are not part of this model.
