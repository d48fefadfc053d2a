# Mini LinkedIn: posts, users and the client state, in Dafny

This project models the core of a small social network.
- An Express and MongoDB server stores users and posts. It serves routes to create, list, delete, like and unlike posts, and to read and update user profiles.
- A Redux client keeps three slices of state: the posts, the signed-in account and the profile being viewed.

Each server route is two things in the model:
- a specification function from the collection before the request to the reply (status and body) and the collection after it (`PostRoutes.Create`, `PostRoutes.Like`, `UserRoutes.Update`, …);
- a method that performs the handler's steps on a shared store, class `Database.Db`, and is proved equal to that function.

The read-only routes are specification functions only. The schema of a post lives in `PostSchema`:
- the `trim`, `required` and `maxlength` constraints;
- the defaults for `createdAt` and `likes`;
- the author expansion done by the find hook.

Object ids are modelled in `Identity`:
- A request parameter casts to an id only when it is 24 hexadecimal digits. Otherwise the store raises a cast error.
- Every lookup by id has three outcomes: cast error, no document, found.

Each client slice is a class whose fields are the slice's state. One method stands for each reducer case, and its `modifies` clause names exactly the fields that case assigns. Reducer cases with identical bodies share one method; for example, `PostSlice.PostState.Pending` stands for the three `pending` cases.

Where the model follows the code rather than the documented behaviour:
- A post that fails schema validation on create is answered 500 "Server error". The route catches every failure of `save` in one handler (server/routes/posts.js:26-29). It does not answer 400.
- A malformed id is answered 500 by the post routes, by the profile update and by the user-posts route. Only `GET /api/users/:id` turns it into 404 (server/routes/users.js:35-37).

## Model

| member | source | states |
|---|---|---|
| Identity.CastId | server/routes/posts.js:69 | a parameter casts to an id exactly when it is 24 hex digits; the id has the parameter's own digits, with the letters A-F lowered and every other character kept, so it is canonical, and a canonical id casts to itself |
| Identity.CastIgnoresCase | server/routes/posts.js:69 | two well-formed id texts denote the same id exactly when they differ at most in the case of their letters |
| Identity.FindById | server/routes/posts.js:69-73 | a lookup is a cast error exactly for malformed text, missing exactly when the cast id is absent, and otherwise finds the document under the cast id |
| Identity.ListingCons | server/routes/posts.js:37 | one id in front of a listing of the other ids of a collection, each once, lists the whole collection, each id once |
| PostSchema.KeptStart | server/models/Post.js:7 | scanning forward stops at the first character that is not white space, or at the end, having passed only white space |
| PostSchema.KeptEnd | server/models/Post.js:7 | scanning back stops just after the last character that is not white space, or at the lower bound, having passed only white space |
| PostSchema.Trim | server/models/Post.js:7 | the trimmed content has no white space at either end; it is the slice of the input between the leading and the trailing white space, which is all that is removed; it is empty exactly when the input is all white space |
| PostSchema.TrimIdempotent | server/models/Post.js:7 | trimming twice is trimming once, and trimmed text is unchanged |
| PostSchema.TrimmedIsFixed | server/models/Post.js:7 | text with no white space at either end is left as it is by trimming |
| PostSchema.ValidationErrors | server/models/Post.js:4-14 | there are no errors exactly when content is given, trims to 1..1000 characters, and there is an author; content is reported missing exactly when absent or all white space, too long exactly when the trimmed content exceeds 1000 characters, and the author exactly when absent |
| PostSchema.NewPost | server/models/Post.js:3-22 | a post is built exactly when validation passes, with trimmed content, the given author, `createdAt` the creation time and no likes, and it satisfies the stored-post invariant; otherwise the errors are returned |
| PostSchema.Populate | server/models/Post.js:29-35 | the view keeps the post's id, content, creation time and likes, and expands the author to its id, name and email exactly when that user exists, null otherwise |
| PostSchema.PopulateShowsNameAndEmailOnly | server/models/Post.js:29-35 | the expanded author consists of id, name and email, and no other field of the user can change a view |
| UserRecord.PublicIgnoresPassword | server/routes/users.js:26 | the password-free projection does not depend on the password |
| UserRecord.Public | server/routes/users.js:26 | the projection carries the id and every field of the user but the password, unchanged |
| PostRoutes.Without | server/routes/posts.js:131-133 | filtering removes every occurrence of the user, keeps everybody else, never grows the list, and keeps a repeat-free list repeat-free |
| PostRoutes.WithoutConcat | server/routes/posts.js:131-133 | the filter keeps the relative order of the other ids: it distributes over concatenation |
| PostRoutes.WithoutAbsent | server/routes/posts.js:131-133 | filtering out a user who is not there leaves the list as it is |
| PostRoutes.RemovesOnlyThatPosition | server/routes/posts.js:131-133 | in a repeat-free list, unlike removes exactly the position holding the caller and keeps the rest in order |
| PostRoutes.Create | server/routes/posts.js:11-30 | for a freshly minted id: 201 exactly when the content validates and the id is free; the new post has the trimmed content, the caller as author, the time as `createdAt` and no likes, and the reply is its populated view; any failure is 500 and stores nothing; stored posts stay valid and keyed by canonical ids |
| PostRoutes.Delete | server/routes/posts.js:67-87 | a malformed id gives 500, a missing post 404, someone else's post 401 and nothing changes; for the author exactly that post is removed, the rest unchanged, reply "Post removed"; no id is added |
| PostRoutes.Like | server/routes/posts.js:92-113 | 500/404 for malformed/missing ids and 400 "Post already liked" for a caller already there, with nothing changed; otherwise the likes become the caller in front of the old likes, which is returned, only that post changes, and likes stay repeat-free; no id is added |
| PostRoutes.Unlike | server/routes/posts.js:118-142 | 500/404 for malformed/missing ids and 400 "Post has not yet been liked" for a caller not there, with nothing changed; otherwise the new likes are the old ones with the caller filtered out, everyone else kept, which is returned, and only that post changes; no id is added |
| PostRoutes.LikeThenUnlikeRestores | server/routes/posts.js:105-133 | a like followed by an unlike by the same user restores the original likes and the whole collection |
| PostRoutes.SecondLikeRefused | server/routes/posts.js:99-103 | a second like by the same user is refused with 400 and changes nothing |
| PostRoutes.DeletedPostIsGone | server/routes/posts.js:69-82 | after the author's delete, a later delete, like or unlike of that id finds nothing: 404 |
| PostRoutes.CreatedPostIsFound | server/routes/posts.js:15-25 | a post just created is found under its id, and a first like of it is accepted with the liker as its only like |
| PostRoutes.NewestExists | server/routes/posts.js:38 | a non-empty collection has a post no other post is newer than |
| PostRoutes.NewestInFront | server/routes/posts.js:38 | the newest post in front of a newest-first listing of the others is a newest-first listing of the whole collection |
| PostRoutes.NewestInFrontOrdered | server/routes/posts.js:38 | that listing is ordered by `createdAt`, newest first |
| PostRoutes.NewestFirst | server/routes/posts.js:37-38 | `sort({ createdAt: -1 })` lists every id of the collection once, with `createdAt` non-increasing |
| PostRoutes.ViewsOfNewestFirst | server/routes/posts.js:37-39 | expanding a newest-first listing gives a feed: each post once, populated, newest first |
| PostRoutes.ListPosts | server/routes/posts.js:35-46 | GET /api/posts answers 200 with every post once, its author expanded, newest first |
| PostRoutes.ListPostsByUser | server/routes/posts.js:51-62 | GET /api/posts/user/:userId answers 200 exactly for a well-formed id, with exactly the posts whose author is that id, newest first; otherwise 500 |
| PostRoutes.ByAuthor | server/routes/posts.js:53 | the query `{ author }` selects exactly the stored posts with that author, unchanged |
| PostRoutes.FeedOfAuthor | server/routes/posts.js:53 | a feed of the author's posts holds only posts by that author and every such post |
| PostRoutes.CreatePost | server/routes/posts.js:11-30 | the handler's steps on the store give the reply and the collection `Create` specifies, keep every stored post valid and under a canonical id, and leave the users alone |
| PostRoutes.DeletePost | server/routes/posts.js:67-87 | the handler's steps on the store give the reply and the collection `Delete` specifies, keep every stored post valid and leave the users alone |
| PostRoutes.LikePost | server/routes/posts.js:92-113 | the handler's steps on the store give the reply and the collection `Like` specifies, keep every stored post valid and leave the users alone |
| PostRoutes.UnlikePost | server/routes/posts.js:118-142 | the handler's steps on the store give the reply and the collection `Unlike` specifies, keep every stored post valid and leave the users alone |
| UserRoutes.NaturalOrder | server/routes/users.js:13 | the store's natural order lists every user id once |
| UserRoutes.GetUsers | server/routes/users.js:11-19 | GET /api/users answers 200 with every user once, each without the password |
| UserRoutes.PublicListing | server/routes/users.js:13 | projecting a listing of every id gives every user once, without the password |
| UserRoutes.GetUserById | server/routes/users.js:24-40 | 200 with the password-free user exactly when the id is well formed and present; a missing user and a malformed id both give 404 "User not found" |
| UserRoutes.FieldsOf | server/routes/users.js:50-52 | `name` and `bio` enter the update exactly when the request gives them a truthy value, and then unchanged |
| UserRoutes.SetFields | server/routes/users.js:65-69 | `$set` overwrites the name and the bio where the update has them and keeps every other field, the email and the password included |
| UserRoutes.Update | server/routes/users.js:45-76 | a malformed id gives 500; a missing user gives 404 before any authorisation check; another caller gets 401, and the store is unchanged in all three; for the owner only that user changes, name and bio only where truthy, the email and everything else kept, and the password-free result is returned |
| UserRoutes.UpdateIgnoresEmail | server/routes/users.js:47 | the outcome of an update does not depend on an email in the body |
| UserRoutes.UpdateIdempotent | server/routes/users.js:45-76 | repeating the same update gives the same reply and leaves the store as one update did |
| UserRoutes.GetUserPosts | server/routes/users.js:81-92 | GET /api/users/:id/posts answers 200 exactly for a well-formed id, with a feed of exactly the posts by that user: each once, as its populated stored view, newest first; otherwise 500 |
| UserRoutes.UpdateProfile | server/routes/users.js:45-76 | the handler's steps on the store give the reply and the users `Update` specifies and leave the posts alone |
| PostSlice.RemoveById | src/features/posts/postSlice.js:217-222 | the filter keeps exactly the entries with another id and never grows the list |
| PostSlice.RemoveByIdConcat | src/features/posts/postSlice.js:217-222 | the filter keeps the rest in order: it distributes over concatenation |
| PostSlice.RemoveByIdAbsent | src/features/posts/postSlice.js:217-222 | a list without that id is left as it is |
| PostSlice.WithLikes | src/features/posts/postSlice.js:228-234 | the map keeps length, order and every other field, and replaces the likes exactly of the entries with that id |
| PostSlice.WithLikesLastWins | src/features/posts/postSlice.js:225-247 | two like updates of the same post leave only the second |
| PostSlice.PostState.constructor | src/features/posts/postSlice.js:150-157 | both lists start empty, no flag set, empty message |
| PostSlice.PostState.Reset | src/features/posts/postSlice.js:164-169 | the flags and the message cleared; the lists are outside its frame |
| PostSlice.PostState.Pending | src/features/posts/postSlice.js:174-176 | `isLoading` set, and nothing else is in its frame (also 188-190, 202-204) |
| PostSlice.PostState.Rejected | src/features/posts/postSlice.js:182-186 | loading off, error on, message the payload; the lists are outside its frame (also 196-200, 210-214) |
| PostSlice.PostState.CreateFulfilled | src/features/posts/postSlice.js:177-181 | the payload in front of the feed, success flagged; the profile's list outside its frame |
| PostSlice.PostState.GetPostsFulfilled | src/features/posts/postSlice.js:191-195 | the feed becomes the payload; the profile's list outside its frame |
| PostSlice.PostState.GetUserPostsFulfilled | src/features/posts/postSlice.js:205-209 | the profile's list becomes the payload; the feed outside its frame |
| PostSlice.PostState.DeleteFulfilled | src/features/posts/postSlice.js:216-223 | the post removed from both lists, the rest in order, no entry with that id left; the flags outside its frame |
| PostSlice.PostState.LikesFulfilled | src/features/posts/postSlice.js:225-247 | the likes of that post replaced in both lists, after which every entry with that id in either list carries the same likes |
| AuthSlice.AuthState.constructor | src/features/auth/authSlice.js:96-102 | the account is the one saved locally, if any; no flag set |
| AuthSlice.AuthState.Reset | src/features/auth/authSlice.js:109-114 | the flags and the message cleared; the account outside its frame |
| AuthSlice.AuthState.Pending | src/features/auth/authSlice.js:118-120 | `isLoading` set, and nothing else is in its frame (also 132-134, 149-151) |
| AuthSlice.AuthState.Fulfilled | src/features/auth/authSlice.js:121-125 | the account becomes the payload, success flagged, loading off (also 135-139, 152-156) |
| AuthSlice.AuthState.SignInRejected | src/features/auth/authSlice.js:126-131 | error flagged, message the payload, the account dropped (also 140-145) |
| AuthSlice.AuthState.GetMeRejected | src/features/auth/authSlice.js:157-161 | error flagged, message the payload; the account outside its frame |
| AuthSlice.AuthState.LogoutFulfilled | src/features/auth/authSlice.js:146-148 | the account dropped; the flags outside its frame |
| UserSlice.UserState.constructor | src/features/users/userSlice.js:55-61 | no profile, no flag set, empty message |
| UserSlice.UserState.Reset | src/features/users/userSlice.js:68-73 | the flags and the message cleared; the profile outside its frame |
| UserSlice.UserState.ClearCurrentUser | src/features/users/userSlice.js:74-76 | the profile dropped; the flags outside its frame |
| UserSlice.UserState.Pending | src/features/users/userSlice.js:81-83 | `isLoading` set, and nothing else is in its frame (also 96-98) |
| UserSlice.UserState.Fulfilled | src/features/users/userSlice.js:84-88 | the profile becomes the payload, success flagged (also 99-103) |
| UserSlice.UserState.GetOtherUserRejected | src/features/users/userSlice.js:89-94 | error flagged, message the payload, the profile dropped |
| UserSlice.UserState.UpdateProfileRejected | src/features/users/userSlice.js:104-108 | error flagged, message the payload; the profile outside its frame |

## Left out

- HTTP and Express: routing, JSON encoding and the `res.status(...)` calls. A reply is a `Reply` value with its status.
- The `protect` middleware and its JWT check. The caller's id is an input of every private route; that middleware is not part of this model.
- The User model and the authentication routes (register, login, me) are not part of this model. Users are a map given to the store, and the account the client keeps is a plain record.
- The client's request thunks are not modelled: axios calls, `toast` notices, and the reads and writes of `localStorage`. Each reducer method takes the payload a thunk would deliver. The auth slice's initial account is a constructor parameter.
- Failures of the store other than the ones the routes distinguish are not modelled. The modelled ones are a cast error, a schema validation failure and a duplicate new id; connection loss and timeouts are not, though every route would answer those with 500.
- Concurrency: requests are modelled one at a time. The read-modify-write race between two likes of the same post is not represented.
- The clock and the id generator: `createdAt` is a natural number passed to the create route. The new post's id is also a parameter, required to be in the canonical form the store mints; an id already in use gives 500.
- Order among posts with equal `createdAt`: the model leaves it open, as the store does.
- The natural order of `User.find()` is left open too.
- PostRoutes.Delete: the authorisation check compares the stored author id with the caller. The source calls `toString()` on an author the find hook has already expanded into a document. Its outcome depends on behaviour of the store library outside this model, so the model states the intended comparison.
- Body fields are strings or absent. A number, an array or an object sent as `content`, `name` or `bio` is not modelled.
- PostSchema.ValidationErrors: lengths are counted in Dafny characters, not UTF-16 code units. Content with characters outside the Basic Multilingual Plane may count differently than the store counts it.
- Identity.CastId: only the 24-hex-digit text form of an object id is modelled. A 12-character string, which the store also accepts, is not.
- The client slice has no reducer cases for the pending or rejected states of delete, like and unlike, so the model has none either.
- The user interface (pages, navigation bar, post component), the URL configuration and the placeholder test file are not part of this model.
