/** The post routes: create, list, list by author, delete by the author, like
    and unlike. Each mutating route is a specification function from the posts
    collection before the request to the reply and the collection after it,
    and a method that performs the same steps on the shared store. */
module PostRoutes {
  import opened Identity
  import opened UserRecord
  import opened PostSchema
  import opened Replies
  import opened Database

  /** A handler's reply together with the posts collection it leaves behind. */
  datatype Step<+T> = Step(reply: Reply<T>, posts: map<Id, Post>)

  /** `likes.filter(like => like !== user)`: every occurrence of `user`
      removed, everybody else kept. */
  function Without(likes: seq<Id>, user: Id): (r: seq<Id>)
    ensures user !in r
    ensures forall u | u != user :: u in r <==> u in likes
    ensures |r| <= |likes|
    ensures NoDuplicates(likes) ==> NoDuplicates(r)
  {
    if likes == [] then []
    else if likes[0] == user then Without(likes[1..], user)
    else
      var rest := Without(likes[1..], user);
      assert NoDuplicates(likes) ==> likes[0] !in likes[1..];
      [likes[0]] + rest
  }

  /** The filter keeps the relative order: it distributes over concatenation. */
  lemma {:induction false} WithoutConcat(a: seq<Id>, b: seq<Id>, user: Id)
    ensures Without(a + b, user) == Without(a, user) + Without(b, user)
  {
    if a == [] {
      assert a + b == b;
    } else {
      assert (a + b)[0] == a[0];
      assert (a + b)[1..] == a[1..] + b;
      WithoutConcat(a[1..], b, user);
    }
  }

  /** Filtering out a user who is not there changes nothing. */
  lemma {:induction false} WithoutAbsent(likes: seq<Id>, user: Id)
    requires user !in likes
    ensures Without(likes, user) == likes
  {
    if likes != [] {
      WithoutAbsent(likes[1..], user);
      assert likes == [likes[0]] + likes[1..];
    }
  }

  /** In a like list without repeats, the filter removes exactly the one
      position holding `user` and keeps the rest in order. */
  lemma RemovesOnlyThatPosition(likes: seq<Id>, user: Id, i: nat)
    requires NoDuplicates(likes)
    requires i < |likes| && likes[i] == user
    ensures Without(likes, user) == likes[..i] + likes[i + 1..]
  {
    var before, after := likes[..i], likes[i + 1..];
    assert likes == before + ([user] + after);
    assert user !in before by {
      forall j | 0 <= j < |before| ensures before[j] != user {
        assert before[j] == likes[j];
      }
    }
    assert user !in after by {
      forall j | 0 <= j < |after| ensures after[j] != user {
        assert after[j] == likes[i + 1 + j];
      }
    }
    WithoutConcat(before, [user] + after, user);
    WithoutConcat([user], after, user);
    WithoutAbsent(before, user);
    WithoutAbsent(after, user);
    assert Without([user], user) == [];
    assert [] + after == after;
  }

  // ---------------------------------------------------------------------
  // Specification of each mutating route

  /** POST /api/posts. The author is the caller and the new post starts with
      no likes. A document that fails schema validation makes `save` throw,
      and the handler's catch answers 500, as it does when the id is taken. */
  function Create(posts: map<Id, Post>, users: map<Id, User>, content: Option<string>,
                  caller: Id, now: nat, newId: Id): (s: Step<PostView>)
    requires IsCanonical(newId)
    ensures s.reply.Created? || s.reply == ServerError(MsgServerError)
    ensures s.reply.Created? <==>
      content.Some? && 1 <= |Trim(content.value)| <= MaxContentLength && newId !in posts
    ensures !s.reply.Created? ==> s.posts == posts
    ensures s.reply.Created? ==>
      && s.posts == posts[newId := Post(Trim(content.value), caller, now, [])]
      && s.reply.body == Populate(newId, s.posts[newId], users)
    ensures AllStored(posts) ==> AllStored(s.posts)
    ensures AllCanonical(posts) ==> AllCanonical(s.posts)
  {
    match NewPost(content, Some(caller), now)
    case Failure(_) => Step(ServerError(MsgServerError), posts)
    case Success(p) =>
      if newId in posts then Step(ServerError(MsgServerError), posts)
      else Step(Created(Populate(newId, p, users)), posts[newId := p])
  }

  /** DELETE /api/posts/:id. Only the author may delete; the lookup comes
      first, so a missing post gives 404 whoever asks. A malformed id makes
      the lookup throw, which the catch answers with 500. */
  function Delete(posts: map<Id, Post>, raw: string, caller: Id): (s: Step<string>)
    ensures var f := FindById(posts, raw);
      && (f.CastError? ==> s == Step(ServerError(MsgServerError), posts))
      && (f.Missing? ==> s == Step(NotFound(MsgPostNotFound), posts))
      && (f.Found? && posts[f.key].author != caller ==> s == Step(NotAuthorized(MsgNotAuthorized), posts))
      && (s.reply.Ok? <==> f.Found? && posts[f.key].author == caller)
      && (s.reply.Ok? ==>
            && s.reply.body == MsgPostRemoved
            && s.posts.Keys == posts.Keys - {f.key}
            && forall k | k in s.posts :: s.posts[k] == posts[k])
    ensures AllStored(posts) ==> AllStored(s.posts)
    ensures s.posts.Keys <= posts.Keys
  {
    match FindById(posts, raw)
    case CastError => Step(ServerError(MsgServerError), posts)
    case Missing => Step(NotFound(MsgPostNotFound), posts)
    case Found(key) =>
      if posts[key].author != caller then Step(NotAuthorized(MsgNotAuthorized), posts)
      else Step(Ok(MsgPostRemoved), posts - {key})
  }

  /** PUT /api/posts/like/:id. A user already in the likes is refused with
      400; otherwise the caller is put in front of the likes and the new list
      is returned. Nothing else in the collection changes. */
  function Like(posts: map<Id, Post>, raw: string, caller: Id): (s: Step<seq<Id>>)
    ensures var f := FindById(posts, raw);
      && (f.CastError? ==> s == Step(ServerError(MsgServerError), posts))
      && (f.Missing? ==> s == Step(NotFound(MsgPostNotFound), posts))
      && (f.Found? && caller in posts[f.key].likes ==> s == Step(BadRequest(MsgAlreadyLiked), posts))
      && (s.reply.Ok? <==> f.Found? && caller !in posts[f.key].likes)
      && (s.reply.Ok? ==>
            && s.reply.body == [caller] + posts[f.key].likes
            && s.posts == posts[f.key := posts[f.key].(likes := s.reply.body)]
            && (NoDuplicates(posts[f.key].likes) ==> NoDuplicates(s.reply.body)))
    ensures AllStored(posts) ==> AllStored(s.posts)
    ensures s.posts.Keys <= posts.Keys
  {
    match FindById(posts, raw)
    case CastError => Step(ServerError(MsgServerError), posts)
    case Missing => Step(NotFound(MsgPostNotFound), posts)
    case Found(key) =>
      var p := posts[key];
      if caller in p.likes then Step(BadRequest(MsgAlreadyLiked), posts)
      else
        var likes := [caller] + p.likes;
        Step(Ok(likes), posts[key := p.(likes := likes)])
  }

  /** PUT /api/posts/unlike/:id. A user not in the likes is refused with 400;
      otherwise the caller is filtered out of the likes, the others keeping
      their order, and the new list is returned. */
  function Unlike(posts: map<Id, Post>, raw: string, caller: Id): (s: Step<seq<Id>>)
    ensures var f := FindById(posts, raw);
      && (f.CastError? ==> s == Step(ServerError(MsgServerError), posts))
      && (f.Missing? ==> s == Step(NotFound(MsgPostNotFound), posts))
      && (f.Found? && caller !in posts[f.key].likes ==> s == Step(BadRequest(MsgNotYetLiked), posts))
      && (s.reply.Ok? <==> f.Found? && caller in posts[f.key].likes)
      && (s.reply.Ok? ==>
            && s.reply.body == Without(posts[f.key].likes, caller)
            && caller !in s.reply.body
            && (forall u | u != caller :: u in s.reply.body <==> u in posts[f.key].likes)
            && s.posts == posts[f.key := posts[f.key].(likes := s.reply.body)])
    ensures AllStored(posts) ==> AllStored(s.posts)
    ensures s.posts.Keys <= posts.Keys
  {
    match FindById(posts, raw)
    case CastError => Step(ServerError(MsgServerError), posts)
    case Missing => Step(NotFound(MsgPostNotFound), posts)
    case Found(key) =>
      var p := posts[key];
      if caller !in p.likes then Step(BadRequest(MsgNotYetLiked), posts)
      else
        var likes := Without(p.likes, caller);
        Step(Ok(likes), posts[key := p.(likes := likes)])
  }

  // ---------------------------------------------------------------------
  // Properties relating several requests

  /** A like followed by an unlike by the same user, starting from a post
      that user had not liked, restores the likes and the whole collection. */
  lemma LikeThenUnlikeRestores(posts: map<Id, Post>, raw: string, caller: Id)
    requires Like(posts, raw, caller).reply.Ok?
    ensures var key := FindById(posts, raw).key;
      Unlike(Like(posts, raw, caller).posts, raw, caller) == Step(Ok(posts[key].likes), posts)
  {
    var key := FindById(posts, raw).key;
    var p := posts[key];
    var once := Like(posts, raw, caller);
    var liked := once.posts;
    assert liked == posts[key := p.(likes := [caller] + p.likes)];
    assert FindById(liked, raw) == Found(key);
    assert caller in liked[key].likes;
    assert Without([caller] + p.likes, caller) == p.likes by {
      WithoutConcat([caller], p.likes, caller);
      WithoutAbsent(p.likes, caller);
      assert Without([caller], caller) == [];
    }
    assert liked[key].(likes := p.likes) == p;
    PutBack(posts, key, p.(likes := [caller] + p.likes));
  }

  /** Overwriting an entry and then writing the old value back restores the map. */
  lemma PutBack<V>(m: map<Id, V>, k: Id, v: V)
    requires k in m
    ensures m[k := v][k := m[k]] == m
  {
  }

  /** Liking twice: the second request is refused with 400 and changes
      nothing, so the likes keep the caller once. */
  lemma SecondLikeRefused(posts: map<Id, Post>, raw: string, caller: Id)
    requires Like(posts, raw, caller).reply.Ok?
    ensures var once := Like(posts, raw, caller);
      Like(once.posts, raw, caller) == Step(BadRequest(MsgAlreadyLiked), once.posts)
  {
    var key := FindById(posts, raw).key;
    assert FindById(Like(posts, raw, caller).posts, raw) == Found(key);
  }

  /** After the author deletes a post, every later request for that id finds
      nothing. */
  lemma DeletedPostIsGone(posts: map<Id, Post>, raw: string, caller: Id, other: Id)
    requires Delete(posts, raw, caller).reply.Ok?
    ensures var after := Delete(posts, raw, caller).posts;
      && FindById(after, raw) == Missing
      && Delete(after, raw, other).reply == NotFound(MsgPostNotFound)
      && Like(after, raw, other).reply == NotFound(MsgPostNotFound)
      && Unlike(after, raw, other).reply == NotFound(MsgPostNotFound)
  {
  }

  /** A post just created is found under its new id, and its first like is
      accepted with the liker as the only like. */
  lemma CreatedPostIsFound(posts: map<Id, Post>, users: map<Id, User>, content: Option<string>,
                           caller: Id, now: nat, newId: Id, other: Id)
    requires IsCanonical(newId)
    requires Create(posts, users, content, caller, now, newId).reply.Created?
    ensures var after := Create(posts, users, content, caller, now, newId).posts;
      && FindById(after, newId) == Found(newId)
      && Like(after, newId, other).reply == Ok([other])
  {
    var after := Create(posts, users, content, caller, now, newId).posts;
    assert after[newId].likes == [];
    assert FindById(after, newId) == Found(newId);
    var liked := Like(after, newId, other);
    assert liked.reply.Ok?;
    assert [other] + [] == [other];
    assert liked.reply == Ok([other]);
  }

  // ---------------------------------------------------------------------
  // The read-only routes

  ghost predicate IsNewest(m: map<Id, Post>, k: Id) {
    k in m && forall k' | k' in m :: m[k'].createdAt <= m[k].createdAt
  }

  lemma {:induction false} NewestExists(m: map<Id, Post>)
    requires m != map[]
    ensures exists k :: IsNewest(m, k)
    decreases |m|
  {
    var k0 :| k0 in m;
    var rest := m - {k0};
    assert forall k | k in m && k != k0 :: k in rest && rest[k] == m[k];
    if rest == map[] {
      assert IsNewest(m, k0);
    } else {
      NewestExists(rest);
      var k1 :| IsNewest(rest, k1);
      if m[k1].createdAt >= m[k0].createdAt {
        assert IsNewest(m, k1);
      } else {
        assert IsNewest(m, k0);
      }
    }
  }

  /** `ks` lists the ids of `m`, each once, newest first. */
  ghost predicate IsNewestFirst(ks: seq<Id>, m: map<Id, Post>) {
    && IsListing(ks, m)
    && (forall i, j | 0 <= i < j < |ks| :: m[ks[i]].createdAt >= m[ks[j]].createdAt)
  }

  /** Putting the newest post in front of a listing of the others lists the
      whole collection newest first. */
  lemma NewestInFront(m: map<Id, Post>, k: Id, tail: seq<Id>)
    requires IsNewest(m, k)
    requires IsNewestFirst(tail, m - {k})
    ensures IsNewestFirst([k] + tail, m)
  {
    ListingCons(m, k, tail);
    NewestInFrontOrdered(m, k, tail);
  }

  lemma NewestInFrontOrdered(m: map<Id, Post>, k: Id, tail: seq<Id>)
    requires IsNewest(m, k)
    requires IsNewestFirst(tail, m - {k})
    ensures var ks := [k] + tail;
      forall i, j | 0 <= i < j < |ks| :: m[ks[i]].createdAt >= m[ks[j]].createdAt
  {
    var rest := m - {k};
    var ks := [k] + tail;
    forall i, j | 0 <= i < j < |ks| ensures m[ks[i]].createdAt >= m[ks[j]].createdAt {
      assert ks[j] == tail[j - 1] && ks[j] in rest && rest[ks[j]] == m[ks[j]];
      if i > 0 {
        assert ks[i] == tail[i - 1] && ks[i] in rest && rest[ks[i]] == m[ks[i]];
        assert rest[tail[i - 1]].createdAt >= rest[tail[j - 1]].createdAt;
      }
    }
  }

  /** The ids of a collection in the order `sort({ createdAt: -1 })` gives:
      each id once, newest first. Posts created at the same instant come in
      an order the model leaves open. */
  ghost function NewestFirst(m: map<Id, Post>): (ks: seq<Id>)
    ensures IsNewestFirst(ks, m)
    decreases |m|
  {
    if m == map[] then []
    else
      NewestExists(m);
      var k :| IsNewest(m, k);
      assert (m - {k}).Keys == m.Keys - {k};
      var tail := NewestFirst(m - {k});
      NewestInFront(m, k, tail);
      [k] + tail
  }

  function ViewsOf(ks: seq<Id>, posts: map<Id, Post>, users: map<Id, User>): (vs: seq<PostView>)
    requires forall k | k in ks :: k in posts
  {
    seq(|ks|, i requires 0 <= i < |ks| => Populate(ks[i], posts[ks[i]], users))
  }

  /** `vs` lists every post of `m` exactly once, each with its author
      expanded, newest first. */
  ghost predicate IsFeed(vs: seq<PostView>, m: map<Id, Post>, users: map<Id, User>) {
    && |vs| == |m|
    && (forall i | 0 <= i < |vs| :: vs[i].id in m && vs[i] == Populate(vs[i].id, m[vs[i].id], users))
    && (forall k | k in m :: exists i | 0 <= i < |vs| :: vs[i].id == k)
    && (forall i, j | 0 <= i < j < |vs| :: vs[i].id != vs[j].id)
    && (forall i, j | 0 <= i < j < |vs| :: vs[i].createdAt >= vs[j].createdAt)
  }

  lemma ViewsOfNewestFirst(ks: seq<Id>, m: map<Id, Post>, users: map<Id, User>)
    requires IsNewestFirst(ks, m)
    ensures IsFeed(ViewsOf(ks, m, users), m, users)
  {
    var vs := ViewsOf(ks, m, users);
    assert forall i | 0 <= i < |vs| :: vs[i].id == ks[i] && vs[i].createdAt == m[ks[i]].createdAt;
    assert forall i | 0 <= i < |vs| :: vs[i].id in m && vs[i] == Populate(vs[i].id, m[vs[i].id], users);
    forall i, j | 0 <= i < j < |vs| ensures vs[i].id != vs[j].id && vs[i].createdAt >= vs[j].createdAt {
      assert vs[i].id == ks[i] && vs[j].id == ks[j];
    }
    forall k | k in m ensures exists i | 0 <= i < |vs| :: vs[i].id == k {
      var i :| 0 <= i < |ks| && ks[i] == k;
      assert vs[i].id == k;
    }
  }

  /** GET /api/posts: every post, newest first, authors expanded. */
  ghost function ListPosts(posts: map<Id, Post>, users: map<Id, User>): (r: Reply<seq<PostView>>)
    ensures r.Ok? && IsFeed(r.body, posts, users)
  {
    var ks := NewestFirst(posts);
    ViewsOfNewestFirst(ks, posts, users);
    Ok(ViewsOf(ks, posts, users))
  }

  /** The posts whose stored author is `author`. */
  function ByAuthor(posts: map<Id, Post>, author: Id): (r: map<Id, Post>)
    ensures forall k :: k in r <==> k in posts && posts[k].author == author
    ensures forall k | k in r :: r[k] == posts[k]
  {
    map k | k in posts && posts[k].author == author :: posts[k]
  }

  /** GET /api/posts/user/:userId: exactly the posts by that user, newest
      first. A malformed user id makes the query throw: 500. */
  ghost function ListPostsByUser(posts: map<Id, Post>, users: map<Id, User>, raw: string): (r: Reply<seq<PostView>>)
    ensures r.Ok? || r == ServerError(MsgServerError)
    ensures r.Ok? <==> IsObjectIdText(raw)
    ensures r.Ok? ==> IsFeed(r.body, ByAuthor(posts, CastId(raw).value), users)
    ensures r.Ok? ==> forall i | 0 <= i < |r.body| ::
      r.body[i].id in posts && posts[r.body[i].id].author == CastId(raw).value
    ensures r.Ok? ==> forall k | k in posts && posts[k].author == CastId(raw).value ::
      exists i | 0 <= i < |r.body| :: r.body[i].id == k
  {
    match CastId(raw)
    case None => ServerError(MsgServerError)
    case Some(author) =>
      var r := ListPosts(ByAuthor(posts, author), users);
      FeedOfAuthor(r.body, posts, author, users);
      r
  }

  lemma FeedOfAuthor(vs: seq<PostView>, posts: map<Id, Post>, author: Id, users: map<Id, User>)
    requires IsFeed(vs, ByAuthor(posts, author), users)
    ensures forall i | 0 <= i < |vs| :: vs[i].id in posts && posts[vs[i].id].author == author
    ensures forall k | k in posts && posts[k].author == author :: exists i | 0 <= i < |vs| :: vs[i].id == k
  {
    var m := ByAuthor(posts, author);
    assert forall k :: k in m <==> k in posts && posts[k].author == author;
  }

  // ---------------------------------------------------------------------
  // The handlers, step by step on the shared store

  /** `newId` is the id the store mints for the new document. */
  method CreatePost(db: Db, content: Option<string>, caller: Id, now: nat, newId: Id) returns (r: Reply<PostView>)
    requires db.Valid() && IsCanonical(newId)
    modifies db
    ensures db.Valid() && db.users == old(db.users)
    ensures Step(r, db.posts) == Create(old(db.posts), old(db.users), content, caller, now, newId)
  {
    var post := NewPost(content, Some(caller), now);
    if post.Failure? || newId in db.posts {
      // `save` throws; the catch answers 500
      return ServerError(MsgServerError);
    }
    db.posts := db.posts[newId := post.value];
    r := Created(Populate(newId, post.value, db.users));
  }

  method DeletePost(db: Db, raw: string, caller: Id) returns (r: Reply<string>)
    requires db.Valid()
    modifies db
    ensures db.Valid() && db.users == old(db.users)
    ensures Step(r, db.posts) == Delete(old(db.posts), raw, caller)
  {
    var found := FindById(db.posts, raw);
    if found.CastError? {
      return ServerError(MsgServerError);
    }
    if found.Missing? {
      return NotFound(MsgPostNotFound);
    }
    var post := db.posts[found.key];
    if post.author != caller {
      return NotAuthorized(MsgNotAuthorized);
    }
    db.posts := db.posts - {found.key};
    r := Ok(MsgPostRemoved);
  }

  method LikePost(db: Db, raw: string, caller: Id) returns (r: Reply<seq<Id>>)
    requires db.Valid()
    modifies db
    ensures db.Valid() && db.users == old(db.users)
    ensures Step(r, db.posts) == Like(old(db.posts), raw, caller)
  {
    var found := FindById(db.posts, raw);
    if found.CastError? {
      return ServerError(MsgServerError);
    }
    if found.Missing? {
      return NotFound(MsgPostNotFound);
    }
    var post := db.posts[found.key];
    if caller in post.likes {
      return BadRequest(MsgAlreadyLiked);
    }
    post := post.(likes := [caller] + post.likes);
    db.posts := db.posts[found.key := post];
    r := Ok(post.likes);
  }

  method UnlikePost(db: Db, raw: string, caller: Id) returns (r: Reply<seq<Id>>)
    requires db.Valid()
    modifies db
    ensures db.Valid() && db.users == old(db.users)
    ensures Step(r, db.posts) == Unlike(old(db.posts), raw, caller)
  {
    var found := FindById(db.posts, raw);
    if found.CastError? {
      return ServerError(MsgServerError);
    }
    if found.Missing? {
      return NotFound(MsgPostNotFound);
    }
    var post := db.posts[found.key];
    if caller !in post.likes {
      return BadRequest(MsgNotYetLiked);
    }
    post := post.(likes := Without(post.likes, caller));
    db.posts := db.posts[found.key := post];
    r := Ok(post.likes);
  }
}
