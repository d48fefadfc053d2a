/** The user routes: list users, get one user, update one's own profile, and
    list a user's posts. */
module UserRoutes {
  import opened Identity
  import opened UserRecord
  import opened PostSchema
  import opened Replies
  import opened Database
  import PostRoutes

  /** The ids of a collection in the store's natural order, which the model
      leaves open: each id once. */
  ghost function NaturalOrder(m: map<Id, User>): (ks: seq<Id>)
    ensures IsListing(ks, m)
    decreases |m|
  {
    if m == map[] then []
    else
      var k :| k in m;
      var tail := NaturalOrder(m - {k});
      ListingCons(m, k, tail);
      [k] + tail
  }

  /** GET /api/users: every user once, without the password. */
  ghost function GetUsers(users: map<Id, User>): (r: Reply<seq<PublicUser>>)
    ensures r.Ok? && |r.body| == |users|
    ensures forall i | 0 <= i < |r.body| :: r.body[i].id in users && r.body[i] == Public(r.body[i].id, users[r.body[i].id])
    ensures forall k | k in users :: exists i | 0 <= i < |r.body| :: r.body[i].id == k
    ensures forall i, j | 0 <= i < j < |r.body| :: r.body[i].id != r.body[j].id
  {
    var ks := NaturalOrder(users);
    PublicListing(ks, users);
    Ok(PublicViews(ks, users))
  }

  function PublicViews(ks: seq<Id>, users: map<Id, User>): (vs: seq<PublicUser>)
    requires forall k | k in ks :: k in users
    ensures |vs| == |ks|
  {
    seq(|ks|, i requires 0 <= i < |ks| => Public(ks[i], users[ks[i]]))
  }

  lemma PublicListing(ks: seq<Id>, users: map<Id, User>)
    requires IsListing(ks, users)
    ensures var vs := PublicViews(ks, users);
      && |vs| == |users|
      && (forall i | 0 <= i < |vs| :: vs[i].id in users && vs[i] == Public(vs[i].id, users[vs[i].id]))
      && (forall k | k in users :: exists i | 0 <= i < |vs| :: vs[i].id == k)
      && (forall i, j | 0 <= i < j < |vs| :: vs[i].id != vs[j].id)
  {
    var vs := PublicViews(ks, users);
    assert forall i | 0 <= i < |vs| :: vs[i].id == ks[i];
    forall k | k in users ensures exists i | 0 <= i < |vs| :: vs[i].id == k {
      var i :| 0 <= i < |ks| && ks[i] == k;
      assert vs[i].id == k;
    }
  }

  /** GET /api/users/:id: the user without the password. A malformed id
      raises a cast error of kind 'ObjectId', which the handler answers with
      404 like a missing user. */
  function GetUserById(users: map<Id, User>, raw: string): (r: Reply<PublicUser>)
    ensures r.Ok? || r == NotFound(MsgUserNotFound)
    ensures r.Ok? <==> IsObjectIdText(raw) && CastId(raw).value in users
    ensures r.Ok? ==> r.body == Public(CastId(raw).value, users[CastId(raw).value])
  {
    match FindById(users, raw)
    case CastError => NotFound(MsgUserNotFound)
    case Missing => NotFound(MsgUserNotFound)
    case Found(key) => Ok(Public(key, users[key]))
  }

  /** The JavaScript truth of a body field: present and not the empty string. */
  predicate Truthy(v: Option<string>) {
    v.Some? && v.value != ""
  }

  /** The `profileFields` object: `name` and `bio` each present only when
      the request gave a truthy value. */
  datatype ProfileFields = ProfileFields(name: Option<string>, bio: Option<string>)

  function FieldsOf(name: Option<string>, bio: Option<string>): (f: ProfileFields)
    ensures f.name.Some? <==> Truthy(name)
    ensures f.bio.Some? <==> Truthy(bio)
    ensures f.name.Some? ==> f.name == name
    ensures f.bio.Some? ==> f.bio == bio
  {
    ProfileFields(if Truthy(name) then name else None, if Truthy(bio) then bio else None)
  }

  /** `$set: profileFields`: the fields present overwrite the stored ones. */
  function SetFields(u: User, f: ProfileFields): (r: User)
    ensures r.name == (if f.name.Some? then f.name.value else u.name)
    ensures r.bio == (if f.bio.Some? then f.bio.value else u.bio)
    ensures r.email == u.email && r.password == u.password
    ensures r.followers == u.followers && r.following == u.following
  {
    u.(name := if f.name.Some? then f.name.value else u.name,
       bio := if f.bio.Some? then f.bio.value else u.bio)
  }

  /** A handler's reply together with the users collection it leaves behind. */
  datatype UserStep = UserStep(reply: Reply<PublicUser>, users: map<Id, User>)

  /** PUT /api/users/:id. The lookup comes before the authorisation check, so
      a missing user gives 404 whoever asks; a caller updating someone else
      gets 401. An update changes only the name and the bio, each only when
      given a truthy value; the email in the body is ignored. A malformed id
      makes the lookup throw: 500. */
  function Update(users: map<Id, User>, raw: string, caller: Id,
                  name: Option<string>, email: Option<string>, bio: Option<string>): (s: UserStep)
    ensures var f := FindById(users, raw);
      && (f.CastError? ==> s == UserStep(ServerError(MsgServerError), users))
      && (f.Missing? ==> s == UserStep(NotFound(MsgUserNotFound), users))
      && (f.Found? && f.key != caller ==> s == UserStep(NotAuthorized(MsgNotAuthorized), users))
      && (s.reply.Ok? <==> f.Found? && f.key == caller)
      && (s.reply.Ok? ==> s.users.Keys == users.Keys)
      && (s.reply.Ok? ==>
            var before, after := users[f.key], s.users[f.key];
            && (forall k | k in users && k != f.key :: s.users[k] == users[k])
            && after.name == (if Truthy(name) then name.value else before.name)
            && after.bio == (if Truthy(bio) then bio.value else before.bio)
            && after.email == before.email
            && after.password == before.password
            && after.followers == before.followers && after.following == before.following
            && s.reply.body == Public(f.key, after))
  {
    var fields := FieldsOf(name, bio);
    match FindById(users, raw)
    case CastError => UserStep(ServerError(MsgServerError), users)
    case Missing => UserStep(NotFound(MsgUserNotFound), users)
    case Found(key) =>
      if key != caller then UserStep(NotAuthorized(MsgNotAuthorized), users)
      else
        var updated := SetFields(users[key], fields);
        UserStep(Ok(Public(key, updated)), users[key := updated])
  }

  /** The outcome does not depend on the email in the request body. */
  lemma UpdateIgnoresEmail(users: map<Id, User>, raw: string, caller: Id,
                           name: Option<string>, email1: Option<string>, email2: Option<string>, bio: Option<string>)
    ensures Update(users, raw, caller, name, email1, bio) == Update(users, raw, caller, name, email2, bio)
  {
  }

  /** Sending the same profile update twice leaves the store as sending it
      once, and gives the same reply. */
  lemma UpdateIdempotent(users: map<Id, User>, raw: string, caller: Id,
                         name: Option<string>, email: Option<string>, bio: Option<string>)
    ensures var once := Update(users, raw, caller, name, email, bio);
      Update(once.users, raw, caller, name, email, bio) == once
  {
    var once := Update(users, raw, caller, name, email, bio);
    if once.reply.Ok? {
      var key := FindById(users, raw).key;
      assert FindById(once.users, raw) == Found(key);
      var fields := FieldsOf(name, bio);
      assert SetFields(SetFields(users[key], fields), fields) == SetFields(users[key], fields);
      assert once.users[key := SetFields(once.users[key], fields)] == once.users;
    }
  }

  /** GET /api/users/:id/posts: the same query as listing the posts by
      author, newest first. A malformed id makes the query throw: 500. */
  ghost function GetUserPosts(posts: map<Id, Post>, users: map<Id, User>, raw: string): (r: Reply<seq<PostView>>)
    ensures r.Ok? || r == ServerError(MsgServerError)
    ensures r.Ok? <==> IsObjectIdText(raw)
    ensures r.Ok? ==> forall i | 0 <= i < |r.body| ::
      r.body[i].id in posts && posts[r.body[i].id].author == CastId(raw).value
    ensures r.Ok? ==> forall k | k in posts && posts[k].author == CastId(raw).value ::
      exists i | 0 <= i < |r.body| :: r.body[i].id == k
    ensures r.Ok? ==> forall i, j | 0 <= i < j < |r.body| :: r.body[i].createdAt >= r.body[j].createdAt
    ensures r.Ok? ==> PostRoutes.IsFeed(r.body, PostRoutes.ByAuthor(posts, CastId(raw).value), users)
  {
    PostRoutes.ListPostsByUser(posts, users, raw)
  }

  /** The handler, step by step on the shared store: build `profileFields`,
      look the user up, check the caller, then `findByIdAndUpdate`. */
  method UpdateProfile(db: Db, raw: string, caller: Id,
                       name: Option<string>, email: Option<string>, bio: Option<string>) returns (r: Reply<PublicUser>)
    requires db.Valid()
    modifies db
    ensures db.Valid() && db.posts == old(db.posts)
    ensures UserStep(r, db.users) == Update(old(db.users), raw, caller, name, email, bio)
  {
    var fields := ProfileFields(None, None);
    if Truthy(name) {
      fields := fields.(name := name);
    }
    if Truthy(bio) {
      fields := fields.(bio := bio);
    }
    var found := FindById(db.users, raw);
    if found.CastError? {
      return ServerError(MsgServerError);
    }
    if found.Missing? {
      return NotFound(MsgUserNotFound);
    }
    if found.key != caller {
      return NotAuthorized(MsgNotAuthorized);
    }
    var user := SetFields(db.users[found.key], fields);
    db.users := db.users[found.key := user];
    r := Ok(Public(found.key, user));
  }
}
