/** The post schema: the constraints a post must meet before it is saved, and
    the read-time expansion of its author reference. */
module PostSchema {
  import opened Identity
  import opened UserRecord

  const MaxContentLength := 1000

  /** The characters the string `trim` of JavaScript removes: white space
      and line terminators. */
  predicate IsWhiteSpace(c: char) {
    c == ' ' || c == '\t' || c == '\n' || c == '\r' || c == '\U{B}' || c == '\U{C}'
    || c == '\U{A0}' || c == '\U{1680}' || '\U{2000}' <= c <= '\U{200A}'
    || c == '\U{2028}' || c == '\U{2029}' || c == '\U{202F}' || c == '\U{205F}'
    || c == '\U{3000}' || c == '\U{FEFF}'
  }

  predicate AllWhiteSpace(s: string) {
    forall i | 0 <= i < |s| :: IsWhiteSpace(s[i])
  }

  /** Neither end of `s` is white space. */
  predicate IsTrimmed(s: string) {
    s == [] || (!IsWhiteSpace(s[0]) && !IsWhiteSpace(s[|s| - 1]))
  }

  /** Where the kept text of `s` starts when scanning forward from `i`: the
      first position at or after `i` that is not white space, or `|s|`. */
  function KeptStart(s: string, i: nat): (n: nat)
    requires i <= |s|
    ensures i <= n <= |s|
    ensures forall j | i <= j < n :: IsWhiteSpace(s[j])
    ensures n < |s| ==> !IsWhiteSpace(s[n])
    decreases |s| - i
  {
    if i == |s| || !IsWhiteSpace(s[i]) then i else KeptStart(s, i + 1)
  }

  /** Where the kept text of `s` ends when scanning back from `e`, stopping
      at `lo`: one past the last position before `e` that is not white
      space, or `lo`. */
  function KeptEnd(s: string, lo: nat, e: nat): (n: nat)
    requires lo <= e <= |s|
    ensures lo <= n <= e
    ensures forall j | n <= j < e :: IsWhiteSpace(s[j])
    ensures lo < n ==> !IsWhiteSpace(s[n - 1])
    decreases e
  {
    if e == lo || !IsWhiteSpace(s[e - 1]) then e else KeptEnd(s, lo, e - 1)
  }

  /** The number of white-space characters `trim` removes in front. */
  function Lead(s: string): (n: nat)
    ensures n <= |s|
  {
    KeptStart(s, 0)
  }

  /** The `trim` setter of the content field: `s` without white space at
      either end. What is removed is white space, what is kept is the slice
      of `s` between, and only all-white-space text trims to the empty
      string. */
  function Trim(s: string): (r: string)
    ensures IsTrimmed(r)
    ensures Lead(s) + |r| <= |s| && r == s[Lead(s)..Lead(s) + |r|]
    ensures forall j | 0 <= j < Lead(s) :: IsWhiteSpace(s[j])
    ensures forall j | Lead(s) + |r| <= j < |s| :: IsWhiteSpace(s[j])
    ensures r == [] <==> AllWhiteSpace(s)
  {
    var lo := KeptStart(s, 0);
    var hi := KeptEnd(s, lo, |s|);
    assert lo < hi ==> !IsWhiteSpace(s[lo]) && !IsWhiteSpace(s[hi - 1]);
    assert lo == hi ==> AllWhiteSpace(s);
    s[lo..hi]
  }

  /** Trimming is idempotent, and trimmed text is left as it is. */
  lemma TrimIdempotent(s: string)
    ensures IsTrimmed(s) ==> Trim(s) == s
    ensures Trim(Trim(s)) == Trim(s)
  {
    TrimmedIsFixed(s);
    TrimmedIsFixed(Trim(s));
  }

  lemma TrimmedIsFixed(t: string)
    ensures IsTrimmed(t) ==> Trim(t) == t
  {
    if IsTrimmed(t) {
      assert KeptStart(t, 0) == 0;
      assert KeptEnd(t, 0, |t|) == |t|;
      assert t[0..|t|] == t;
    }
  }

  /** A stored post. Ids, timestamps and the like list are as the store keeps
      them; `likes` is most recent first. */
  datatype Post = Post(content: string, author: Id, createdAt: nat, likes: seq<Id>)

  datatype SchemaError = ContentRequired | ContentTooLong | AuthorRequired

  /** What every post in the store satisfies: content that meets the schema
      as `trim`, `required` and `maxlength` leave it, and likes without a
      repeated user. */
  predicate IsStored(p: Post) {
    IsTrimmed(p.content) && 1 <= |p.content| <= MaxContentLength && NoDuplicates(p.likes)
  }

  predicate AllStored(posts: map<Id, Post>) {
    forall k | k in posts :: IsStored(posts[k])
  }

  /** The errors schema validation reports for the document built from the
      given fields: `required` fails on a missing or (after trimming) empty
      content and on a missing author, while `maxlength` checks the trimmed
      content when it is present. */
  function ValidationErrors(content: Option<string>, author: Option<Id>): (errs: set<SchemaError>)
    ensures errs == {} <==>
      content.Some? && 1 <= |Trim(content.value)| <= MaxContentLength && author.Some?
    ensures ContentRequired in errs <==> content.None? || AllWhiteSpace(content.value)
    ensures ContentTooLong in errs <==> content.Some? && |Trim(content.value)| > MaxContentLength
    ensures AuthorRequired in errs <==> author.None?
  {
    var trimmed := if content.Some? then Some(Trim(content.value)) else None;
    (if trimmed.None? || trimmed.value == "" then {ContentRequired} else {})
    + (if trimmed.Some? && |trimmed.value| > MaxContentLength then {ContentTooLong} else {})
    + (if author.None? then {AuthorRequired} else {})
  }

  /** `new Post({ content, author })` followed by validation on save: the
      content is trimmed, `createdAt` defaults to the time of creation and
      `likes` to the empty list. */
  function NewPost(content: Option<string>, author: Option<Id>, now: nat): (r: Result<Post, set<SchemaError>>)
    ensures r.Success? <==> ValidationErrors(content, author) == {}
    ensures r.Failure? ==> r.error == ValidationErrors(content, author) && r.error != {}
    ensures r.Success? ==> IsStored(r.value)
    ensures r.Success? ==> r.value == Post(Trim(content.value), author.value, now, [])
  {
    var errs := ValidationErrors(content, author);
    if errs != {} then Failure(errs)
    else
      var p := Post(Trim(content.value), author.value, now, []);
      assert IsTrimmed(p.content);
      Success(p)
  }

  /** The author reference as the populate step expands it: id, name and
      email only. */
  datatype AuthorRef = AuthorRef(id: Id, name: string, email: string)

  /** A post as the routes send it, with `author` expanded, or null when no
      user has the stored author id. */
  datatype PostView = PostView(id: Id, content: string, author: Option<AuthorRef>, createdAt: nat, likes: seq<Id>)

  function Populate(id: Id, p: Post, users: map<Id, User>): (v: PostView)
    ensures v.id == id && v.content == p.content && v.createdAt == p.createdAt && v.likes == p.likes
    ensures v.author.Some? <==> p.author in users
    ensures v.author.Some? ==> v.author.value == AuthorRef(p.author, users[p.author].name, users[p.author].email)
  {
    var author := if p.author in users then Some(AuthorRef(p.author, users[p.author].name, users[p.author].email)) else None;
    PostView(id, p.content, author, p.createdAt, p.likes)
  }

  /** The expansion exposes nothing of the author but the name and email:
      replacing the author's password, bio and follow lists leaves every
      view unchanged. */
  lemma PopulateShowsNameAndEmailOnly(id: Id, p: Post, users: map<Id, User>, other: User)
    requires p.author in users
    requires other.name == users[p.author].name && other.email == users[p.author].email
    ensures Populate(id, p, users[p.author := other]) == Populate(id, p, users)
    ensures Populate(id, p, users).author == Some(AuthorRef(p.author, other.name, other.email))
  {
  }
}
