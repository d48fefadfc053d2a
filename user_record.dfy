/** The stored user document and its password-free projection. The user
    schema itself is not part of this model; the fields are those the routes
    and views read. */
module UserRecord {
  import opened Identity

  datatype User = User(
    name: string,
    email: string,
    password: string, // a one-way hash, produced by the authentication code
    bio: string,
    followers: seq<Id>,
    following: seq<Id>)

  /** A user as `select('-password')` returns it: every field but the password. */
  datatype PublicUser = PublicUser(
    id: Id,
    name: string,
    email: string,
    bio: string,
    followers: seq<Id>,
    following: seq<Id>)

  function Public(id: Id, u: User): (r: PublicUser)
    ensures r.id == id && r.name == u.name && r.email == u.email && r.bio == u.bio
    ensures r.followers == u.followers && r.following == u.following
  {
    PublicUser(id, u.name, u.email, u.bio, u.followers, u.following)
  }

  /** The projection does not depend on the password at all. */
  lemma PublicIgnoresPassword(id: Id, u: User, password: string)
    ensures Public(id, u.(password := password)) == Public(id, u)
  {
  }
}
