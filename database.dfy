/** The document store the routes share: two collections keyed by id. */
module Database {
  import opened Identity
  import opened UserRecord
  import opened PostSchema

  class Db {
    var posts: map<Id, Post>
    var users: map<Id, User>

    /** Every stored post meets the schema and has likes without repeats,
        and is stored under an id the store minted. */
    ghost predicate Valid()
      reads this
    {
      AllStored(posts) && AllCanonical(posts)
    }

    /** The store with the users that registered before (registration is not
        part of this model) and no posts. */
    constructor (users: map<Id, User>)
      ensures Valid()
      ensures this.posts == map[] && this.users == users
    {
      this.posts := map[];
      this.users := users;
    }
  }
}
