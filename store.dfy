/**
 * The database every service talks to, held in memory: the token table keyed by the
 * token string and the user table keyed by the user id.
 */
module Store {
  import opened Schema

  class Database {
    var tokens: map<string, TokenRecord>
    var users: map<string, User>

    /** The table constraints the database enforces. */
    ghost predicate Valid()
      reads this
    {
      UsersWellFormed(users)
    }

    constructor ()
      ensures Valid()
      ensures tokens == map[] && users == map[]
    {
      tokens := map[];
      users := map[];
    }
  }
}
