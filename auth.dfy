/** The authentication service's registration. */
module Auth {
  import opened Wrappers
  import opened Errors
  import opened Schema
  import opened Store
  import opened Users

  class AuthService {
    const db: Database
    const hash: string -> string

    constructor (db: Database, hash: string -> string)
      ensures this.db == db && this.hash == hash
    {
      this.db := db;
      this.hash := hash;
    }

    /**
     * register: a registered email is refused with 401 and nothing is created; otherwise exactly
     * one user is added, with the payload's email, role and full name and the hashed password.
     * It returns nothing and issues no token.
     */
    method Register(payload: CreateUserDto, newId: string) returns (r: Result<(), AppError>)
      requires db.Valid()
      modifies db
      ensures db.Valid() && db.tokens == old(db.tokens)
      ensures EmailTaken(old(db.users), payload.email) ==>
        && r == Err(HttpException(Unauthorized, "This email " + payload.email + " already exists"))
        && db.users == old(db.users)
      ensures !EmailTaken(old(db.users), payload.email) && newId in old(db.users) ==>
        r == Err(UniqueViolation("id")) && db.users == old(db.users)
      ensures !EmailTaken(old(db.users), payload.email) && newId !in old(db.users) ==>
        && r == Ok(())
        && db.users == old(db.users)[newId := NewUser(newId, payload, hash)]
    {
      if EmailTaken(db.users, payload.email) {
        return Err(HttpException(Unauthorized, "This email " + payload.email + " already exists"));
      }
      var user := NewUser(newId, payload, hash);
      if newId in db.users {
        return Err(UniqueViolation("id"));
      }
      InsertKeepsWellFormed(db.users, user);
      db.users := db.users[newId := user];
      r := Ok(());
    }
  }

  /**
   * Registering the same email twice: the second attempt is the 401 "already exists", whatever
   * id the database would have given it.
   */
  method RegisterTwice(auth: AuthService, payload: CreateUserDto, id1: string, id2: string)
    returns (first: Result<(), AppError>, second: Result<(), AppError>)
    requires auth.db.Valid() && !EmailTaken(auth.db.users, payload.email) && id1 !in auth.db.users
    modifies auth.db
    ensures first == Ok(())
    ensures second == Err(HttpException(Unauthorized, "This email " + payload.email + " already exists"))
  {
    first := auth.Register(payload, id1);
    assert auth.db.users[id1].email == payload.email;
    second := auth.Register(payload, id2);
  }
}
