/**
 * The user service: create, list a page, look up, update, delete, deactivate and activate
 * users in the user table, which keeps one row per id and one user per email.
 */
module Users {
  import opened Wrappers
  import opened Errors
  import opened Schema
  import opened Store

  datatype CreateUserDto = CreateUserDto(email: string, password: string, fullName: string, role: Role)

  /** The fields an update may carry; `None` is a field the payload leaves out. */
  datatype UpdateUserDto = UpdateUserDto(email: Option<string>, fullName: Option<string>, password: Option<string>)

  datatype Pagination = Pagination(data: seq<UserView>, page: int, limit: int, totalPage: int)

  const UserNotFound: AppError := HttpException(NotFound, "User not found")

  /** The row a validated payload becomes: its fields, the hashed password, fresh flags. */
  function NewUser(id: string, payload: CreateUserDto, hash: string -> string): (u: User)
    ensures u.id == id && u.email == payload.email && u.fullName == payload.fullName && u.role == payload.role
    ensures u.password == hash(payload.password)
    ensures !u.isVerified && !u.deactivated
  {
    User(id, payload.email, payload.fullName, hash(payload.password), payload.role, false, false)
  }

  /** Adding a row under its own id with an email no one holds keeps the table's constraints. */
  lemma InsertKeepsWellFormed(users: map<string, User>, u: User)
    requires UsersWellFormed(users)
    requires u.id !in users && !EmailTaken(users, u.email)
    ensures UsersWellFormed(users[u.id := u])
  {
  }

  /** Some user other than `id` holds `email`. */
  predicate EmailHeldByOther(users: map<string, User>, id: string, email: string) {
    exists other :: other in users && other != id && users[other].email == email
  }

  /** Replacing a row by one under the same id whose email no other user holds keeps the constraints. */
  lemma ReplaceKeepsWellFormed(users: map<string, User>, u: User)
    requires UsersWellFormed(users)
    requires u.id in users && !EmailHeldByOther(users, u.id, u.email)
    ensures UsersWellFormed(users[u.id := u])
  {
  }

  /** Math.ceil(n / d) for a whole n and a positive d. */
  function CeilDiv(n: nat, d: int): (q: nat)
    requires d > 0
    ensures n == 0 ==> q == 0
    ensures n > 0 ==> (q - 1) * d < n <= q * d
  {
    (n + d - 1) / d
  }

  /** The number of rows before the first row of a page. */
  function Skip(page: int, limit: int): (skip: nat)
    requires page >= 1 && limit > 0
    ensures skip == (page - 1) * limit
  {
    (page - 1) * limit
  }

  /** At most `limit` rows from index `skip` on, without passwords. */
  function Window(rows: seq<User>, skip: nat, limit: nat): (w: seq<UserView>)
    ensures skip >= |rows| ==> w == []
    ensures skip < |rows| ==> |w| == (if |rows| - skip < limit then |rows| - skip else limit)
    ensures forall i :: 0 <= i < |w| ==> skip + i < |rows| && w[i] == View(rows[skip + i])
  {
    var hi := if skip + limit < |rows| then skip + limit else |rows|;
    if skip >= |rows| then []
    else seq(hi - skip, i requires 0 <= i < hi - skip => View(rows[skip + i]))
  }

  /**
   * findAll: the rows the filter selects, in the database's order, are given as `rows`; the page
   * is the window of at most `limit` rows starting at (page - 1) * limit, without passwords,
   * together with the page and limit asked for and the number of pages.
   */
  function FindAll(rows: seq<User>, page: int, limit: int): (r: Pagination)
    requires page >= 1 && limit > 0
    ensures r.page == page && r.limit == limit
    ensures |r.data| <= limit
    ensures r.data == Window(rows, Skip(page, limit), limit)
    ensures |rows| == 0 ==> r.totalPage == 0
    ensures |rows| > 0 ==> (r.totalPage - 1) * limit < |rows| <= r.totalPage * limit
  {
    Pagination(Window(rows, Skip(page, limit), limit), page, limit, CeilDiv(|rows|, limit))
  }

  /** Every row is listed on page k / limit + 1, at position k % limit, and that page exists. */
  lemma RowOnItsPage(rows: seq<User>, limit: int, k: nat)
    requires limit > 0 && k < |rows|
    ensures var r := FindAll(rows, k / limit + 1, limit);
      k % limit < |r.data| && r.data[k % limit] == View(rows[k]) && k / limit + 1 <= r.totalPage
  {
    var q, m := k / limit, k % limit;
    var page := q + 1;
    var skip := Skip(page, limit);
    assert skip + m == k && m < limit by {
      assert skip == q * limit;
    }
    var r := FindAll(rows, page, limit);
    assert r.data == Window(rows, skip, limit);
    assert q < r.totalPage by {
      if r.totalPage <= q {
        MulMonotone(r.totalPage, q, limit);
      }
    }
  }

  lemma MulMonotone(a: int, b: int, c: int)
    requires a <= b && c >= 0
    ensures a * c <= b * c
  {
  }

  /** findOne: the user without the password, or 404. */
  function FindOne(users: map<string, User>, id: string): (r: Result<UserView, AppError>)
    ensures r.Ok? <==> id in users
    ensures r.Ok? ==> r.value == View(users[id]) && r.value.id == users[id].id
    ensures r.Err? ==> r.error == UserNotFound
  {
    if id in users then Ok(View(users[id])) else Err(UserNotFound)
  }

  /** findById: the whole row, password included, if there is one. */
  function FindById(users: map<string, User>, id: string): (r: Option<User>)
    ensures r.Some? <==> id in users
    ensures r.Some? ==> r.value == users[id]
  {
    if id in users then Some(users[id]) else None
  }

  /** findByEmail: the one user holding the email, if any. */
  function FindByEmail(users: map<string, User>, email: string): (r: Option<User>)
    requires UsersWellFormed(users)
    ensures r.Some? <==> EmailTaken(users, email)
    ensures r.Some? ==> r.value.id in users && users[r.value.id] == r.value && r.value.email == email
  {
    if EmailTaken(users, email) then
      var id :| id in users && users[id].email == email;
      Some(users[id])
    else None
  }

  /** The 409 check of updateOne: a non-empty new email differing from the user's, held by someone. */
  predicate EmailConflict(users: map<string, User>, id: string, payload: UpdateUserDto)
    requires id in users
    ensures UsersWellFormed(users) ==>
      (EmailConflict(users, id, payload) <==>
         payload.email.Some? && payload.email.value != "" && EmailHeldByOther(users, id, payload.email.value))
  {
    && payload.email.Some?
    && payload.email.value != ""
    && payload.email.value != users[id].email
    && EmailTaken(users, payload.email.value)
  }

  /**
   * The row after an update: supplied fields replace the stored ones; a non-empty password is
   * stored hashed, an empty one as it is; id, role and flags stay.
   */
  function ApplyUpdate(u: User, payload: UpdateUserDto, hash: string -> string): (v: User)
    ensures v.id == u.id && v.role == u.role && v.isVerified == u.isVerified && v.deactivated == u.deactivated
    ensures payload.email.None? ==> v.email == u.email
    ensures payload.fullName.None? ==> v.fullName == u.fullName
    ensures payload.password.None? ==> v.password == u.password
    ensures payload.password.Some? && payload.password.value != "" ==> v.password == hash(payload.password.value)
    ensures payload.password == Some("") ==> v.password == ""
    ensures payload.email.Some? ==> v.email == payload.email.value
    ensures payload.fullName.Some? ==> v.fullName == payload.fullName.value
  {
    var email := if payload.email.Some? then payload.email.value else u.email;
    var fullName := if payload.fullName.Some? then payload.fullName.value else u.fullName;
    var password :=
      match payload.password
      case None => u.password
      case Some(p) => if p != "" then hash(p) else p;
    u.(email := email, fullName := fullName, password := password)
  }

  /**
   * An update that passes the 409 check can still collide with another user's email only when
   * the payload's email is the empty string, which the check treats as absent.
   */
  lemma OnlyEmptyEmailSlipsPastCheck(users: map<string, User>, id: string, payload: UpdateUserDto, hash: string -> string)
    requires UsersWellFormed(users) && id in users
    requires !EmailConflict(users, id, payload)
    requires EmailHeldByOther(users, id, ApplyUpdate(users[id], payload, hash).email)
    ensures payload.email == Some("")
  {
  }

  /** The table with one user's deactivated flag set to `flag`. */
  function SetDeactivated(users: map<string, User>, id: string, flag: bool): (t: map<string, User>)
    requires id in users
    ensures t.Keys == users.Keys
    ensures forall k :: k in users && k != id ==> t[k] == users[k]
    ensures t[id].deactivated == flag
    ensures var u, v := users[id], t[id];
      && v.id == u.id && v.email == u.email && v.fullName == u.fullName
      && v.password == u.password && v.role == u.role && v.isVerified == u.isVerified
  {
    users[id := users[id].(deactivated := flag)]
  }

  /** Setting the flag twice is setting it once; the keys, the other rows and the other fields stay. */
  lemma SetDeactivatedIdempotent(users: map<string, User>, id: string, flag: bool)
    requires id in users
    ensures SetDeactivated(SetDeactivated(users, id, flag), id, flag) == SetDeactivated(users, id, flag)
    ensures var t := SetDeactivated(users, id, flag);
      && t.Keys == users.Keys
      && (forall k :: k in users && k != id ==> t[k] == users[k])
      && t[id].deactivated == flag
      && t[id] == users[id].(deactivated := flag)
  {
  }

  /** The flag changes no email, so the table's constraints survive it. */
  lemma SetDeactivatedKeepsWellFormed(users: map<string, User>, id: string, flag: bool)
    requires UsersWellFormed(users) && id in users
    ensures UsersWellFormed(SetDeactivated(users, id, flag))
  {
    var t := SetDeactivated(users, id, flag);
    forall a, b | a in t && b in t && t[a].email == t[b].email ensures a == b {
      assert users[a].email == t[a].email && users[b].email == t[b].email;
    }
  }

  class UserService {
    const db: Database
    const hash: string -> string

    constructor (db: Database, hash: string -> string)
      ensures this.db == db && this.hash == hash
    {
      this.db := db;
      this.hash := hash;
    }

    /**
     * create: a taken email is 409 and nothing changes; otherwise one row, under the id the
     * database generates, with the payload's fields and the hashed password.
     */
    method Create(payload: CreateUserDto, newId: string) returns (r: Result<User, AppError>)
      requires db.Valid()
      modifies db
      ensures db.Valid() && db.tokens == old(db.tokens)
      ensures EmailTaken(old(db.users), payload.email) ==>
        && r == Err(HttpException(Conflict, "This email " + payload.email + " already exists"))
        && db.users == old(db.users)
      ensures !EmailTaken(old(db.users), payload.email) && newId in old(db.users) ==>
        r == Err(UniqueViolation("id")) && db.users == old(db.users)
      ensures !EmailTaken(old(db.users), payload.email) && newId !in old(db.users) ==>
        && r == Ok(NewUser(newId, payload, hash))
        && db.users == old(db.users)[newId := r.value]
    {
      if EmailTaken(db.users, payload.email) {
        return Err(HttpException(Conflict, "This email " + payload.email + " already exists"));
      }
      var user := NewUser(newId, payload, hash);
      if newId in db.users {
        return Err(UniqueViolation("id"));
      }
      InsertKeepsWellFormed(db.users, user);
      db.users := db.users[newId := user];
      r := Ok(user);
    }

    /**
     * updateOne: an unknown id is 404; a new non-empty email held by anyone is 409; an update
     * the email constraint still rejects fails in the database; otherwise the row is replaced
     * by the updated one and returned without the password.
     */
    method UpdateOne(id: string, payload: UpdateUserDto) returns (r: Result<UserView, AppError>)
      requires db.Valid()
      modifies db
      ensures db.Valid() && db.tokens == old(db.tokens)
      ensures id !in old(db.users) ==> r == Err(UserNotFound) && db.users == old(db.users)
      ensures id in old(db.users) && EmailConflict(old(db.users), id, payload) ==>
        && r == Err(HttpException(Conflict, "Email " + payload.email.value + " is already in use"))
        && db.users == old(db.users)
      ensures id in old(db.users) && !EmailConflict(old(db.users), id, payload) ==>
        var v := ApplyUpdate(old(db.users)[id], payload, hash);
        if EmailHeldByOther(old(db.users), id, v.email) then
          r == Err(UniqueViolation("email")) && db.users == old(db.users)
        else
          r == Ok(View(v)) && db.users == old(db.users)[id := v]
    {
      if id !in db.users {
        return Err(UserNotFound);
      }
      var existing := db.users[id];
      if payload.email.Some? && payload.email.value != "" && payload.email.value != existing.email {
        if EmailTaken(db.users, payload.email.value) {
          return Err(HttpException(Conflict, "Email " + payload.email.value + " is already in use"));
        }
      }
      var updated := ApplyUpdate(existing, payload, hash);
      if EmailHeldByOther(db.users, id, updated.email) {
        return Err(UniqueViolation("email"));
      }
      ReplaceKeepsWellFormed(db.users, updated);
      db.users := db.users[id := updated];
      r := Ok(View(updated));
    }

    /** deleteOne: an unknown id is 404; otherwise exactly that row goes. */
    method DeleteOne(id: string) returns (r: Result<(), AppError>)
      requires db.Valid()
      modifies db
      ensures db.Valid() && db.tokens == old(db.tokens)
      ensures id !in old(db.users) ==> r == Err(UserNotFound) && db.users == old(db.users)
      ensures id in old(db.users) ==> r == Ok(()) && db.users == old(db.users) - {id}
    {
      if id !in db.users {
        return Err(UserNotFound);
      }
      db.users := db.users - {id};
      r := Ok(());
    }

    /** deactivateUser: an unknown id is 404; otherwise the flag is set and the user returned without password. */
    method DeactivateUser(id: string) returns (r: Result<UserView, AppError>)
      requires db.Valid()
      modifies db
      ensures db.Valid() && db.tokens == old(db.tokens)
      ensures id !in old(db.users) ==> r == Err(UserNotFound) && db.users == old(db.users)
      ensures id in old(db.users) ==>
        && db.users == SetDeactivated(old(db.users), id, true)
        && r == Ok(View(db.users[id]))
        && r.value.deactivated
    {
      if id !in db.users {
        return Err(UserNotFound);
      }
      SetDeactivatedKeepsWellFormed(db.users, id, true);
      db.users := SetDeactivated(db.users, id, true);
      r := Ok(View(db.users[id]));
    }

    /** activateUser: an unknown id is 404; otherwise the flag is cleared and the user returned without password. */
    method ActivateUser(id: string) returns (r: Result<UserView, AppError>)
      requires db.Valid()
      modifies db
      ensures db.Valid() && db.tokens == old(db.tokens)
      ensures id !in old(db.users) ==> r == Err(UserNotFound) && db.users == old(db.users)
      ensures id in old(db.users) ==>
        && db.users == SetDeactivated(old(db.users), id, false)
        && r == Ok(View(db.users[id]))
        && !r.value.deactivated
    {
      if id !in db.users {
        return Err(UserNotFound);
      }
      SetDeactivatedKeepsWellFormed(db.users, id, false);
      db.users := SetDeactivated(db.users, id, false);
      r := Ok(View(db.users[id]));
    }
  }
}
