/**
 * The two authentication middlewares. Each reads the Authorization header, strips the
 * bearer prefix, checks the token with the JWT library, then looks it up in the token table
 * and its subject in the user table. Neither writes to a table: they are functions of a
 * snapshot of both tables, and what they store in the request context is their result.
 */
module AuthMiddleware {
  import opened Wrappers
  import opened Errors
  import opened Schema
  import opened Tokens

  const BearerPrefix: string := "Bearer "

  /** `pat` occurs in `s` starting at index `i`. */
  predicate OccursAt(s: string, pat: string, i: nat) {
    i + |pat| <= |s| && s[i..i + |pat|] == pat
  }

  /** String.prototype.indexOf: the first index at which `pat` occurs in `s`, or -1. */
  function IndexOf(s: string, pat: string): (r: int)
    ensures -1 <= r <= |s|
    ensures r >= 0 ==> OccursAt(s, pat, r)
    ensures r >= 0 ==> forall i: nat :: i < r ==> !OccursAt(s, pat, i)
    ensures r == -1 ==> forall i: nat :: !OccursAt(s, pat, i)
  {
    if |s| < |pat| then -1
    else if s[..|pat|] == pat then 0
    else
      var k := IndexOf(s[1..], pat);
      assert !OccursAt(s, pat, 0);
      assert forall i: nat :: 0 < i ==> (OccursAt(s, pat, i) <==> OccursAt(s[1..], pat, i - 1)) by {
        forall i: nat | 0 < i ensures OccursAt(s, pat, i) <==> OccursAt(s[1..], pat, i - 1) {
          if i + |pat| <= |s| {
            assert s[1..][i - 1..i - 1 + |pat|] == s[i..i + |pat|];
          }
        }
      }
      if k == -1 then -1 else k + 1
  }

  /**
   * `header.replace('Bearer ', '')`: the first occurrence of the prefix, wherever it stands,
   * is cut out; a header without it is returned unchanged.
   */
  function StripBearer(header: string): (token: string)
    ensures (forall i: nat :: !OccursAt(header, BearerPrefix, i)) ==> token == header
    ensures forall i: nat ::
      OccursAt(header, BearerPrefix, i) && (forall j: nat :: j < i ==> !OccursAt(header, BearerPrefix, j)) ==>
        token == header[..i] + header[i + |BearerPrefix|..]
  {
    var i := IndexOf(header, BearerPrefix);
    if i < 0 then header else header[..i] + header[i + |BearerPrefix|..]
  }

  /** A header that is exactly the prefix followed by a token yields that token. */
  lemma StripBearerPrefixed(token: string)
    ensures StripBearer(BearerPrefix + token) == token
  {
    var h := BearerPrefix + token;
    assert OccursAt(h, BearerPrefix, 0) by { assert h[..|BearerPrefix|] == BearerPrefix; }
    assert h[|BearerPrefix|..] == token;
  }

  /** What a successful authentication stores in the request context. */
  datatype AuthContext = AuthContext(user: User, token: string, record: TokenRecord)

  /** The checks of authMiddleware inside its try block, in order. */
  function AuthChecks(header: Option<string>, tokens: map<string, TokenRecord>, users: map<string, User>, now: int, jwt: Jwt): (r: Result<AuthContext, AppError>)
    ensures r.Err? && !r.error.HttpException? <==>
      header.Some? && StripBearer(header.value) != "" && jwt.verify(StripBearer(header.value), now).Err?
    ensures r.Err? && !r.error.HttpException? ==> r.error == OtherError(jwt.verify(StripBearer(header.value), now).error)
    ensures r == Err(HttpException(Unauthorized, "Account has been deactivated")) <==>
      && header.Some?
      && var token := StripBearer(header.value);
      && token != ""
      && jwt.verify(token, now).Ok?
      && token in tokens
      && tokens[token].tokenType == Access
      && !tokens[token].blacklisted
      && now <= tokens[token].expires
      && jwt.verify(token, now).value.sub in users
      && users[jwt.verify(token, now).value.sub].deactivated
    ensures r == Err(HttpException(Unauthorized, "Token expired")) <==>
      && header.Some?
      && var token := StripBearer(header.value);
      && token != ""
      && jwt.verify(token, now).Ok?
      && token in tokens
      && tokens[token].tokenType == Access
      && !tokens[token].blacklisted
      && tokens[token].expires < now
  {
    if header.None? || header.value == "" then Err(PleaseAuthenticate)
    else
      var token := StripBearer(header.value);
      if token == "" then Err(PleaseAuthenticate)
      else
        match jwt.verify(token, now)
        case Err(name) => Err(OtherError(name))
        case Ok(payload) =>
          match FindActive(tokens, token, Access)
          case None => Err(PleaseAuthenticate)
          case Some(doc) =>
            if doc.expires < now then Err(HttpException(Unauthorized, "Token expired"))
            else if payload.sub !in users then Err(PleaseAuthenticate)
            else if users[payload.sub].deactivated then Err(HttpException(Unauthorized, "Account has been deactivated"))
            else Ok(AuthContext(users[payload.sub], token, doc))
  }

  /**
   * authMiddleware: the caught error is rethrown when it is an HttpException and replaced by
   * "Please authenticate" otherwise. Only a live, non-revoked access record whose signed subject
   * is an active user is accepted; every failure is a 401 with one of three messages.
   */
  function Authenticate(header: Option<string>, tokens: map<string, TokenRecord>, users: map<string, User>, now: int, jwt: Jwt): (r: Result<AuthContext, AppError>)
    ensures header.None? ==> r == Err(PleaseAuthenticate)
    ensures header.Some? && StripBearer(header.value) == "" ==> r == Err(PleaseAuthenticate)
    ensures r.Err? ==>
      r.error in {PleaseAuthenticate, HttpException(Unauthorized, "Token expired"),
                  HttpException(Unauthorized, "Account has been deactivated")}
    ensures r.Ok? <==>
      && header.Some?
      && var token := StripBearer(header.value);
      && token != ""
      && jwt.verify(token, now).Ok?
      && token in tokens
      && tokens[token].tokenType == Access
      && !tokens[token].blacklisted
      && now <= tokens[token].expires
      && jwt.verify(token, now).value.sub in users
      && !users[jwt.verify(token, now).value.sub].deactivated
    ensures r.Ok? ==>
      && r.value.token == StripBearer(header.value)
      && r.value.record == tokens[r.value.token]
      && r.value.user == users[jwt.verify(r.value.token, now).value.sub]
    ensures r == Err(HttpException(Unauthorized, "Token expired")) <==>
      && header.Some?
      && var token := StripBearer(header.value);
      && token != ""
      && jwt.verify(token, now).Ok?
      && token in tokens
      && tokens[token].tokenType == Access
      && !tokens[token].blacklisted
      && tokens[token].expires < now
    ensures r == Err(HttpException(Unauthorized, "Account has been deactivated")) <==>
      && header.Some?
      && var token := StripBearer(header.value);
      && token != ""
      && jwt.verify(token, now).Ok?
      && token in tokens
      && tokens[token].tokenType == Access
      && !tokens[token].blacklisted
      && now <= tokens[token].expires
      && jwt.verify(token, now).value.sub in users
      && users[jwt.verify(token, now).value.sub].deactivated
  {
    match AuthChecks(header, tokens, users, now, jwt)
    case Ok(ctx) => Ok(ctx)
    case Err(e) => if e.HttpException? then Err(e) else Err(PleaseAuthenticate)
  }

  /** A refresh, reset-password or email-verification token never authenticates a request. */
  lemma NonAccessTokenRejected(header: string, tokens: map<string, TokenRecord>, users: map<string, User>, now: int, jwt: Jwt)
    requires StripBearer(header) in tokens && tokens[StripBearer(header)].tokenType != Access
    ensures Authenticate(Some(header), tokens, users, now, jwt) == Err(PleaseAuthenticate)
  {
  }

  /**
   * optionalAuth: never fails; it fills the context only for a live access record whose signed
   * subject is an active user, and leaves it unset otherwise, which is exactly when
   * authMiddleware would have accepted the same request and with the same context.
   */
  function OptionalAuth(header: Option<string>, tokens: map<string, TokenRecord>, users: map<string, User>, now: int, jwt: Jwt): (r: Option<AuthContext>)
    ensures r.Some? <==> Authenticate(header, tokens, users, now, jwt).Ok?
    ensures r.Some? ==> r.value == Authenticate(header, tokens, users, now, jwt).value
  {
    if header.None? || header.value == "" then None
    else
      var token := StripBearer(header.value);
      if token == "" then None
      else
        match jwt.verify(token, now)
        case Err(_) => None
        case Ok(payload) =>
          var doc := FindActive(tokens, token, Access);
          if doc.Some? && doc.value.expires >= now then
            if payload.sub in users && !users[payload.sub].deactivated
            then Some(AuthContext(users[payload.sub], token, doc.value))
            else None
          else None
  }
}
