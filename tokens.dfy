/**
 * The token service: claim construction, the token table's lookups, and the issue,
 * verify, rotate and revoke operations over the token table.
 *
 * Times are milliseconds since the epoch; claims carry whole seconds (RFC 7519, section 2).
 */
module Tokens {
  import opened Wrappers
  import opened Errors
  import opened Schema
  import opened Store

  const Second: int := 1000
  const AccessTtl: int := 15 * 60 * 1000
  const RefreshTtl: int := 30 * 24 * 60 * 60 * 1000
  const ResetPasswordTtl: int := 10 * 60 * 1000
  const VerifyEmailTtl: int := 24 * 60 * 60 * 1000

  /** The signed payload: `sub` (RFC 7519, section 4.1.2), `iat` (4.1.6), `exp` (4.1.4) and the purpose. */
  datatype Claims = Claims(sub: string, iat: int, exp: int, tokenType: TokenType)

  /**
   * The JSON Web Token library with the server's secret, left abstract: `sign` turns claims
   * into a token string, `verify` checks a token string at a given time and yields its claims
   * or the name of the library error it throws.
   */
  datatype Jwt = Jwt(sign: Claims -> string, verify: (string, int) -> Result<Claims, string>)

  /** A token handed to the client with its expiry. */
  datatype IssuedToken = IssuedToken(token: string, expires: int)

  datatype AuthTokens = AuthTokens(access: IssuedToken, refresh: IssuedToken)

  /** The claims of a token issued at `now` for `userId`, expiring at `expires`. */
  function GenerateClaims(userId: string, expires: int, tokenType: TokenType, now: int): (c: Claims)
    ensures c.sub == userId && c.tokenType == tokenType
    ensures c.exp * Second <= expires < (c.exp + 1) * Second
    ensures c.iat * Second <= now < (c.iat + 1) * Second
  {
    Claims(userId, now / Second, expires / Second, tokenType)
  }

  /**
   * The token string is the library's signature of the one claim set naming this user and
   * purpose whose `exp` and `iat` are the expiry and the issue time floored to whole seconds.
   */
  function GenerateToken(jwt: Jwt, userId: string, expires: int, tokenType: TokenType, now: int): (token: string)
    ensures forall c: Claims ::
      && c.sub == userId && c.tokenType == tokenType
      && c.exp * Second <= expires < (c.exp + 1) * Second
      && c.iat * Second <= now < (c.iat + 1) * Second
      ==> token == jwt.sign(c)
  {
    jwt.sign(GenerateClaims(userId, expires, tokenType, now))
  }

  /** Two issues in the same second of the same purpose and lifetime sign identical claims. */
  lemma SameSecondSameClaims(userId: string, ttl: int, tokenType: TokenType, now1: int, now2: int)
    requires now1 / Second == now2 / Second
    requires ttl % Second == 0
    ensures GenerateClaims(userId, now1 + ttl, tokenType, now1) == GenerateClaims(userId, now2 + ttl, tokenType, now2)
  {
  }

  /** The table's lookup of a non-revoked record of the given purpose under this token string. */
  function FindActive(tokens: map<string, TokenRecord>, token: string, tokenType: TokenType): (r: Option<TokenRecord>)
    ensures r.Some? <==> token in tokens && tokens[token].tokenType == tokenType && !tokens[token].blacklisted
    ensures r.Some? ==> r.value == tokens[token]
  {
    if token in tokens && tokens[token].tokenType == tokenType && !tokens[token].blacklisted
    then Some(tokens[token]) else None
  }

  /** The checks of verifyToken before its catch: signature, lookup, then record expiry. */
  function CheckToken(tokens: map<string, TokenRecord>, token: string, tokenType: TokenType, now: int, jwt: Jwt): (r: Result<TokenRecord, AppError>)
    ensures jwt.verify(token, now).Err? ==> r == Err(OtherError(jwt.verify(token, now).error))
    ensures jwt.verify(token, now).Ok? && (token !in tokens || tokens[token].tokenType != tokenType || tokens[token].blacklisted) ==>
      r == Err(HttpException(Unauthorized, "Token not found"))
    ensures r == Err(HttpException(Unauthorized, "Token expired")) <==>
      && jwt.verify(token, now).Ok?
      && token in tokens
      && tokens[token].tokenType == tokenType
      && !tokens[token].blacklisted
      && tokens[token].expires < now
    ensures r.Ok? <==>
      && jwt.verify(token, now).Ok?
      && token in tokens
      && tokens[token].tokenType == tokenType
      && !tokens[token].blacklisted
      && now <= tokens[token].expires
    ensures r.Ok? ==> r.value == tokens[token]
  {
    match jwt.verify(token, now)
    case Err(name) => Err(OtherError(name))
    case Ok(_) =>
      match FindActive(tokens, token, tokenType)
      case None => Err(HttpException(Unauthorized, "Token not found"))
      case Some(doc) =>
        if doc.expires < now then Err(HttpException(Unauthorized, "Token expired"))
        else Ok(doc)
  }

  /**
   * verifyToken: the record of a token the library accepts, that is stored with this purpose,
   * not revoked and not past its expiry; every failure is the one 401 "Invalid token".
   */
  function VerifyToken(tokens: map<string, TokenRecord>, token: string, tokenType: TokenType, now: int, jwt: Jwt): (r: Result<TokenRecord, AppError>)
    ensures r.Ok? <==>
      && jwt.verify(token, now).Ok?
      && token in tokens
      && tokens[token].tokenType == tokenType
      && !tokens[token].blacklisted
      && now <= tokens[token].expires
    ensures r.Ok? ==> r.value == tokens[token]
    ensures r.Err? ==> r.error == HttpException(Unauthorized, "Invalid token")
  {
    match CheckToken(tokens, token, tokenType, now, jwt)
    case Ok(doc) => Ok(doc)
    case Err(_) => Err(HttpException(Unauthorized, "Invalid token"))
  }

  /** A token no longer in the table never verifies again, whatever the purpose and the time. */
  lemma RemovedTokenFails(tokens: map<string, TokenRecord>, token: string, tokenType: TokenType, now: int, jwt: Jwt)
    ensures VerifyToken(tokens - {token}, token, tokenType, now, jwt) == Err(HttpException(Unauthorized, "Invalid token"))
  {
  }

  /** The outcome of issuing one pair: what is returned and what the table becomes. */
  datatype PairIssue = PairIssue(result: Result<AuthTokens, AppError>, tokens: map<string, TokenRecord>)

  /**
   * generateAuthTokens as a function of the table: sign an access token for 15 minutes and a
   * refresh token for 30 days, save the access record, then the refresh record. A save onto
   * an existing key fails and stops the sequence; the first save stays.
   */
  function IssuePair(tokens: map<string, TokenRecord>, userId: string, now: int, jwt: Jwt): PairIssue {
    var access := GenerateToken(jwt, userId, now + AccessTtl, Access, now);
    var refresh := GenerateToken(jwt, userId, now + RefreshTtl, Refresh, now);
    var accessRec := TokenRecord(userId, now + AccessTtl, Access, false);
    var refreshRec := TokenRecord(userId, now + RefreshTtl, Refresh, false);
    if access in tokens then
      PairIssue(Err(UniqueViolation("token")), tokens)
    else if refresh in tokens[access := accessRec] then
      PairIssue(Err(UniqueViolation("token")), tokens[access := accessRec])
    else
      PairIssue(
        Ok(AuthTokens(IssuedToken(access, now + AccessTtl), IssuedToken(refresh, now + RefreshTtl))),
        tokens[access := accessRec][refresh := refreshRec])
  }

  /**
   * When both signed tokens are new and differ, issuing a pair adds exactly the two records,
   * each the user's, not blacklisted, with the 15-minute and 30-day expiries it returns, and
   * each then verifies for its own purpose (as long as the library accepts it).
   */
  lemma IssuePairFresh(tokens: map<string, TokenRecord>, userId: string, now: int, jwt: Jwt)
    requires GenerateToken(jwt, userId, now + AccessTtl, Access, now) !in tokens
    requires GenerateToken(jwt, userId, now + RefreshTtl, Refresh, now) !in tokens
    requires GenerateToken(jwt, userId, now + AccessTtl, Access, now) != GenerateToken(jwt, userId, now + RefreshTtl, Refresh, now)
    ensures var p := IssuePair(tokens, userId, now, jwt);
      && p.result.Ok?
      && p.result.value.access.expires == now + AccessTtl
      && p.result.value.refresh.expires == now + RefreshTtl
      && p.tokens.Keys == tokens.Keys + {p.result.value.access.token, p.result.value.refresh.token}
      && (forall k :: k in tokens ==> p.tokens[k] == tokens[k])
      && p.tokens == tokens[p.result.value.access.token := TokenRecord(userId, now + AccessTtl, Access, false)]
                           [p.result.value.refresh.token := TokenRecord(userId, now + RefreshTtl, Refresh, false)]
      && (jwt.verify(p.result.value.access.token, now).Ok? ==>
            VerifyToken(p.tokens, p.result.value.access.token, Access, now, jwt).Ok? &&
            VerifyToken(p.tokens, p.result.value.access.token, Access, now, jwt).value.userId == userId)
      && (jwt.verify(p.result.value.refresh.token, now).Ok? ==>
            VerifyToken(p.tokens, p.result.value.refresh.token, Refresh, now, jwt).Ok? &&
            VerifyToken(p.tokens, p.result.value.refresh.token, Refresh, now, jwt).value.userId == userId)
  {
  }

  /** Whatever happens, issuing a pair removes and changes no existing record. */
  lemma IssuePairKeepsRecords(tokens: map<string, TokenRecord>, userId: string, now: int, jwt: Jwt)
    ensures var p := IssuePair(tokens, userId, now, jwt);
      forall k :: k in tokens ==> k in p.tokens && p.tokens[k] == tokens[k]
  {
  }

  /** The outcome of a refresh: what is returned and what the table becomes. */
  function Rotate(tokens: map<string, TokenRecord>, users: map<string, User>, refreshToken: string, now: int, jwt: Jwt): PairIssue {
    match VerifyToken(tokens, refreshToken, Refresh, now, jwt)
    case Err(_) => PairIssue(Err(PleaseAuthenticate), tokens)
    case Ok(doc) =>
      if doc.userId !in users then PairIssue(Err(PleaseAuthenticate), tokens)
      else
        var p := IssuePair(tokens - {refreshToken}, users[doc.userId].id, now, jwt);
        PairIssue(if p.result.Ok? then p.result else Err(PleaseAuthenticate), p.tokens)
  }

  /**
   * refreshAuth fails only with "Please authenticate"; a failed verification or a missing user
   * leaves the table as it was; a success consumes the presented refresh token, so presenting
   * it again fails (unless the new pair happens to sign to the very same string), and stores
   * the new pair signed for the token's user, with 15-minute and 30-day expiries.
   */
  lemma RotateOutcome(tokens: map<string, TokenRecord>, users: map<string, User>, refreshToken: string, now: int, jwt: Jwt)
    ensures var p := Rotate(tokens, users, refreshToken, now, jwt);
      && (p.result.Err? ==> p.result.error == PleaseAuthenticate)
      && (VerifyToken(tokens, refreshToken, Refresh, now, jwt).Err? ==> p.result.Err? && p.tokens == tokens)
      && (VerifyToken(tokens, refreshToken, Refresh, now, jwt).Ok? && tokens[refreshToken].userId !in users ==>
            p.result.Err? && p.tokens == tokens)
      && (p.result.Ok? ==>
            && refreshToken in tokens
            && (refreshToken in p.tokens ==>
                  refreshToken == p.result.value.access.token || refreshToken == p.result.value.refresh.token)
            && (refreshToken != p.result.value.refresh.token ==>
                  VerifyToken(p.tokens, refreshToken, Refresh, now, jwt).Err?)
            && var uid := users[tokens[refreshToken].userId].id;
            && p.result.value.access.token == GenerateToken(jwt, uid, now + AccessTtl, Access, now)
            && p.result.value.refresh.token == GenerateToken(jwt, uid, now + RefreshTtl, Refresh, now)
            && p.result.value.access.expires == now + AccessTtl
            && p.result.value.refresh.expires == now + RefreshTtl
            && p.tokens == (tokens - {refreshToken})
                             [p.result.value.access.token := TokenRecord(uid, now + AccessTtl, Access, false)]
                             [p.result.value.refresh.token := TokenRecord(uid, now + RefreshTtl, Refresh, false)])
  {
  }

  class TokenService {
    const db: Database
    const jwt: Jwt

    constructor (db: Database, jwt: Jwt)
      ensures this.db == db && this.jwt == jwt
    {
      this.db := db;
      this.jwt := jwt;
    }

    /** saveToken: insert one record; a token string already in the table is a unique-key violation. */
    method SaveToken(token: string, userId: string, expires: int, tokenType: TokenType, blacklisted: bool := false)
      returns (r: Result<TokenRecord, AppError>)
      modifies db
      ensures db.users == old(db.users)
      ensures token in old(db.tokens) ==> r == Err(UniqueViolation("token")) && db.tokens == old(db.tokens)
      ensures token !in old(db.tokens) ==>
        && r == Ok(TokenRecord(userId, expires, tokenType, blacklisted))
        && db.tokens == old(db.tokens)[token := r.value]
    {
      if token in db.tokens {
        return Err(UniqueViolation("token"));
      }
      var rec := TokenRecord(userId, expires, tokenType, blacklisted);
      db.tokens := db.tokens[token := rec];
      r := Ok(rec);
    }

    /** generateAuthTokens: an access token for 15 minutes and a refresh token for 30 days, both saved. */
    method GenerateAuthTokens(user: User, now: int) returns (r: Result<AuthTokens, AppError>)
      modifies db
      ensures db.users == old(db.users)
      ensures r == IssuePair(old(db.tokens), user.id, now, jwt).result
      ensures db.tokens == IssuePair(old(db.tokens), user.id, now, jwt).tokens
    {
      var accessExpires := now + AccessTtl;
      var refreshExpires := now + RefreshTtl;
      var accessToken := GenerateToken(jwt, user.id, accessExpires, Access, now);
      var refreshToken := GenerateToken(jwt, user.id, refreshExpires, Refresh, now);
      var saved := SaveToken(accessToken, user.id, accessExpires, Access);
      if saved.Err? {
        return Err(saved.error);
      }
      saved := SaveToken(refreshToken, user.id, refreshExpires, Refresh);
      if saved.Err? {
        return Err(saved.error);
      }
      r := Ok(AuthTokens(IssuedToken(accessToken, accessExpires), IssuedToken(refreshToken, refreshExpires)));
    }

    /** refreshAuth: verify the refresh token, find its user, delete the token, issue a fresh pair. */
    method RefreshAuth(refreshToken: string, now: int) returns (r: Result<AuthTokens, AppError>)
      modifies db
      ensures db.users == old(db.users)
      ensures r == Rotate(old(db.tokens), old(db.users), refreshToken, now, jwt).result
      ensures db.tokens == Rotate(old(db.tokens), old(db.users), refreshToken, now, jwt).tokens
    {
      var verified := VerifyToken(db.tokens, refreshToken, Refresh, now, jwt);
      if verified.Err? {
        return Err(PleaseAuthenticate);
      }
      var doc := verified.value;
      if doc.userId !in db.users {
        return Err(PleaseAuthenticate);
      }
      var user := db.users[doc.userId];
      db.tokens := db.tokens - {refreshToken};
      var pair := GenerateAuthTokens(user, now);
      if pair.Err? {
        return Err(PleaseAuthenticate);
      }
      r := pair;
    }

    /** revokeToken: delete exactly the record under this token string, whatever its purpose. */
    method RevokeToken(token: string) returns (r: Result<(), AppError>)
      modifies db
      ensures db.users == old(db.users)
      ensures token !in old(db.tokens) ==>
        r == Err(HttpException(NotFound, "Token not found")) && db.tokens == old(db.tokens)
      ensures token in old(db.tokens) ==> r == Ok(()) && db.tokens == old(db.tokens) - {token}
    {
      if token !in db.tokens {
        return Err(HttpException(NotFound, "Token not found"));
      }
      db.tokens := db.tokens - {token};
      r := Ok(());
    }

    /** generateResetPasswordToken: a 10-minute reset token for the user holding this email. */
    method GenerateResetPasswordToken(email: string, now: int) returns (r: Result<string, AppError>)
      requires db.Valid()
      modifies db
      ensures db.users == old(db.users)
      ensures !EmailTaken(old(db.users), email) ==>
        r == Err(HttpException(NotFound, "No users found with this email")) && db.tokens == old(db.tokens)
      ensures EmailTaken(old(db.users), email) ==>
        exists id :: id in old(db.users) && old(db.users)[id].email == email &&
          var token := GenerateToken(jwt, id, now + ResetPasswordTtl, ResetPassword, now);
          && (token in old(db.tokens) ==> r == Err(UniqueViolation("token")) && db.tokens == old(db.tokens))
          && (token !in old(db.tokens) ==>
                r == Ok(token) &&
                db.tokens == old(db.tokens)[token := TokenRecord(id, now + ResetPasswordTtl, ResetPassword, false)])
    {
      if !EmailTaken(db.users, email) {
        return Err(HttpException(NotFound, "No users found with this email"));
      }
      var id :| id in db.users && db.users[id].email == email;
      var user := db.users[id];
      var expires := now + ResetPasswordTtl;
      var token := GenerateToken(jwt, user.id, expires, ResetPassword, now);
      var saved := SaveToken(token, user.id, expires, ResetPassword);
      if saved.Err? {
        return Err(saved.error);
      }
      r := Ok(token);
    }

    /** generateVerifyEmailToken: a 24-hour email verification token for this user. */
    method GenerateVerifyEmailToken(user: User, now: int) returns (r: Result<string, AppError>)
      modifies db
      ensures db.users == old(db.users)
      ensures var token := GenerateToken(jwt, user.id, now + VerifyEmailTtl, VerifyEmail, now);
        && (token in old(db.tokens) ==> r == Err(UniqueViolation("token")) && db.tokens == old(db.tokens))
        && (token !in old(db.tokens) ==>
              r == Ok(token) &&
              db.tokens == old(db.tokens)[token := TokenRecord(user.id, now + VerifyEmailTtl, VerifyEmail, false)])
    {
      var expires := now + VerifyEmailTtl;
      var token := GenerateToken(jwt, user.id, expires, VerifyEmail, now);
      var saved := SaveToken(token, user.id, expires, VerifyEmail);
      if saved.Err? {
        return Err(saved.error);
      }
      r := Ok(token);
    }
  }

  /**
   * Presenting the same refresh token twice: once the first rotation succeeds with a new
   * refresh token of a different string, the second is refused.
   */
  method RefreshTwice(service: TokenService, refreshToken: string, now: int, later: int)
    returns (first: Result<AuthTokens, AppError>, second: Result<AuthTokens, AppError>)
    modifies service.db
    ensures first.Ok? && first.value.refresh.token != refreshToken ==> second == Err(PleaseAuthenticate)
  {
    first := service.RefreshAuth(refreshToken, now);
    RotateOutcome(old(service.db.tokens), old(service.db.users), refreshToken, now, service.jwt);
    second := service.RefreshAuth(refreshToken, later);
  }
}
