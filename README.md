# Authentication and user management core of a Bun/Hono REST API

This project models the core of a small REST boilerplate that manages users and their tokens. The model covers:

- the **token service**: it issues, verifies, rotates and revokes access, refresh, reset-password and verify-email tokens.
- the **authentication middlewares**: they turn an `Authorization` header into an authenticated user.
- the **role guards**: `requireRole`, `requireAdmin` and `requireUser`.
- the **user service**: create, paginated listing, lookups, update, delete, deactivate and activate.
- the **authentication service's `register`**.
- the **global error handler's** mapping from a thrown error to a status, a message and optional details.

The database is an in-memory `Store.Database` object with two maps:

- `tokens`, keyed by the token string;
- `users`, keyed by the user id.

Its `Valid()` predicate is the table constraint the services rely on: each user row sits under its own id, and no two users share an email. The three services are classes that hold the database and change its maps in their methods. Every method states the whole new state of both tables. Lookups and middlewares are functions of a snapshot of the tables.

The world outside the code is passed in as parameters:

- **Clock**: `now`, an integer number of milliseconds. Each operation reads the clock once.
- **JSON Web Token library**: the `Tokens.Jwt` value holds the signer and the verifier, with the secret. `sign` maps claims to a string. `verify` checks a string at a time and returns the claims, or the name of the error the library throws. Claims follow RFC 7519: `sub` (section 4.1.2), `iat` (section 4.1.6) and `exp` (section 4.1.4), in whole seconds (section 2).
- **Password hash**: a function `hash`.
- **Id of a new user**: the caller supplies `newId`, standing in for the database's id generator.

Failures are values of `Errors.AppError`:

- an `HttpException(status, message)`, as the services throw it;
- a validation error;
- a known database request error (code and target);
- any other error, known by its name.

`ErrorMiddleware.ErrorHandler` classifies them.

An insert whose key is already in the table fails with the database's unique-constraint error P2002, as the database would. The model does not assume this cannot happen. JWT signing is deterministic, so two issues of the same purpose and lifetime for the same user within the same second produce the same token string (`Tokens.SameSecondSameClaims`). In that case the second save fails. The contracts of `GenerateAuthTokens`, `RefreshAuth` and the single-token issuers state that outcome.

## Model

| member | source | states |
|---|---|---|
| Schema.ParseTokenType | src/services/token.service.ts:6-11 | A stored purpose string reads back only as the purpose whose name it is |
| Schema.TokenTypeNameRoundTrip | src/services/token.service.ts:6-11 | The four purposes are stored as 'access', 'refresh', 'resetPassword' and 'verifyEmail', and each name reads back as its purpose |
| Schema.View | src/services/user.service.ts:70-80 | A returned user carries every selected column of the row except the password |
| Tokens.GenerateClaims | src/services/token.service.ts:16-29 | The claims carry sub = userId and the given purpose; exp is the expiry and iat the issue time, floored to whole seconds |
| Tokens.GenerateToken | src/services/token.service.ts:16-29 | The token is the library's signature of the one claim set with sub = userId, the given purpose, and exp and iat equal to the expiry and the issue time floored to whole seconds |
| Tokens.SameSecondSameClaims | src/services/token.service.ts:22-27 | Two issues of one purpose with one whole-second lifetime, in the same second, sign identical claims |
| Tokens.FindActive | src/services/token.service.ts:52-58 | The lookup finds a record exactly when one is stored under the token string with the asked purpose and not blacklisted |
| Tokens.CheckToken | src/services/token.service.ts:50-68 | Inside the try block: a library failure surfaces as that library error; a verified token with no non-blacklisted record of the purpose is 401 "Token not found"; "Token expired" is exactly a live record with expires < now; success is exactly a live record with now <= expires, and returns it |
| Tokens.VerifyToken | src/services/token.service.ts:49-72 | Succeeds exactly when the library accepts the token and a record has the same string, the same purpose, is not blacklisted and has `now <= expires` (expires == now passes). It returns that record. Every failure is 401 "Invalid token". The table is not changed |
| Tokens.RemovedTokenFails | src/services/token.service.ts:121-133 | A token deleted from the table never verifies again, for any purpose or time |
| Tokens.IssuePairFresh | src/services/token.service.ts:74-105 | When both signed tokens are new and distinct, exactly two records are added: the access record and the refresh record, both for the user, not blacklisted, expiring at now + 15 min and now + 30 days. The pair is returned with those expiries. Each token for which the library's `verify` succeeds at `now` then verifies for its own purpose as a record of the user |
| Tokens.IssuePairKeepsRecords | src/services/token.service.ts:92-93 | Issuing a pair never removes or alters an existing record, even when a save fails |
| Tokens.RotateOutcome | src/services/token.service.ts:107-126 | Every failure is 401 "Please authenticate". A failed verification or a missing user leaves the table unchanged. On success the presented refresh record was consumed, so the same token no longer verifies unless the new pair signed to that very string. The table is then the old one without the presented token, plus the new access and refresh records for the token's user, not blacklisted, expiring at now + 15 min and now + 30 days, which are also the returned expiries |
| Tokens.RefreshTwice | src/services/token.service.ts:107-126 | Presenting a refresh token a second time, after a first refresh that succeeded with a different new refresh token, fails with 401 "Please authenticate" at any later time |
| Tokens.TokenService.SaveToken | src/services/token.service.ts:31-47 | Adds exactly one record (token, userId, expires, type, blacklisted false by default) and changes nothing else; an existing token string is a P2002 failure with the table unchanged |
| Tokens.TokenService.GenerateAuthTokens | src/services/token.service.ts:74-105 | The returned pair and the new table are those of `IssuePair`: access then refresh are saved, and a failed save stops the sequence |
| Tokens.TokenService.RefreshAuth | src/services/token.service.ts:107-126 | Verify the refresh token, require its user, delete the record, then issue a new pair. The result and the new table are those of `Rotate` |
| Tokens.TokenService.RevokeToken | src/services/token.service.ts:128-134 | An absent token is 404 "Token not found" with the table unchanged; otherwise exactly that record is removed, whatever its purpose |
| Tokens.TokenService.GenerateResetPasswordToken | src/services/token.service.ts:136-151 | An unknown email is 404 "No users found with this email" with the table unchanged. Otherwise one resetPassword record is added for the email's user, expiring at now + 10 min, and its token is returned |
| Tokens.TokenService.GenerateVerifyEmailToken | src/services/token.service.ts:153-163 | One verifyEmail record is added for the user, expiring at now + 24 h, and its token is returned |
| AuthMiddleware.IndexOf | src/middlewares/auth.middleware.ts:18 | Returns the first index at which the pattern occurs, or -1 when it occurs nowhere |
| AuthMiddleware.StripBearer | src/middlewares/auth.middleware.ts:18 | The first occurrence of 'Bearer ' is cut out, wherever it stands; a header without it is returned unchanged |
| AuthMiddleware.StripBearerPrefixed | src/middlewares/auth.middleware.ts:18 | 'Bearer ' followed by a token yields exactly that token |
| AuthMiddleware.AuthChecks | src/middlewares/auth.middleware.ts:11-54 | Inside the try block: a non-HTTP error arises exactly when a non-empty stripped token is refused by the library, and it is that library error. "Token expired" is exactly a live access record with expires < now. "Account has been deactivated" is exactly a live, unexpired access record whose signed subject is a deactivated user |
| AuthMiddleware.Authenticate | src/middlewares/auth.middleware.ts:10-63 | Accepts exactly a non-empty stripped token that the library accepts and that has a non-blacklisted access record with now <= expires, whose signed subject is an existing, non-deactivated user. The context then holds that user and that record. A missing header or an empty token is "Please authenticate". "Token expired" is exactly the case expires < now. "Account has been deactivated" is exactly the case of an unexpired record whose signed subject is a deactivated user. Every failure is 401 with one of the three messages, so every other failure (library error, no live access record, unknown subject) is "Please authenticate" |
| AuthMiddleware.NonAccessTokenRejected | src/middlewares/auth.middleware.ts:25-35 | A token stored as refresh, reset-password or verify-email is refused with "Please authenticate" |
| AuthMiddleware.OptionalAuth | src/middlewares/auth.middleware.ts:65-99 | Never fails. It sets the context exactly when authMiddleware would accept the same request, and to the same user and record; otherwise the context stays unset |
| RoleAssertion.RequireRole | src/middlewares/roleAssertion.middleware.ts:5-22 | No user is 401 "Please authenticate", checked first. A user passes exactly when the name of their role is in the list. Otherwise it is 403 "You do not have permission to access this resource" |
| RoleAssertion.RequireAdmin | src/middlewares/roleAssertion.middleware.ts:24 | Admits exactly users whose role is admin |
| RoleAssertion.RequireUser | src/middlewares/roleAssertion.middleware.ts:26 | Admits exactly the users with role user or admin, that is every user present |
| RoleAssertion.AdminPassesUserGuard | src/middlewares/roleAssertion.middleware.ts:24-26 | Whoever requireAdmin admits, requireUser admits |
| Users.NewUser | src/services/user.service.ts:23-29 | A created row has the payload's email, full name and role, the hashed password, and is neither verified nor deactivated |
| Users.InsertKeepsWellFormed | src/services/user.service.ts:12-24 | Inserting a row under a new id with an email no one holds preserves unique emails |
| Users.ReplaceKeepsWellFormed | src/services/user.service.ts:111-130 | Replacing a row by one whose email no other user holds preserves unique emails |
| Users.CeilDiv | src/services/user.service.ts:58 | totalPage is the least page count whose pages hold all rows: (q - 1) * limit < total <= q * limit, and 0 for no rows |
| Users.Window | src/services/user.service.ts:40-54 | The page holds at most `limit` rows, the rows from index skip on, without passwords, and none past the end |
| Users.FindAll | src/services/user.service.ts:32-66 | skip = (page - 1) * limit. At most `limit` rows are returned, starting at skip. totalPage = ceil(total / limit). page and limit are echoed back |
| Users.RowOnItsPage | src/services/user.service.ts:37-58 | Every row appears on page k / limit + 1 at position k % limit, and that page is within totalPage |
| Users.FindOne | src/services/user.service.ts:68-88 | The user without the password when the id exists, otherwise 404 "User not found" |
| Users.FindById | src/services/user.service.ts:90-94 | The whole row when the id exists, otherwise none |
| Users.FindByEmail | src/services/user.service.ts:96-100 | A row exactly when some user holds the email, and then that user's row |
| Users.EmailConflict | src/services/user.service.ts:111-121 | On a well-formed table, the 409 check fires exactly when the payload carries a non-empty email that another user holds |
| Users.ApplyUpdate | src/services/user.service.ts:124-130 | A supplied email or full name becomes the stored value, and an absent one keeps the stored value. A non-empty supplied password is stored hashed, an empty one is stored as the empty string, and an absent one keeps the stored hash. Id, role and flags are kept |
| Users.OnlyEmptyEmailSlipsPastCheck | src/services/user.service.ts:111-122 | An update that passes the 409 check but collides with another user's email must carry the empty string as its email |
| Users.SetDeactivated | src/services/user.service.ts:171-173 | Only the one user's deactivated flag takes the new value (true here, false at lines 198-200); the keys, every other row and every other field of that user stay |
| Users.SetDeactivatedIdempotent | src/services/user.service.ts:171-173 | Setting the deactivated flag twice is setting it once; no other row or field changes |
| Users.SetDeactivatedKeepsWellFormed | src/services/user.service.ts:198-200 | Changing the flag keeps emails unique |
| Users.UserService.Create | src/services/user.service.ts:11-30 | A taken email is 409 "This email … already exists" with the table unchanged. Otherwise exactly one row is added, built by `NewUser`. Unique emails are preserved and the token table is untouched |
| Users.UserService.UpdateOne | src/services/user.service.ts:102-146 | An unknown id is 404. A non-empty new email held by anyone is 409 "Email … is already in use". An unchanged or empty email skips that check. The stored row becomes `ApplyUpdate` of the old one, unless the email constraint rejects it. Unique emails are preserved |
| Users.UserService.DeleteOne | src/services/user.service.ts:148-160 | An unknown id is 404 with the table unchanged; otherwise exactly that user is removed |
| Users.UserService.DeactivateUser | src/services/user.service.ts:162-187 | An unknown id is 404 with the table unchanged. Otherwise only that user's deactivated flag becomes true, and the user is returned without the password |
| Users.UserService.ActivateUser | src/services/user.service.ts:189-214 | An unknown id is 404 with the table unchanged. Otherwise only that user's deactivated flag becomes false, and the user is returned without the password |
| Auth.AuthService.Register | src/services/auth.service.ts:9-28 | A registered email is 401 (not 409) "This email … already exists" and no user is created. Otherwise exactly one user is added, with the payload's email, role and full name and the hashed password. Nothing is returned and the token table is untouched |
| Auth.RegisterTwice | src/services/auth.service.ts:9-28 | Registering the same email twice: the first registration succeeds and the second is 401 "This email … already exists", whatever id it would have had |
| ErrorMiddleware.Decimal | src/middlewares/error.middleware.ts:19 | A numeric path segment prints as a non-empty string of decimal digits with no leading zero; 0 prints as "0" |
| ErrorMiddleware.DecimalRoundTrip | src/middlewares/error.middleware.ts:18 | Reading the printed digits back gives the number |
| ErrorMiddleware.Join | src/middlewares/error.middleware.ts:19 | Joining with '.' gives the empty string for no pieces and the piece itself for one. Otherwise the result is the first piece, then '.', then the join of the remaining pieces, with length the pieces' total plus one per separator |
| ErrorMiddleware.PathText | src/middlewares/error.middleware.ts:19 | The `field` of an issue is empty for an empty path and the segment's text for a one-segment path. Otherwise it is the first segment's text, '.', and the field of the rest of the path. Keys holding a dot are printed as they are |
| ErrorMiddleware.SplitJoin | src/middlewares/error.middleware.ts:18 | Joining dot-free pieces with '.' and splitting at the dots gives the pieces back |
| ErrorMiddleware.PathTextSplits | src/middlewares/error.middleware.ts:18 | For a non-empty path in which no key contains '.', the `field` of a validation detail splits back into the printed segments of the path. A key holding a dot breaks this: `Key("a.b")` prints as "a.b", which splits into two pieces |
| ErrorMiddleware.IssueDetails | src/middlewares/error.middleware.ts:17-20 | One details entry per issue, in order, with the issue's dotted path and message |
| ErrorMiddleware.ErrorHandler | src/middlewares/error.middleware.ts:7-67 | An HttpException keeps its own status and message. A validation error is 400 "Validation Error" with per-issue details. Database codes map to 400 (P2002, P2003, P2014, other) or 404 (P2025) with their messages. The three JWT error names map to 401. Anything else is 500 "Internal Server Error". Details are present exactly for validation errors and P2002 |

## Left out

- JWT cryptography and the library's own expiry and not-before checks: `sign` and `verify` are parameters of `Tokens.Jwt`. The secret and its `'secret'` fallback sit inside them.
- Password hashing (`Bun.password.hash`) is an uninterpreted function. Its salting, which makes real hashes differ between calls, is not modelled.
- Database failures other than unique-key violations are not modelled.
- Foreign keys between tokens and users are not modelled because the database schema is not part of the source files. `DeleteOne` leaves the user's tokens in place, and a token may be saved for a user id that has no row.
- The database schema's column defaults are assumed: `isVerified` and `deactivated` start false. The `createdAt` and `updatedAt` columns are not modelled.
- Users.FindAll: the `filter` and the database's row order are not modelled; the selected rows are given in order as `rows`. `page >= 1` and `limit > 0` are required. A page below 1 gives a negative skip, which the database client rejects. A zero limit gives a division by zero (Infinity/NaN) in JavaScript. Fractional page and limit values are not modelled.
- Users.FindAll: the default arguments `filter = {}`, `page = 1` and `limit = 10` are not modelled as defaults: a call that omits them corresponds to `FindAll` with page 1 and limit 10 passed explicitly, and the filter is not modelled at all.
- Concurrency is not modelled. The check-then-insert of `create` and `register`, the delete-then-issue of `refreshAuth`, the two saves of `generateAuthTokens` and the `Promise.all` of `findAll` each run as one uninterrupted sequence.
- The clock is read once per operation. The source calls `Date.now()` separately for the expiries and for `iat`.
- HTTP wiring is not modelled: routes, controllers, request parsing, JSON responses, `next()`, errors raised downstream of the middlewares, and `optionalAuth` calling `next()` a second time.
- The error handler's logging, timestamp, request path and development-mode stack trace are not modelled.
- Schema validation (zod), the `Email`/`Page`/`Limit` helpers and the run-time type assertions are not modelled. Dafny's types make the type assertions vacuous.
- The controller calls `login`, `logout`, `refreshTokens`, `forgotPassword`, `resetPassword`, `verifyEmail` and `changePassword` on the authentication service, but none of them exists there, so they are not modelled. The seed script is not modelled either.
- No operation deletes all tokens of one purpose for a user, because the code has none.
- Role names are a closed enumeration (`user`, `admin`), as the user table stores them.
