# go-with-jwt: login and bearer-token middleware, modelled in Dafny

This project models the authentication core of go-with-jwt, `actions/users.go`:

- the `User` record and the in-memory directory seeded with two users;
- the exact-match lookups `getUser` (by email) and `getUserByID` (by ID);
- `UsersLogin`, which runs a fixed chain of checks:
  1. binding;
  2. the password is non-empty;
  3. the email format is valid;
  4. the user is looked up and the password compared;
  5. the key file is read;
  6. the token is signed with HS256.

  The claims of an issued token embed the user, put the user's ID in `jti`, set `exp` one week ahead and set the issuer `<GO_ENV>.api.go-with-jwt.it`;
- `RestrictedHandlerMiddleware`, which ends in one of three ways:
  - it refuses a protected request with a 401;
  - it resolves the token's `jti` to a user, stores that user under "user" in the request context and calls the next handler once;
  - or, for an accepted token without a string `jti`, the type assertion on that claim panics.

The project is split into these modules:

| module | what it holds |
|---|---|
| `Wrappers` | `Option` and `Result` |
| `Passwords` | `strings.TrimSpace`, `encryptPassword`, and bcrypt as an abstract `Hasher` |
| `Directory` | `User`, the seed, and the two lookups, each as a specification function and as the source's loop |
| `Jwt` | JSON claims, the algorithms, jwt-go's foreign parts as an abstract `Codec`, and the `jwt.Parse` flow |
| `Runtime` | the collaborators of the handlers: bcrypt, checkmail, jwt-go, envy and the key file |
| `Claims` | `oneWeek`, `CustomClaims` and their JSON payload |
| `Login` | `UsersLogin` |
| `Middleware` | the key callback, the middleware's decision, and the request context as a class |
| `Lifecycle` | the login→middleware round trip and the scenarios of `actions/users_test.go` |

The foreign libraries are modelled as function values. The model assumes properties of them only as hypotheses of the lemmas that need them:
- `Passwords.Sound`: a stored hash accepts exactly the plaintext it was made from.
- `Jwt.Lawful`: a signed string is non-empty, decodes to what was signed and verifies under the same key.

The clock (`time.Now().Unix()`), the environment (`envy`) and the key file (`ioutil.ReadFile`) are parameters.

Where one might expect otherwise, the model follows the code:
- **Accepted algorithms.** The key callback accepts every HMAC method, i.e. HS256, HS384 and HS512, not one single algorithm. Every other method is refused, "none" included.
- **User ID claim.** The user ID travels in `jti`. The `sub` claim is never set.
- **Key reads.** The key is read from the file again on every protected request and on every login.
- **Missing `jti`.** A token that is accepted but has no string `jti` makes the type assertion at actions/users.go:172 panic. The model has a `Panicked` outcome for this case. The case arises for a user whose ID is empty, because `jti` is `omitempty`.
- **Untrimmed comparison.** `encryptPassword` hashes the trimmed password, but login compares the untrimmed password that was supplied. A password provisioned with surrounding white space therefore cannot be entered as it was provisioned. `Lifecycle.PaddedPasswordCannotLogIn` records this behaviour. It is deliberately not corrected.

## Model

| member | source | states |
|---|---|---|
| `Passwords.TrimLeft` | actions/users.go:127 | after removing leading white space (Go's `unicode.IsSpace`), the result is no longer than the input and starts with a non-space |
| `Passwords.TrimRight` | actions/users.go:127 | after removing trailing white space, the result is no longer than the input and ends with a non-space |
| `Passwords.TrimLeftDropsOnlySpace` | actions/users.go:127 | removing leading white space leaves a suffix of the input, and every character removed is white space |
| `Passwords.TrimRightDropsOnlySpace` | actions/users.go:127 | removing trailing white space leaves a prefix of the input, and every character removed is white space |
| `Passwords.TrimSpace` | actions/users.go:127 | the trimmed password neither starts nor ends with white space, and it equals the input exactly when the input had no surrounding white space |
| `Passwords.TrimSpaceIsSlice` | actions/users.go:127 | the trimmed password is a contiguous slice of the input, and everything cut off on either side is white space |
| `Passwords.TrimSpaceIdempotent` | actions/users.go:127 | trimming twice is the same as trimming once |
| `Passwords.StoredHashAcceptsTrimmedPassword` | actions/users.go:126-134 | with a sound hasher, the stored hash of `p` accepts exactly the trimmed `p`, so an untrimmed `p` with surrounding white space is refused |
| `Directory.SeedUsers` | actions/users.go:28-31 | the seeded users have distinct, non-empty IDs |
| `Directory.GetUser` | actions/users.go:102-110 | returns the first user whose email equals the argument exactly; returns "User not found" exactly when no user has that email |
| `Directory.GetUserByID` | actions/users.go:112-120 | returns the first user whose ID equals the argument exactly; returns "User not found" exactly when no user has that ID |
| `Directory.FindUser` | actions/users.go:103-109 | the for-range loop with its early return computes `GetUser` |
| `Directory.FindUserByID` | actions/users.go:113-119 | the for-range loop with its early return computes `GetUserByID` |
| `Directory.GetUserByIDOfMember` | actions/users.go:112-120 | when IDs are unique, looking up a member's own ID returns that member |
| `Jwt.Parse` | actions/users.go:147-164 | `jwt.Parse` succeeds exactly when all of these hold: the token decodes, the key callback yields a key, the signature verifies under that key, and `exp`, `iat` and `nbf` hold at `now`; the token it returns is the decoded one; an `Invalid` error flags expiry and a bad signature exactly when they occur |
| `Claims.OneWeek` | actions/users.go:122-124 | `oneWeek()` is 604800 seconds |
| `Claims.LifetimeSeconds` | actions/users.go:74 | the lifetime that is added to a Unix time equals `oneWeek()` in whole seconds |
| `Claims.NewClaims` | actions/users.go:71-78 | the claims embed the user, the token ID equals the embedded user's ID, `exp` is `now` plus one week, and subject, audience, `iat` and `nbf` are unset |
| `Claims.UserJson` | actions/users.go:21-25 | a user serialises to exactly the fields `id` and `email`, and the password is never written |
| `Claims.PayloadHidesPassword` | actions/users.go:24 | the signed payload is the same whatever the stored password hash is |
| `Claims.IssuedPayloadShape` | actions/users.go:71-78 | the issued payload holds the user object, `jti` = the user ID (absent when the ID is empty), `exp` = now + 604800, `iss`, and no `sub`, `aud`, `iat` or `nbf` |
| `Login.UsersLogin` | actions/users.go:46-95 | every rejection is a 400; any other outcome requires passed validation and credentials that authenticate; a token is the signature, under the key read from JWT_KEY_PATH, of an HS256 token carrying the found user's claims; an internal error names an unreadable key exactly when the key cannot be read; valid credentials with a readable key give the signer's token, or a 500 when signing fails |
| `Login.ChecksPrecedeLookup` | actions/users.go:48-63 | a bind error, then an empty password, then a malformed email, in that order, each give 400; the outcome does not depend on the directory, hasher, clock, key or signer |
| `Login.UnknownEmailLooksLikeWrongPassword` | actions/users.go:65-69 | an unknown email and a known email with a wrong password give the identical outcome, 400 "Login failed" |
| `Login.CredentialsDecideRejection` | actions/users.go:65-92 | for a well-formed request, the login is rejected exactly when the credentials do not authenticate; an unreadable key gives a 500 and no token; a readable key and a successful signer give that token |
| `Middleware.KeyFunc` | actions/users.go:147-160 | a key is returned exactly for an HMAC method with a readable key, and that key is the file's contents; any other method is refused with "unexpected signing method" |
| `Middleware.Authorize` | actions/users.go:138-185 | every refusal is a 401; an empty header is refused as "no token", and nothing else is; a non-empty token that is not accepted (it does not decode, has a non-HMAC method, has no readable key, fails its signature, or fails `exp`, `iat` or `nbf`) is a 401 parse refusal; it panics exactly for an accepted token without a string `jti`; it proceeds exactly when the token is accepted and its `jti` is a string naming a user; the user it proceeds with is the first user with that ID |
| `Middleware.NonHmacRejected` | actions/users.go:148-150 | a token with a non-HMAC method, including "none", is refused before any key read and never proceeds |
| `Middleware.UnreadableKeyRejected` | actions/users.go:153-157 | without a readable key, every non-empty token is refused as unparseable |
| `Middleware.BadSignatureRejected` | actions/users.go:162-164 | an HMAC token whose signature does not verify under the key is refused with the signature-invalid flag |
| `Middleware.ExpiredRejected` | actions/users.go:162-164 | a token whose `exp` is before `now` is refused as expired |
| `Middleware.UnknownSubjectRejected` | actions/users.go:171-176 | an accepted token whose `jti` names no user is refused with 401 "Could not identify the user" |
| `Middleware.AcceptedTokenProceeds` | actions/users.go:167-184 | an accepted token whose `jti` is the ID of user `u`, where `u` is the first user with that ID, hands `u` on |
| `Middleware.Context.Set` | actions/users.go:178 | `c.Set` writes exactly one key of the context |
| `Middleware.Context.CallNext` | actions/users.go:184 | `next` runs once and leaves the context values alone |
| `Middleware.RestrictedHandler` | actions/users.go:139-185 | the decision is `Authorize`; on proceed, the context's "user" is exactly that user and `next` is called once; otherwise the context is unchanged and `next` is never called |
| `Lifecycle.IssuedTokenDecodes` | actions/users.go:71-94 | given a lawful codec, an issued token is non-empty, decodes to the HS256 token of the found user's claims, and verifies under the key read at login |
| `Lifecycle.IssuedTokenIsAccepted` | actions/users.go:71-184 | a token issued at login is accepted for up to one week and resolves to the user who logged in (same email), given a lawful codec and unique, non-empty IDs |
| `Lifecycle.IssuedTokenExpires` | actions/users.go:74 | after one week an issued token is refused as expired |
| `Lifecycle.PaddedPasswordCannotLogIn` | actions/users.go:127 | a password provisioned with surrounding white space fails as typed, with "Login failed", and passes the credential check once trimmed |
| `Lifecycle.ProvisionedUserLogsIn` | actions/users.go:65-69 | a user whose hash is `encryptPassword` of a password without surrounding white space, and who is not shadowed by an earlier user with the same email, authenticates with that password |
| `Lifecycle.SeededUsersLogIn` | actions/users_test.go:18-22 | both seeded users authenticate with their own passwords and get past the 400s |
| `Lifecycle.SeededBadCredentialsFail` | actions/users_test.go:19-20 | a wrong password and an unknown email both give 400 "Login failed" |
| `Lifecycle.SeededMalformedEmailsFail` | actions/users_test.go:21-24 | "", "asdfas.net" and "fakemail@." give 400 "Invalid email" |
| `Lifecycle.SeededLoginThenMe` | actions/users_test.go:40-84 | a seeded login yields a token; that token then hands the seeded user to the next handler, and the user's JSON holds the email and no password |

## Left out

- bcrypt (actions/users.go:67, 127). This covers its algorithm, its cost factor 8, its random salt and its 72-byte input limit. It is foreign code and appears only as the abstract `Hasher`. A malformed stored hash makes the comparison fail, which the model folds into "compare is false".
- JWT serialisation, base64url and the HMAC-SHA256 computation (actions/users.go:86-88, 147-160). These are foreign code in jwt-go and appear only as the abstract `Codec`. The order in which `jwt.Parse` checks things and its `MapClaims` time checks follow jwt-go v3 as documented. That library is not part of this model.
- JSON numbers. They are integers here. jwt-go decodes them as float64, so precision beyond 2^53 is not modelled.
- The email-format regex of checkmail (actions/users.go:61). It is foreign code and appears only as `checkFormat`.
- Buffalo binding, rendering and context plumbing (actions/users.go:49, 94). Binding is given as its result: a request or an error text. Rendering is the `LoginOutcome`. The result of the next handler is not modelled. Only the fact that the handler runs is modelled.
- `UsersMe` (actions/users.go:98-100) and `main.go`. These are HTTP and process plumbing. The JSON they would render for the context user is `Claims.UserJson`.
- The detail text of errors. Examples are the `%v` parts of "could not open jwt key, %v", "Could not parse the token, %v" and the binder's message. Only the fixed part of each message is modelled.
- The logging at actions/users.go:169. It has no behavioural effect.
- The panic in `encryptPassword` on entropy failure (actions/users.go:129-130). It is a start-up fatal error.
- The branch at actions/users.go:180-181. `jwt.Parse` returns a nil error only for a valid `MapClaims` token, so this branch cannot be taken and the model has no outcome for it.
- Strings. They are sequences of Unicode characters. Byte-level UTF-8 handling, including invalid UTF-8 in `strings.TrimSpace`, is not modelled.
