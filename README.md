# tracking-server authentication and profile core, in Dafny

This project models the authentication and profile core of the iDiet
tracking server, a Flask service. The server has two auth stacks that
share nothing, and the model keeps them apart.

**The in-memory stack** is `idiet/tracking/auth/views.py` together with `idiet/tracking/api/user.py`:
- Users live in the class-level dictionary `User._users`, keyed by an integer id. The id is derived from the e-mail address as `int(b16encode(email.encode("utf-8")), 16)`.
- Issued JWTs live in `Token._tokens`, keyed by the token's bytes.
- Profiles live in `UserProfile._profiles`, keyed by user id.
- Register and login views issue tokens.
- A bearer-token gate (`verify_token`) binds `g.user` for the profile GET and POST views.

**The backend stack** is `idiet/tracking/api.py` together with `idiet/tracking/backend/db.py`:
- `SqlAlchemyBackend` stores logins with salted password hashes. It also stores profiles, whose `member_since` is the creation time, and a food table.
- Register, login, profile and food-search views sit on top of it.
- Login issues a one-hour JWT that carries the user's name.

How the model is built:
- Module layout:
  - `common.dfy`: options, results, Python exceptions as values, JSON values and HTTP outcomes.
  - `encoding.dfy`: UTF-8 encoding with a decoder, Base16, hexadecimal parsing and big-endian values.
  - `crypto.dfy`: the hashing and JWT primitives.
  - `auth_views.dfy`, `api_user.dfy`, `backend_db.dfy` and `api.dfy`: one module per core source file.
- Objects whose fields the code assigns are classes with `modifies` clauses: the three class-level tables, the loaded `UserProfile` object and the backend. Everything else is a datatype.
- Crypto is abstract. `Primitives` is a record of the hash, check, sign and decode functions. `Crypto.Sound` states what the model assumes of them:
  - a hash checks against its own password and no other, and never equals the plaintext;
  - a signed token with an integer `exp` and no `aud` decodes to its claims before `exp`;
  - after `exp` it fails as expired.
- The clock is an integer count of seconds passed in as `now`. Random salts and the secret key are parameters too.

Main results:
- **User ids.** The id of a non-empty address is the big-endian value of its UTF-8 bytes. The empty address raises `ValueError`. Two non-empty addresses share an id exactly when they agree after stripping leading NUL characters. So distinct ordinary addresses never collide, and `"\0a@b"` collides with `"a@b"`.
- **The gate.** After register or login issues a token, the gate binds exactly that token text to the user. Every other text keeps its previous binding, because UTF-8 encoding is injective.
- **Backend validation and sessions.** `validate` accepts exactly the password the login was created with. A generated token leads `user_from_token` back to its user until it expires, and raises `ExpiredSignature` after that.
- **Food facts.** `from_dict(to_dict(f))` gives back `f` except for its primary key. `to_dict(from_dict(d))` keeps the six food keys, fills `None` where `d` lacks one, and drops any other key. Food search succeeds exactly when one row matches. It raises `AttributeError` when no row matches and `MultipleResultsFound` when several do.

## Model

| member | source | states |
|---|---|---|
| Encoding.Utf8Encode | idiet/tracking/auth/views.py:80 | `email.encode("utf-8")` gives between one and four bytes per character; Utf8RoundTrip and Utf8Injective are its partners |
| Encoding.EncodeChar | idiet/tracking/auth/views.py:80 | a character encodes to 1 to 4 UTF-8 bytes, and the first byte is zero exactly for NUL |
| Encoding.Utf8RoundTrip | idiet/tracking/auth/views.py:80 | decoding `email.encode("utf-8")` gives back the string's code points |
| Encoding.Utf8Injective | idiet/tracking/auth/views.py:160 | two strings have the same UTF-8 bytes if and only if they are equal |
| Encoding.Base16Encode | idiet/tracking/auth/views.py:80 | `b16encode` produces two digits per byte |
| Encoding.ParseHexInt | idiet/tracking/auth/views.py:80 | `int(s, 16)` succeeds exactly on a non-empty string of hex digits, is non-negative, and otherwise raises `ValueError` |
| Encoding.HexValueOfBase16 | idiet/tracking/auth/views.py:80 | the Base16 text of some bytes is all hex digits, and its value is the bytes' big-endian value |
| Encoding.ParseBase16 | idiet/tracking/auth/views.py:80 | `int(b16encode(b), 16)` raises `ValueError` exactly for empty `b` and is the big-endian value of `b` otherwise |
| Encoding.BigEndianEqual | idiet/tracking/auth/views.py:80 | two byte strings have the same integer value if and only if they are equal once leading zero bytes are dropped |
| Encoding.StripZerosOfUtf8 | idiet/tracking/auth/views.py:80 | the leading zero bytes of a UTF-8 encoding are exactly the encodings of the string's leading NULs |
| AuthViews.DeriveId | idiet/tracking/auth/views.py:80 | the id derivation fails exactly for the empty e-mail, with `ValueError`, and is otherwise non-negative |
| AuthViews.DeriveIdValue | idiet/tracking/auth/views.py:80 | the id of a non-empty e-mail is the big-endian value of its UTF-8 bytes; the empty e-mail raises `ValueError` |
| AuthViews.SameIdIff | idiet/tracking/auth/views.py:80 | two non-empty e-mails get the same id if and only if they agree after their leading NULs are stripped |
| AuthViews.DistinctEmailsDistinctIds | idiet/tracking/auth/views.py:80 | distinct non-empty e-mails that do not start with NUL get distinct ids |
| AuthViews.NulPrefixSharesId | idiet/tracking/auth/views.py:80 | prefixing an e-mail with NUL does not change its id |
| AuthViews.Create | idiet/tracking/auth/views.py:79-82 | a missing e-mail raises `AttributeError`, an empty one `ValueError` and a missing password `TypeError`; otherwise the user has that e-mail, the derived id and the salted hash of the password |
| AuthViews.CreateIdIgnoresPassword | idiet/tracking/auth/views.py:79-82 | the id of a created user depends on the e-mail only, whatever the password or salt |
| AuthViews.TokenTable.constructor | idiet/tracking/auth/views.py:24 | the token table starts empty |
| AuthViews.TokenTable.Add | idiet/tracking/auth/views.py:30-32 | binds the token to the user, replacing any earlier binding, leaves every other entry alone, and returns the token |
| AuthViews.TokenTable.Delete | idiet/tracking/auth/views.py:35-37 | as written, every call raises `AttributeError` and nothing is removed |
| AuthViews.TokenTable.DeleteIntended | idiet/tracking/auth/views.py:35-37 | as intended: removes exactly that token and returns it, or raises `KeyError` when it is absent; afterwards the token is not in the table |
| AuthViews.TokenTable.UserFromToken | idiet/tracking/auth/views.py:40-42 | finds a user if and only if the token is a key, and then it is the user bound to it |
| AuthViews.Holder | idiet/tracking/auth/views.py:160 | the gate finds a user for a token text if and only if the text's UTF-8 bytes are a key of the token table, and then it is the user bound to them |
| AuthViews.HolderAfterAdd | idiet/tracking/auth/views.py:158-162 | after a token text is added, the gate binds that text to the new user and every other text to what it was bound to before |
| AuthViews.UserTable.constructor | idiet/tracking/auth/views.py:47 | the user table starts empty |
| AuthViews.UserTable.Add | idiet/tracking/auth/views.py:85-87 | stores the user under its id, replacing any previous user with that id |
| AuthViews.UserTable.Delete | idiet/tracking/auth/views.py:90-92 | removes exactly the user's id, or raises `KeyError` and changes nothing when it is absent |
| AuthViews.UserTable.Get | idiet/tracking/auth/views.py:95-99 | raises exactly when `create` does; otherwise finds a user if and only if the e-mail's id is taken, and then returns the newly created user, not the stored one |
| AuthViews.GetIgnoresPassword | idiet/tracking/auth/views.py:95-99 | whether a lookup finds a user does not depend on the password or salt |
| AuthViews.AuthClaims | idiet/tracking/auth/views.py:57-61 | the payload has exactly `aud` = the user id, `iat` = now and `exp` = now plus one hour |
| AuthViews.AuthToken | idiet/tracking/auth/views.py:54-64 | returns the signed payload, and the token table gains exactly that token's bytes, bound to the user |
| AuthViews.Register | idiet/tracking/auth/views.py:107-130 | errors of `create` escape with both tables unchanged; a taken id gives 202 "fail" with both tables unchanged; a new id stores the user, registers a fresh token for it and returns 201 with that token |
| AuthViews.Login | idiet/tracking/auth/views.py:134-155 | as written: both e-mail and password come from "email"; 201 with a new token exactly when the e-mail's id is registered, 401 otherwise |
| AuthViews.LoginIgnoresPassword | idiet/tracking/auth/views.py:139-143 | for a registered e-mail, a wrong password still logs in with 201 |
| AuthViews.LoginIntended | idiet/tracking/auth/views.py:134-155 | as intended: 201 with a token for the stored user exactly when the id is registered and the "password" field checks against its stored hash, 401 otherwise |
| AuthViews.LoginIntendedChecksPassword | idiet/tracking/auth/views.py:134-155 | with sound hashing, a registered user gets 201 if and only if the password given is the one registered |
| AuthViews.VerifyToken | idiet/tracking/auth/views.py:158-162 | lets the request through if and only if the token's UTF-8 bytes are in the table, and binds `g.user` to that entry |
| ApiUser.NewProfile | idiet/tracking/api/user.py:15-17 | a default profile has two empty names and no date of birth |
| ApiUser.AsDict | idiet/tracking/api/user.py:19-20 | the dict has exactly the three attribute names, each mapped to its field |
| ApiUser.ProfileFromBody | idiet/tracking/api/user.py:51-56 | the posted profile takes "first-name", "last-name" and "dob" from the body, each `None` when the key is missing |
| ApiUser.ProfileTable.constructor | idiet/tracking/api/user.py:13 | the profile table starts empty |
| ApiUser.ProfileTable.Get | idiet/tracking/api/user.py:22-25 | finds a profile if and only if the user's id has one, and then it is the stored one |
| ApiUser.ProfileTable.Add | idiet/tracking/api/user.py:27-30 | stores the profile under the user's id, replacing any previous one, and returns it |
| ApiUser.ProfileGet | idiet/tracking/api/user.py:36-43 | 200 with the stored profile's dict, or with `{}` when the user has none |
| ApiUser.ProfilePost | idiet/tracking/api/user.py:46-62 | the user's profile becomes the one the body describes, with missing keys as `None`; other users' profiles are unchanged; the reply is 200 "information updated" |
| ApiUser.GuardedProfileGet | idiet/tracking/api/user.py:35-43 | a token the gate does not know gets 401; a known one gets its holder's profile |
| ApiUser.GuardedProfilePost | idiet/tracking/api/user.py:45-62 | a token the gate does not know gets 401 and changes nothing; a known one replaces its holder's profile |
| ApiUser.RegisterThenUseProfile | idiet/tracking/api/user.py:35-62 | on fresh tables, registering returns 201 carrying the signed token; the gate binds that token to the new user and binds no other given text; with the token the profile is first `{}`, then a POST succeeds and the table holds exactly the posted profile under the user's id, and a later GET reads it back; the other text gets 401 |
| BackendDb.UpdatedProfile | idiet/tracking/backend/db.py:66-68 | the partial update never touches `member_since`, and overwrites `name` or `gender` exactly when the body has that key |
| BackendDb.UpdatedProfileProperties | idiet/tracking/backend/db.py:66-68 | applying the same body twice is the same as once; with both keys present the partial update agrees with the UPDATE statement of db.py:171-172 |
| BackendDb.UserProfile.constructor | idiet/tracking/backend/db.py:56-64 | a loaded profile holds the stored row's values |
| BackendDb.UserProfile.Update | idiet/tracking/backend/db.py:66-68 | the object's new fields follow the partial-update rule |
| BackendDb.UserProfile.ToDict | idiet/tracking/backend/db.py:70-75 | the dict has exactly `name`, `gender` and `member_since`, each with the object's value |
| BackendDb.SessionClaims | idiet/tracking/backend/db.py:44-48 | the payload has exactly `user` = the name, `iat` = now and `exp` = now plus one hour |
| BackendDb.UserLogin.constructor | idiet/tracking/backend/db.py:138 | the new login holds the name, hash and profile given |
| BackendDb.UserLogin.Equals | idiet/tracking/backend/db.py:35-36 | two logins are equal if and only if their names are, whatever their hashes and profiles |
| BackendDb.UserLogin.Validate | idiet/tracking/backend/db.py:38-39 | checks the password against the stored hash; its partner ValidateExactlyOwnPassword shows that, with sound hashing, it accepts exactly the password the hash was made from |
| BackendDb.ValidateExactlyOwnPassword | idiet/tracking/backend/db.py:38-39 | with sound hashing, a login validates exactly the password it was created with; that the stored hash differs from the plaintext is assumed of werkzeug's hashing |
| BackendDb.UserLogin.GenerateToken | idiet/tracking/backend/db.py:41-53 | the token signs the session claims, and `expires_on` is their `exp`, one hour after now |
| BackendDb.GeneratedTokenLifetime | idiet/tracking/backend/db.py:41-53 | a generated token decodes to the user's claims before it expires and fails with `ExpiredSignature` after |
| BackendDb.FoodToDict | idiet/tracking/backend/db.py:88-96 | the dict has exactly the six food keys, with "name" the row's food name |
| BackendDb.FoodFromDict | idiet/tracking/backend/db.py:98-109 | the new row has no primary key |
| BackendDb.DictRoundTrip | idiet/tracking/backend/db.py:88-109 | `to_dict(from_dict(d))` keeps the six keys with `d`'s values, `None` where `d` lacked them, and drops the rest |
| BackendDb.RowRoundTrip | idiet/tracking/backend/db.py:88-109 | `from_dict(to_dict(f))` equals `f` except for the primary key |
| BackendDb.Matching | idiet/tracking/backend/db.py:183 | `filter_by(foodname=name)` keeps exactly the rows with that name, each as often as the table has it |
| BackendDb.SqlAlchemyBackend.constructor | idiet/tracking/backend/db.py:124-130 | a new backend has no users and the given food table |
| BackendDb.SqlAlchemyBackend.AddUser | idiet/tracking/backend/db.py:135-142 | a taken name raises `IntegrityError` and changes nothing; otherwise the store gains exactly the salted hash with a profile created now, and a fresh login for it is returned |
| BackendDb.SqlAlchemyBackend.GetUser | idiet/tracking/backend/db.py:146-149 | returns a login if and only if the name is stored, freshly loaded with the stored hash and profile |
| BackendDb.SqlAlchemyBackend.UserExists | idiet/tracking/backend/db.py:153-155 | true if and only if the name is stored |
| BackendDb.SqlAlchemyBackend.UserProfileUpdate | idiet/tracking/backend/db.py:166-173 | the loaded profile is always partially updated; the stored row is updated only when both "name" and "gender" are present, and otherwise `KeyError` leaves the store unchanged |
| BackendDb.SqlAlchemyBackend.UserFromToken | idiet/tracking/backend/db.py:175-178 | decode errors and a missing "user" claim raise; otherwise a login is found if and only if the claim names a stored user, and it carries that user's hash |
| BackendDb.SqlAlchemyBackend.FoodItemFindClosestMatch | idiet/tracking/backend/db.py:180-184 | succeeds if and only if exactly one row matches, with that row's dict as the only element; `AttributeError` if and only if no row matches; `MultipleResultsFound` when several do |
| BackendDb.AddThenGet | idiet/tracking/backend/db.py:135-149 | after `add_user`, `get_user` of the same name returns a login equal to the one added; it stores `p.hash(salt, password)`, validates the password, and has an empty profile created now; that the hash differs from the plaintext is assumed of werkzeug's hashing |
| BackendDb.SessionRoundTrip | idiet/tracking/backend/db.py:175-178 | a token generated for a stored user leads back to that user before expiry and raises `ExpiredSignature` after |
| Api.RegisterPost | idiet/tracking/api.py:10-30 | a missing field raises `KeyError`; a stored name gives 302 with the store unchanged; a new name is stored with its salted hash and gets 201 with its `member_since` |
| Api.LoginPost | idiet/tracking/api.py:35-65 | a missing field raises `KeyError`; an unknown name gives 403, a wrong password 401, and the right one 202 with a token that expires an hour later; only a 202 reply carries a token |
| Api.ProfileGet | idiet/tracking/api.py:71-81 | 202 with the user's profile dict under "data", including its `member_since` |
| Api.ProfilePost | idiet/tracking/api.py:84-100 | the loaded profile follows the partial-update rule; without both "name" and "gender" the reply is 304 and the store is unchanged; with both it is 202, the stored profile takes both values, and a user whose name is not stored leaves the store unchanged |
| Api.FoodSearch | idiet/tracking/api.py:105-126 | without "name" the reply is 400; otherwise backend errors escape, and success gives 202 with `num_results` 1 and the matching row under "data" |
| Api.MaxResults | idiet/tracking/api.py:116 | `max_results` defaults to 10 and otherwise is the parameter given |
| Api.RegisterAndLogin | idiet/tracking/api.py:10-65 | on an empty store: register gives 201, registering again 302, login 202 with a token, a wrong password 401 without a token, and an unknown name 403 |

## Left out

- **HTTP layer.** Flask routing, `jsonify` and `make_response` are modelled as `Reply(status, body)`, and an escaping exception as `Raised(error)`. `flask_httpauth` header parsing is left out: a request the gate rejects is `Reply(401, {})`. The gate's argument is the token text after the scheme.
- **Backend gate.** The backend views are decorated with `token_auth`, which `idiet/tracking/core.py` does not define. The model therefore takes the authenticated `UserLogin` as a parameter of `Api.ProfileGet` and `Api.ProfilePost`, and `Api.FoodSearch` is modelled without a gate.
- **Crypto.** werkzeug's password hashing and PyJWT are abstract functions; only the facts in `Crypto.Sound` are assumed about them. Tampered tokens, wrong secrets and signature forgery are not modelled. The instant `now == exp` is not assumed either way.
- **Random values and the clock.** The random salt, the `os.urandom` secret and `utcnow()` are parameters. Times are integer seconds, and the `str(datetime)` text of `timestamp` and `expires_on` is kept as a `Time` value.
- **Module state.** The class-level dictionaries of `views.py` and `api/user.py` are shared module state. They are modelled as objects passed to each view, and concurrent requests are not modelled.
- **SQLAlchemy.** Sessions, commits, lazy loading and surrogate ids are left out. The database is a map from user name to row, and the profile's UPDATE is keyed by the user's name instead of the profile's id.
- **Floating point.** The nutrient columns of the food table are floating point and are only copied, as JSON values.
- **`User.verify_token`.** `User.verify_token` (views.py:66-76) is called nowhere and is not modelled.
- **Other backend members.** `user_validate`, `user_generate_token` and `user_profile_get` (db.py:157-164) are one-line delegations. `UserProfileView.get` calls `user_profile_get` (api.py:74); `Api.ProfileGet` inlines that delegation and reads `user.profile` directly. The other two are not called by the views.
- **Request parsing.** `request.get_json()` returning `None` is not modelled. Register and login bodies are maps from strings to strings, and the query string of food search is a map from strings to strings.
- **Other files.** `encrypt.py`, `models/user.py`, `config.py`, `core.py` and `wsgi.py` are not part of this model.
- AuthViews.Register: the source hashes the password twice, once inside `User.get` and once in `User.create`, each time with a fresh salt. The model uses one salt for both; the first hash is discarded anyway.
- Encoding.ParseHexInt: accepts only plain hex digits. Python's `int(s, 16)` also accepts surrounding whitespace, underscores, a sign and a `0x` prefix. The only input here is `b16encode` output, which never contains them.
- BackendDb.SqlAlchemyBackend.UserFromToken: a "user" claim that is not a string is modelled as finding no user. The source would query the database with that value.
- AuthViews.Create: an e-mail holding a lone surrogate such as `"\ud800"` is not modelled. Python's `json` accepts it, and `email.encode("utf-8")` at views.py:80 then raises `UnicodeEncodeError`. Dafny strings hold Unicode scalar values only, so the model cannot express that input or its error; the same holds for `AuthViews.DeriveId`, `AuthViews.DeriveIdValue` and the token text at views.py:160.
- BackendDb.SqlAlchemyBackend.GetUser: `member_since` is a `Date` column (db.py:62), so a reloaded profile carries the day only. The model keeps the creation time to the second after a reload. The same applies to `Api.ProfileGet` and `Api.RegisterPost`.
- Api.ProfilePost: the 202 message `updated values <keys>` is not modelled.
- Api.FoodSearch: the message `<n> results found` is not modelled, and `max_results` is passed on but is unused by the backend.

## Findings

| source | as written | input that shows it | evidently intended | confidence | as-written member | corrected member |
|---|---|---|---|---|---|---|
| idiet/tracking/auth/views.py:36 | `Token.delete` deletes from `cls._token`, which does not exist, so it always raises `AttributeError` | any token, e.g. one just issued by register | remove the token from `cls._tokens`, raising `KeyError` if it is absent | high (not executed) | AuthViews.TokenTable.Delete | AuthViews.TokenTable.DeleteIntended |
| idiet/tracking/auth/views.py:141 | login reads the password from the "email" field, and `User.get` compares ids only, so any password logs a registered user in | register `{"email": "a@b", "password": "pw"}`, then log in with `{"email": "a@b", "password": "wrong"}`: 201 with a token | log in only with the registered password, checked against the stored hash | high (not executed) | AuthViews.LoginIgnoresPassword | AuthViews.LoginIntendedChecksPassword |
