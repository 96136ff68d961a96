/** The in-memory authentication stack (idiet/tracking/auth/views.py): the
    class-level tables `User._users` and `Token._tokens`, the register and
    login views, and the bearer-token gate. */
module AuthViews {
  import opened Common
  import opened Encoding
  import opened Crypto

  /** `User(email, password, unique_id)`; `password` holds the salted hash. */
  datatype User = User(email: string, password: string, id: int)

  /** The JSON body of the register and login requests. */
  type Body = map<string, string>

  // ---------------------------------------------------------------------
  // User ids
  // ---------------------------------------------------------------------

  /** `int(base64.b16encode(email.encode("utf-8")), 16)`: only the empty
      address fails, with `ValueError` from `int(b"", 16)`. */
  function DeriveId(email: string): (r: Result<int>)
    ensures r.Ok? <==> email != []
    ensures r.Err? ==> r.error == ValueError
    ensures r.Ok? ==> r.value >= 0
  {
    ParseBase16(Utf8Encode(email));
    ParseHexInt(Base16Encode(Utf8Encode(email)))
  }

  /** The id is the big-endian value of the e-mail's UTF-8 bytes; only the
      empty address fails, with `ValueError`. */
  lemma DeriveIdValue(email: string)
    ensures email == [] ==> DeriveId(email) == Err(ValueError)
    ensures email != [] ==> DeriveId(email) == Ok(BigEndian(Utf8Encode(email)))
  {
    ParseBase16(Utf8Encode(email));
  }

  /** Two non-empty addresses share an id exactly when they are equal once
      their leading NUL characters are removed. */
  lemma SameIdIff(e1: string, e2: string)
    requires e1 != [] && e2 != []
    ensures DeriveId(e1) == DeriveId(e2) <==> StripNul(e1) == StripNul(e2)
  {
    DeriveIdValue(e1);
    DeriveIdValue(e2);
    BigEndianEqual(Utf8Encode(e1), Utf8Encode(e2));
    StripZerosOfUtf8(e1);
    StripZerosOfUtf8(e2);
    Utf8Injective(StripNul(e1), StripNul(e2));
  }

  /** Different addresses that do not start with NUL get different ids. */
  lemma DistinctEmailsDistinctIds(e1: string, e2: string)
    requires e1 != [] && e2 != [] && e1 != e2
    requires e1[0] != '\0' && e2[0] != '\0'
    ensures DeriveId(e1).Ok? && DeriveId(e2).Ok?
    ensures DeriveId(e1).value != DeriveId(e2).value
  {
    SameIdIff(e1, e2);
    DeriveIdValue(e1);
    DeriveIdValue(e2);
  }

  /** A leading NUL does not change the id, so "\0a@b" collides with "a@b". */
  lemma NulPrefixSharesId(email: string)
    requires email != []
    ensures DeriveId(['\0'] + email) == DeriveId(email)
  {
    assert (['\0'] + email)[1..] == email;
    SameIdIff(['\0'] + email, email);
  }

  /** `User.create(email, password)`: derives the id from the e-mail alone
      and hashes the password with `salt`. A missing e-mail raises
      `AttributeError` (`None.encode`), the empty one `ValueError`, a
      missing password `TypeError` in the hash. */
  function Create(email: Option<string>, password: Option<string>, salt: string, p: Primitives): (r: Result<User>)
    ensures email.None? ==> r == Err(AttributeError)
    ensures email.Some? && email.value == [] ==> r == Err(ValueError)
    ensures email.Some? && email.value != [] && password.None? ==> r == Err(TypeError)
    ensures r.Ok? <==> email.Some? && email.value != [] && password.Some?
    ensures r.Ok? ==>
      && r.value.email == email.value
      && DeriveId(email.value) == Ok(r.value.id)
      && r.value.password == p.hash(salt, password.value)
  {
    if email.None? then Err(AttributeError)
    else
      var id := DeriveId(email.value);
      DeriveIdValue(email.value);
      if id.Err? then Err(id.error)
      else if password.None? then Err(TypeError)
      else Ok(User(email.value, p.hash(salt, password.value), id.value))
  }

  /** The id `Create` gives does not depend on the password or the salt. */
  lemma CreateIdIgnoresPassword(email: string, pw1: string, pw2: string, s1: string, s2: string, p: Primitives)
    requires email != []
    ensures Create(Some(email), Some(pw1), s1, p).Ok?
    ensures Create(Some(email), Some(pw1), s1, p).value.id == Create(Some(email), Some(pw2), s2, p).value.id
  {
  }

  // ---------------------------------------------------------------------
  // Token._tokens
  // ---------------------------------------------------------------------

  /** `Token._tokens`: each issued token, as bytes, to the user it was
      issued to. */
  class TokenTable {
    var tokens: map<seq<byte>, User>

    constructor ()
      ensures tokens == map[]
    {
      tokens := map[];
    }

    /** `Token.add(token, user)`. */
    method Add(token: seq<byte>, user: User) returns (r: seq<byte>)
      modifies this
      ensures tokens == old(tokens)[token := user]
      ensures r == token
    {
      tokens := tokens[token := user];
      r := token;
    }

    /** `Token.delete(token)` as written: it deletes from `cls._token`, an
        attribute the class does not have, so every call raises
        `AttributeError` and the table is left as it was. */
    method Delete(token: seq<byte>) returns (r: Result<seq<byte>>)
      ensures r == Err(AttributeError)
    {
      r := Err(AttributeError);
    }

    /** `Token.delete(token)` as evidently intended: `del cls._tokens[token]`,
        which removes the entry, or raises `KeyError` when there is none. */
    method DeleteIntended(token: seq<byte>) returns (r: Result<seq<byte>>)
      modifies this
      ensures token in old(tokens) ==> r == Ok(token) && tokens == old(tokens) - {token}
      ensures token !in old(tokens) ==> r == Err(KeyError) && tokens == old(tokens)
      ensures token !in tokens
    {
      if token in tokens {
        tokens := tokens - {token};
        r := Ok(token);
      } else {
        r := Err(KeyError);
      }
    }

    /** `Token.user_from_token(token)`: `_tokens.get(token)`. */
    function UserFromToken(token: seq<byte>): (r: Option<User>)
      reads this
      ensures r.Some? <==> token in tokens
      ensures r.Some? ==> r.value == tokens[token]
    {
      if token in tokens then Some(tokens[token]) else None
    }
  }

  /** The user a token table binds to a bearer token sent as text: the
      gate encodes the text to UTF-8 before the lookup. */
  ghost function Holder(tokens: map<seq<byte>, User>, text: string): (r: Option<User>)
    ensures r.Some? <==> Utf8Encode(text) in tokens
    ensures r.Some? ==> r.value == tokens[Utf8Encode(text)]
  {
    var key := Utf8Encode(text);
    if key in tokens then Some(tokens[key]) else None
  }

  /** Registering token text `t` for `u` makes the gate bind `t` to `u` and
      leaves every other text bound as before: distinct texts never share
      an encoding. */
  lemma HolderAfterAdd(tokens: map<seq<byte>, User>, t: string, u: User, other: string)
    ensures Holder(tokens[Utf8Encode(t) := u], t) == Some(u)
    ensures other != t ==> Holder(tokens[Utf8Encode(t) := u], other) == Holder(tokens, other)
  {
    Utf8Injective(t, other);
  }

  // ---------------------------------------------------------------------
  // User._users
  // ---------------------------------------------------------------------

  /** `User._users`: registered users by id. */
  class UserTable {
    var users: map<int, User>

    constructor ()
      ensures users == map[]
    {
      users := map[];
    }

    /** `User.add(user)`: stores `user` under its id, replacing any entry. */
    method Add(user: User) returns (r: User)
      modifies this
      ensures users == old(users)[user.id := user]
      ensures r == user
    {
      users := users[user.id := user];
      r := user;
    }

    /** `User.delete(user)`: `del _users[user.id]`, `KeyError` when absent. */
    method Delete(user: User) returns (r: Result<User>)
      modifies this
      ensures user.id in old(users) ==> r == Ok(user) && users == old(users) - {user.id}
      ensures user.id !in old(users) ==> r == Err(KeyError) && users == old(users)
    {
      if user.id in users {
        users := users - {user.id};
        r := Ok(user);
      } else {
        r := Err(KeyError);
      }
    }

    /** `User.get(email, password)`: builds a new user with `User.create`
        and returns it when its id is already a key of the table. The
        password only takes part through the errors of `Create`; the user
        returned is the new one, not the stored entry. */
    function Get(email: Option<string>, password: Option<string>, salt: string, p: Primitives): (r: Result<Option<User>>)
      reads this
      ensures r.Err? <==> Create(email, password, salt, p).Err?
      ensures r.Err? ==> r.error == Create(email, password, salt, p).error
      ensures r.Ok? ==> (r.value.Some? <==> Create(email, password, salt, p).value.id in users)
      ensures r.Ok? && r.value.Some? ==> r.value.value == Create(email, password, salt, p).value
    {
      match Create(email, password, salt, p)
      case Err(e) => Err(e)
      case Ok(u) => Ok(if u.id in users then Some(u) else None)
    }
  }

  /** Whether a lookup finds a user does not depend on the password given,
      as long as one is given. */
  lemma GetIgnoresPassword(users: UserTable, email: string, pw1: string, pw2: string, s1: string, s2: string, p: Primitives)
    ensures users.Get(Some(email), Some(pw1), s1, p).Ok? == users.Get(Some(email), Some(pw2), s2, p).Ok?
    ensures users.Get(Some(email), Some(pw1), s1, p).Ok? ==>
      (users.Get(Some(email), Some(pw1), s1, p).value.Some? <==> users.Get(Some(email), Some(pw2), s2, p).value.Some?)
  {
    if email != [] { CreateIdIgnoresPassword(email, pw1, pw2, s1, s2, p); }
  }

  // ---------------------------------------------------------------------
  // Tokens and views
  // ---------------------------------------------------------------------

  /** The payload of `User.auth_token` for a user at time `now`. */
  function AuthClaims(user: User, now: int): (c: Claims)
    ensures c.Keys == {"aud", "iat", "exp"}
    ensures c["aud"] == Int(user.id)
    ensures c["iat"] == Int(now) && c["exp"] == Int(now + OneHour)
  {
    map["aud" := Int(user.id), "iat" := Int(now), "exp" := Int(now + OneHour)]
  }

  /** `user.auth_token()`: signs the user's claims with `secret` and
      registers the token's bytes in the token table. Returns the token as
      text, the form the views put in their responses. */
  method AuthToken(user: User, tokens: TokenTable, now: int, secret: string, p: Primitives) returns (text: string)
    modifies tokens
    ensures text == p.sign(AuthClaims(user, now), secret)
    ensures tokens.tokens == old(tokens.tokens)[Utf8Encode(text) := user]
  {
    text := p.sign(AuthClaims(user, now), secret);
    var _ := tokens.Add(Utf8Encode(text), user);
  }

  function RegisterExists(): (body: map<string, Json>) {
    map["status" := Str("fail"), "message" := Str("User already exists")]
  }

  function RegisterSuccess(token: string): (body: map<string, Json>)
    ensures "auth_token" in body && body["auth_token"] == Str(token)
  {
    map["status" := Str("success"), "message" := Str("sucessfully registered"), "auth_token" := Str(token)]
  }

  function LoginSuccess(token: string): (body: map<string, Json>)
    ensures "auth_token" in body && body["auth_token"] == Str(token)
  {
    map["status" := Str("success"), "message" := Str("login successful"), "auth_token" := Str(token)]
  }

  function LoginUnknown(): (body: map<string, Json>) {
    map["status" := Str("failed"), "message" := Str("User does not exist")]
  }

  /** `RegisterApi.post`. An e-mail whose id is taken gives 202 "fail" and
      changes nothing; otherwise the new user is stored, a token issued and
      201 "success" returned with it. Errors of `User.create` escape. */
  method Register(users: UserTable, tokens: TokenTable, body: Body, now: int, salt: string,
                  secret: string, p: Primitives) returns (out: Outcome)
    modifies users, tokens
    ensures var c := Create(Get(body, "email"), Get(body, "password"), salt, p);
      && (c.Err? ==> out == Raised(c.error) && users.users == old(users.users) && tokens.tokens == old(tokens.tokens))
      && (c.Ok? && c.value.id in old(users.users) ==>
            out == Reply(202, RegisterExists())
            && users.users == old(users.users) && tokens.tokens == old(tokens.tokens))
      && (c.Ok? && c.value.id !in old(users.users) ==>
            var text := p.sign(AuthClaims(c.value, now), secret);
            && out == Reply(201, RegisterSuccess(text))
            && users.users == old(users.users)[c.value.id := c.value]
            && tokens.tokens == old(tokens.tokens)[Utf8Encode(text) := c.value])
  {
    var email, password := Get(body, "email"), Get(body, "password");
    var found := users.Get(email, password, salt, p);
    if found.Err? {
      out := Raised(found.error);
    } else if found.value.Some? {
      out := Reply(202, RegisterExists());
    } else {
      var user := Create(email, password, salt, p).value;
      var _ := users.Add(user);
      var text := AuthToken(user, tokens, now, secret, p);
      out := Reply(201, RegisterSuccess(text));
    }
  }

  /** `LoginApi.post` as written: the password is read from the "email"
      field, and `User.get` only asks whether the e-mail's id is taken, so
      201 with a fresh token exactly when it is, 401 "failed" otherwise. */
  method Login(users: UserTable, tokens: TokenTable, body: Body, now: int, salt: string,
               secret: string, p: Primitives) returns (out: Outcome)
    modifies tokens
    ensures var c := Create(Get(body, "email"), Get(body, "email"), salt, p);
      && (c.Err? ==> out == Raised(c.error) && tokens.tokens == old(tokens.tokens))
      && (c.Ok? && c.value.id !in users.users ==>
            out == Reply(401, LoginUnknown()) && tokens.tokens == old(tokens.tokens))
      && (c.Ok? && c.value.id in users.users ==>
            var text := p.sign(AuthClaims(c.value, now), secret);
            && out == Reply(201, LoginSuccess(text))
            && tokens.tokens == old(tokens.tokens)[Utf8Encode(text) := c.value])
  {
    var email, password := Get(body, "email"), Get(body, "email");
    var found := users.Get(email, password, salt, p);
    if found.Err? {
      out := Raised(found.error);
    } else if found.value.Some? {
      var text := AuthToken(found.value.value, tokens, now, secret, p);
      out := Reply(201, LoginSuccess(text));
    } else {
      out := Reply(401, LoginUnknown());
    }
  }

  /** The consequence of `Login` as written: once an address is registered,
      any password at all logs in. */
  method LoginIgnoresPassword(users: UserTable, tokens: TokenTable, email: string, password: string,
                              wrong: string, now: int, salt: string, secret: string, p: Primitives)
      returns (out: Outcome)
    requires email != [] && DeriveId(email).Ok? && DeriveId(email).value in users.users
    requires wrong != password && users.users[DeriveId(email).value].password == p.hash(salt, password)
    modifies tokens
    ensures out.Reply? && out.status == 201
  {
    out := Login(users, tokens, map["email" := email, "password" := wrong], now, salt, secret, p);
  }

  /** `LoginApi.post` as evidently intended: the password is read from the
      "password" field and checked against the stored hash. */
  method LoginIntended(users: UserTable, tokens: TokenTable, body: Body, now: int, salt: string,
                       secret: string, p: Primitives) returns (out: Outcome)
    modifies tokens
    ensures var c := Create(Get(body, "email"), Get(body, "password"), salt, p);
      && (c.Err? ==> out == Raised(c.error) && tokens.tokens == old(tokens.tokens))
      && (c.Ok? ==>
            var known := c.value.id in users.users && p.check(users.users[c.value.id].password, body["password"]);
            && (!known ==> out == Reply(401, LoginUnknown()) && tokens.tokens == old(tokens.tokens))
            && (known ==>
                  var text := p.sign(AuthClaims(users.users[c.value.id], now), secret);
                  && out == Reply(201, LoginSuccess(text))
                  && tokens.tokens == old(tokens.tokens)[Utf8Encode(text) := users.users[c.value.id]]))
  {
    var email, password := Get(body, "email"), Get(body, "password");
    var found := users.Get(email, password, salt, p);
    if found.Err? {
      out := Raised(found.error);
    } else if found.value.Some? && p.check(users.users[found.value.value.id].password, password.value) {
      var text := AuthToken(users.users[found.value.value.id], tokens, now, secret, p);
      out := Reply(201, LoginSuccess(text));
    } else {
      out := Reply(401, LoginUnknown());
    }
  }

  /** With sound hashing, the intended login lets a registered user in with
      their own password and with no other. */
  method LoginIntendedChecksPassword(users: UserTable, tokens: TokenTable, email: string, password: string,
                                     given: string, now: int, salt: string, regSalt: string,
                                     secret: string, p: Primitives) returns (out: Outcome)
    requires Sound(p) && email != [] && DeriveId(email).Ok?
    requires DeriveId(email).value in users.users
    requires users.users[DeriveId(email).value].password == p.hash(regSalt, password)
    modifies tokens
    ensures out.Reply?
    ensures out.status == 201 <==> given == password
  {
    out := LoginIntended(users, tokens, map["email" := email, "password" := given], now, salt, secret, p);
  }

  /** The gate `verify_token(token)`: encodes the bearer token to UTF-8,
      looks it up in the token table and binds the result to `g.user`; the
      request is let through exactly when a user was found. */
  method VerifyToken(tokens: TokenTable, token: string) returns (accepted: bool, gUser: Option<User>)
    ensures gUser == Holder(tokens.tokens, token)
    ensures accepted <==> Utf8Encode(token) in tokens.tokens
    ensures accepted <==> gUser.Some?
  {
    gUser := tokens.UserFromToken(Utf8Encode(token));
    accepted := gUser.Some?;
  }
}
