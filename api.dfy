/** The backend stack's views (idiet/tracking/api.py): register, login,
    the profile endpoint and food search, over a `SqlAlchemyBackend`. */
module Api {
  import opened Common
  import opened Crypto
  import opened BackendDb

  /** The JSON body of the register and login requests. */
  type Body = map<string, string>

  function RegisterCreated(memberSince: int): (body: map<string, Json>) {
    map["status" := Str("success"), "message" := Str("create new user"), "timestamp" := Time(memberSince)]
  }

  function RegisterExists(): (body: map<string, Json>) {
    map["status" := Str("failed"), "message" := Str("user already exists")]
  }

  function LoginCreated(t: Token): (body: map<string, Json>) {
    map["status" := Str("success"), "message" := Str("created user auth token"),
        "expires_on" := Time(t.expiresOn), "token" := Str(t.token)]
  }

  function LoginBadPassword(): (body: map<string, Json>) {
    map["status" := Str("failed"), "message" := Str("Could not authenticate user")]
  }

  function LoginUnknown(): (body: map<string, Json>) {
    map["status" := Str("failed"), "message" := Str("user does not exist")]
  }

  /** `RegisterView.post` at time `now`, with `salt` the salt the hash
      draws. A name the backend already has gives 302 "failed" and the
      store is untouched (`add_user` is not called); a new name is added
      and gets 201 "success" with the profile's `member_since`. A missing
      field raises `KeyError`. */
  method RegisterPost(backend: SqlAlchemyBackend, body: Body, now: int, salt: string, p: Primitives)
      returns (out: Outcome)
    modifies backend
    ensures backend.foods == old(backend.foods)
    ensures "username" !in body || "password" !in body ==>
      out == Raised(KeyError) && backend.users == old(backend.users)
    ensures "username" in body && "password" in body && body["username"] in old(backend.users) ==>
      out == Reply(302, RegisterExists()) && backend.users == old(backend.users)
    ensures "username" in body && "password" in body && body["username"] !in old(backend.users) ==>
      && out == Reply(201, RegisterCreated(now))
      && backend.users == old(backend.users)[body["username"] :=
           UserRow(p.hash(salt, body["password"]), ProfileRow(Null, Null, now))]
  {
    if "username" !in body || "password" !in body {
      out := Raised(KeyError);
      return;
    }
    var uname, password := body["username"], body["password"];
    var user := backend.GetUser(uname);
    if user == null {
      var added := backend.AddUser(uname, password, now, salt, p);
      out := Reply(201, RegisterCreated(added.value.profile.memberSince));
    } else {
      out := Reply(302, RegisterExists());
    }
  }

  /** `LoginView.post` at time `now`: 403 "failed" for an unknown name, 401
      "failed" without a token when the password does not validate, and 202
      with the token and its expiry otherwise. */
  method LoginPost(backend: SqlAlchemyBackend, body: Body, secret: string, now: int, p: Primitives)
      returns (out: Outcome)
    ensures "username" !in body || "password" !in body ==> out == Raised(KeyError)
    ensures "username" in body && "password" in body ==>
      var uname, password := body["username"], body["password"];
      && (uname !in backend.users ==> out == Reply(403, LoginUnknown()))
      && (uname in backend.users && !p.check(backend.users[uname].token, password) ==>
            out == Reply(401, LoginBadPassword()))
      && (uname in backend.users && p.check(backend.users[uname].token, password) ==>
            out == Reply(202, LoginCreated(Token(p.sign(SessionClaims(uname, now), secret), now + OneHour))))
    ensures out.Reply? && "token" in out.body ==> out.status == 202
  {
    if "username" !in body || "password" !in body {
      out := Raised(KeyError);
      return;
    }
    var uname, password := body["username"], body["password"];
    var known := backend.UserExists(uname);
    if known {
      var user := backend.GetUser(uname);
      if user.Validate(password, p) {
        var token := user.GenerateToken(secret, now, p);
        out := Reply(202, LoginCreated(token));
      } else {
        out := Reply(401, LoginBadPassword());
      }
    } else {
      out := Reply(403, LoginUnknown());
    }
  }

  /** `UserProfileView.get` for the user the request carries, at time
      `now`: 202 with the profile's dict under "data". */
  function ProfileGet(user: UserLogin, now: int): (out: Outcome)
    reads user.profile
    ensures out.Reply? && out.status == 202
    ensures "data" in out.body && out.body["data"] == Object(user.profile.ToDict())
    ensures out.body["data"].fields["member_since"] == Time(user.profile.memberSince)
  {
    Reply(202, map["message" := Str("success"), "ts" := Time(now), "data" := Object(user.profile.ToDict())])
  }

  /** `UserProfileView.post`: a `KeyError` from `user_profile_update` gives
      304 "failed", anything else 202 "success". The message of the 202
      reply, which lists the body's keys, is not modelled. */
  method ProfilePost(backend: SqlAlchemyBackend, user: UserLogin, body: map<string, Json>)
      returns (out: Outcome)
    modifies backend, user.profile
    ensures backend.foods == old(backend.foods)
    ensures user.profile.Row() == UpdatedProfile(old(user.profile.Row()), body)
    ensures !("name" in body && "gender" in body) ==>
      out == Reply(304, map["status" := Str("failed"), "message" := Str("Invalid data")])
      && backend.users == old(backend.users)
    ensures "name" in body && "gender" in body ==>
      && out == Reply(202, map["status" := Str("success")])
      && (user.name in old(backend.users) ==>
            backend.users == old(backend.users)[user.name :=
              old(backend.users)[user.name].(profile := StoredUpdate(old(backend.users)[user.name].profile, body))])
      && (user.name !in old(backend.users) ==> backend.users == old(backend.users))
  {
    var r := backend.UserProfileUpdate(user, body);
    if r.Err? && r.error == KeyError {
      out := Reply(304, map["status" := Str("failed"), "message" := Str("Invalid data")]);
    } else {
      out := Reply(202, map["status" := Str("success")]);
    }
  }

  /** `food_search`: 400 without a "name" parameter; otherwise the backend's
      matches (with `max_results` defaulting to 10) under "data" and their
      number under "num_results", or the backend's exception. The message
      "<n> results found" is not modelled. */
  function FoodSearch(backend: SqlAlchemyBackend, params: map<string, string>): (out: Outcome)
    reads backend
    ensures "name" !in params ==> out.Reply? && out.status == 400
    ensures "name" in params ==>
      var found := backend.FoodItemFindClosestMatch(params["name"], MaxResults(params));
      && (found.Err? ==> out == Raised(found.error))
      && (found.Ok? ==> out.Reply? && out.status == 202
                        && "num_results" in out.body && "data" in out.body
                        && out.body["num_results"] == Int(|found.value|) == Int(1)
                        && out.body["data"] == List(seq(|found.value|, i requires 0 <= i < |found.value| =>
                                                          Object(found.value[i]))))
  {
    if "name" !in params then
      Reply(400, map["status" := Str("failed"),
                     "message" := Str("Invalid request. Search requires parameter 'name'")])
    else
      match backend.FoodItemFindClosestMatch(params["name"], MaxResults(params))
      case Err(e) => Raised(e)
      case Ok(items) =>
        Reply(202, map["status" := Str("success"), "num_results" := Int(|items|),
                       "data" := List(seq(|items|, i requires 0 <= i < |items| => Object(items[i])))])
  }

  /** `request_params.get("max_results", 10)`. */
  function MaxResults(params: map<string, string>): (m: Json)
    ensures "max_results" !in params ==> m == Int(10)
    ensures "max_results" in params ==> m == Str(params["max_results"])
  {
    if "max_results" in params then Str(params["max_results"]) else Int(10)
  }

  /** The backend flow the tests walk through on an empty store: register,
      register again (302), log in (202 with a token), log in with another
      password (401), and log in under a name never registered (403). */
  method RegisterAndLogin(foods: seq<FoodFact>, name: string, password: string, wrong: string, stranger: string,
                          now: int, salt: string, secret: string, p: Primitives)
      returns (first: Outcome, again: Outcome, good: Outcome, bad: Outcome, unknown: Outcome)
    requires Sound(p) && wrong != password && stranger != name
    ensures first == Reply(201, RegisterCreated(now))
    ensures again == Reply(302, RegisterExists())
    ensures good.Reply? && good.status == 202 && "token" in good.body
    ensures bad == Reply(401, LoginBadPassword()) && "token" !in bad.body
    ensures unknown == Reply(403, LoginUnknown())
  {
    var backend := new SqlAlchemyBackend(foods);
    var creds := map["username" := name, "password" := password];
    first := RegisterPost(backend, creds, now, salt, p);
    again := RegisterPost(backend, creds, now, salt, p);
    good := LoginPost(backend, creds, secret, now, p);
    bad := LoginPost(backend, creds["password" := wrong], secret, now, p);
    unknown := LoginPost(backend, map["username" := stranger, "password" := password], secret, now, p);
  }
}
