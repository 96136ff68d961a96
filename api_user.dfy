/** The in-memory profile endpoint (idiet/tracking/api/user.py): the
    class-level table `UserProfile._profiles`, keyed by user id, and the GET
    and POST views behind the bearer-token gate of the in-memory stack. */
module ApiUser {
  import opened Common
  import opened Encoding
  import opened Crypto
  import opened AuthViews

  /** The attrs class `UserProfile(first_name, last_name, date_of_birth)`. */
  datatype UserProfile = UserProfile(firstName: Json, lastName: Json, dateOfBirth: Json)

  /** `UserProfile()` with the attrs defaults: two empty strings and `None`. */
  function NewProfile(): (r: UserProfile)
    ensures r.firstName == Str("") && r.lastName == Str("") && r.dateOfBirth == Null
  {
    UserProfile(Str(""), Str(""), Null)
  }

  /** `profile.as_dict()`: the attribute names to their values. */
  function AsDict(profile: UserProfile): (d: map<string, Json>)
    ensures d.Keys == {"first_name", "last_name", "date_of_birth"}
    ensures d["first_name"] == profile.firstName
    ensures d["last_name"] == profile.lastName
    ensures d["date_of_birth"] == profile.dateOfBirth
  {
    map["first_name" := profile.firstName, "last_name" := profile.lastName,
        "date_of_birth" := profile.dateOfBirth]
  }

  /** The profile a POST body describes: `first-name`, `last-name` and `dob`,
      `None` for each one missing. */
  function ProfileFromBody(body: map<string, Json>): (r: UserProfile)
    ensures r.firstName == (if "first-name" in body then body["first-name"] else Null)
    ensures r.lastName == (if "last-name" in body then body["last-name"] else Null)
    ensures r.dateOfBirth == (if "dob" in body then body["dob"] else Null)
  {
    UserProfile(GetOr(body, "first-name", Null), GetOr(body, "last-name", Null), GetOr(body, "dob", Null))
  }

  /** `UserProfile._profiles`. */
  class ProfileTable {
    var profiles: map<int, UserProfile>

    constructor ()
      ensures profiles == map[]
    {
      profiles := map[];
    }

    /** `UserProfile.get(user)`: the profile stored under the user's id, or
        `None`. */
    function Get(user: User): (r: Option<UserProfile>)
      reads this
      ensures r.Some? <==> user.id in profiles
      ensures r.Some? ==> r.value == profiles[user.id]
    {
      if user.id in profiles then Some(profiles[user.id]) else None
    }

    /** `UserProfile.add(profile, user)`: stores `profile` under the user's
        id, replacing any previous one. */
    method Add(profile: UserProfile, user: User) returns (r: UserProfile)
      modifies this
      ensures profiles == old(profiles)[user.id := profile]
      ensures r == profile
    {
      profiles := profiles[user.id := profile];
      r := profile;
    }
  }

  /** `UserProfileApi.get` for the user the gate bound: 200 with the stored
      profile's fields, or with `{}` when the user has none. */
  method ProfileGet(table: ProfileTable, user: User) returns (out: Outcome)
    ensures user.id !in table.profiles ==> out == Reply(200, map[])
    ensures user.id in table.profiles ==> out == Reply(200, AsDict(table.profiles[user.id]))
  {
    var profile := table.Get(user);
    if profile.Some? {
      out := Reply(200, AsDict(profile.value));
    } else {
      out := Reply(200, map[]);
    }
  }

  function PostSuccess(): (body: map<string, Json>) {
    map["status" := Str("success"), "message" := Str("information updated")]
  }

  /** `UserProfileApi.post` for the user the gate bound: replaces the whole
      profile with the one the body describes and answers 200 "success". */
  method ProfilePost(table: ProfileTable, user: User, body: map<string, Json>) returns (out: Outcome)
    modifies table
    ensures table.profiles == old(table.profiles)[user.id := ProfileFromBody(body)]
    ensures out == Reply(200, PostSuccess())
  {
    var _ := table.Get(user);
    var first, last, dob := GetOr(body, "first-name", Null), GetOr(body, "last-name", Null), GetOr(body, "dob", Null);
    var profile := UserProfile(first, last, dob);
    var _ := table.Add(profile, user);
    out := Reply(200, PostSuccess());
  }

  /** `@auth.login_required` in front of the GET view: a token the gate
      rejects gets 401 and the view does not run. */
  method GuardedProfileGet(tokens: TokenTable, table: ProfileTable, token: string) returns (out: Outcome)
    ensures Holder(tokens.tokens, token).None? ==> out == Reply(401, map[])
    ensures Holder(tokens.tokens, token).Some? ==>
      var user := Holder(tokens.tokens, token).value;
      out == Reply(200, if user.id in table.profiles then AsDict(table.profiles[user.id]) else map[])
  {
    var accepted, user := VerifyToken(tokens, token);
    if !accepted {
      out := Reply(401, map[]);
    } else {
      out := ProfileGet(table, user.value);
    }
  }

  /** `@auth.login_required` in front of the POST view. */
  method GuardedProfilePost(tokens: TokenTable, table: ProfileTable, token: string, body: map<string, Json>)
      returns (out: Outcome)
    modifies table
    ensures Holder(tokens.tokens, token).None? ==>
      out == Reply(401, map[]) && table.profiles == old(table.profiles)
    ensures Holder(tokens.tokens, token).Some? ==>
      && out == Reply(200, PostSuccess())
      && table.profiles == old(table.profiles)[Holder(tokens.tokens, token).value.id := ProfileFromBody(body)]
  {
    var accepted, user := VerifyToken(tokens, token);
    if !accepted {
      out := Reply(401, map[]);
    } else {
      out := ProfilePost(table, user.value, body);
    }
  }

  /** The whole in-memory flow on fresh tables: registering an address
      returns 201 with a token; the gate binds that token, and only that
      text, to the new user; with it the profile endpoint is empty at first
      and then reads back what was POSTed; any other token text is
      refused. */
  method RegisterThenUseProfile(email: string, password: string, other: string, body: map<string, Json>,
                                now: int, salt: string, secret: string, p: Primitives)
      returns (token: string, tokens: TokenTable, table: ProfileTable,
               registered: Outcome, first: Outcome, posted: Outcome, second: Outcome, refused: Outcome)
    requires email != []
    requires other != p.sign(AuthClaims(Create(Some(email), Some(password), salt, p).value, now), secret)
    ensures var user := Create(Some(email), Some(password), salt, p).value;
      && token == p.sign(AuthClaims(user, now), secret)
      && Holder(tokens.tokens, token) == Some(user)
      && Holder(tokens.tokens, other) == None
      && table.profiles == map[user.id := ProfileFromBody(body)]
    ensures registered == Reply(201, RegisterSuccess(token))
    ensures first == Reply(200, map[])
    ensures posted == Reply(200, PostSuccess())
    ensures second == Reply(200, AsDict(ProfileFromBody(body)))
    ensures refused == Reply(401, map[])
  {
    var users := new UserTable();
    tokens := new TokenTable();
    table := new ProfileTable();
    registered := Register(users, tokens, map["email" := email, "password" := password], now, salt, secret, p);
    var user := Create(Some(email), Some(password), salt, p).value;
    token := p.sign(AuthClaims(user, now), secret);
    HolderAfterAdd(map[], token, user, other);
    first := GuardedProfileGet(tokens, table, token);
    posted := GuardedProfilePost(tokens, table, token, body);
    second := GuardedProfileGet(tokens, table, token);
    refused := GuardedProfileGet(tokens, table, other);
  }
}
