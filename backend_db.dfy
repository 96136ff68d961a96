/** The SQLAlchemy backend (idiet/tracking/backend/db.py): login records
    with salted password hashes, their profiles, session tokens and the
    food table. The database is modelled as a map from user name to the
    stored row; the objects a session loads are classes whose fields the
    code assigns. */
module BackendDb {
  import opened Common
  import opened Crypto

  // ---------------------------------------------------------------------
  // Profiles
  // ---------------------------------------------------------------------

  /** A `user_profiles` row. */
  datatype ProfileRow = ProfileRow(name: Json, gender: Json, memberSince: int)

  /** The partial-update rule of `UserProfile.update(d)`: `name` and
      `gender` take the body's value when the key is present and keep their
      value otherwise. */
  function UpdatedProfile(row: ProfileRow, d: map<string, Json>): (r: ProfileRow)
    ensures r.memberSince == row.memberSince
    ensures r.name == (if "name" in d then d["name"] else row.name)
    ensures r.gender == (if "gender" in d then d["gender"] else row.gender)
  {
    row.(name := GetOr(d, "name", row.name), gender := GetOr(d, "gender", row.gender))
  }

  /** The effect of the UPDATE statement in `user_profile_update`, which
      reads both keys unconditionally. */
  function StoredUpdate(row: ProfileRow, d: map<string, Json>): (r: ProfileRow)
    requires "name" in d && "gender" in d
  {
    row.(name := d["name"], gender := d["gender"])
  }

  /** Applying the same body twice is the same as once, and with both keys
      present the partial update agrees with the UPDATE statement. */
  lemma UpdatedProfileProperties(row: ProfileRow, d: map<string, Json>)
    ensures UpdatedProfile(UpdatedProfile(row, d), d) == UpdatedProfile(row, d)
    ensures ("name" in d && "gender" in d) ==> UpdatedProfile(row, d) == StoredUpdate(row, d)
  {
  }

  /** A loaded `UserProfile` object. */
  class UserProfile {
    var name: Json
    var gender: Json
    var memberSince: int

    function Row(): (r: ProfileRow)
      reads this
    {
      ProfileRow(name, gender, memberSince)
    }

    constructor (row: ProfileRow)
      ensures Row() == row
    {
      name, gender, memberSince := row.name, row.gender, row.memberSince;
    }

    /** `profile.update(d)`. */
    method Update(d: map<string, Json>)
      modifies this
      ensures Row() == UpdatedProfile(old(Row()), d)
    {
      name := GetOr(d, "name", name);
      gender := GetOr(d, "gender", gender);
    }

    /** `profile.to_dict()`: the three profile fields under their names. */
    function ToDict(): (d: map<string, Json>)
      reads this
      ensures d.Keys == {"name", "gender", "member_since"}
      ensures d["name"] == name && d["gender"] == gender && d["member_since"] == Time(memberSince)
    {
      map["name" := name, "gender" := gender, "member_since" := Time(memberSince)]
    }
  }

  // ---------------------------------------------------------------------
  // Logins and tokens
  // ---------------------------------------------------------------------

  /** A `users` row joined with its profile row; `token` holds the salted
      password hash (the column is named `token` in the source). */
  datatype UserRow = UserRow(token: string, profile: ProfileRow)

  /** The `Token` object `generate_token` builds; it is never stored. */
  datatype Token = Token(token: string, expiresOn: int)

  /** The payload `generate_token` signs for user `name` at time `now`. */
  function SessionClaims(name: string, now: int): (c: Claims)
    ensures c.Keys == {"user", "iat", "exp"}
    ensures c["user"] == Str(name) && c["iat"] == Int(now) && c["exp"] == Int(now + OneHour)
  {
    map["user" := Str(name), "iat" := Int(now), "exp" := Int(now + OneHour)]
  }

  /** A loaded `UserLogin` object. */
  class UserLogin {
    const name: string
    const token: string
    const profile: UserProfile

    constructor (name: string, token: string, profile: UserProfile)
      ensures this.name == name && this.token == token && this.profile == profile
    {
      this.name, this.token, this.profile := name, token, profile;
    }

    /** `UserLogin.__eq__`: two logins are equal when their names are,
        whatever their hashes and profiles. */
    predicate Equals(other: UserLogin)
    {
      name == other.name
    }

    /** `user.validate(password)`: `check_password_hash(self.token, password)`. */
    predicate Validate(password: string, p: Primitives)
    {
      p.check(token, password)
    }

    /** `user.generate_token(secret)` at time `now`: the token signs the
        user's name with `iat = now` and `exp = now + 1 hour`, and its
        `expires_on` is that `exp`. */
    function GenerateToken(secret: string, now: int, p: Primitives): (t: Token)
      ensures t.token == p.sign(SessionClaims(name, now), secret)
      ensures Int(t.expiresOn) == SessionClaims(name, now)["exp"]
      ensures t.expiresOn - now == OneHour
    {
      Token(p.sign(SessionClaims(name, now), secret), now + OneHour)
    }
  }

  /** A login created with password `password` validates exactly that
      password, given sound hashing. */
  lemma ValidateExactlyOwnPassword(u: UserLogin, salt: string, password: string, given: string, p: Primitives)
    requires Sound(p) && u.token == p.hash(salt, password)
    ensures u.Validate(given, p) <==> given == password
    ensures u.token != password
  {
  }

  /** A generated token decodes, under the same secret, to the user's name
      until it expires, and fails as expired after that. */
  lemma GeneratedTokenLifetime(u: UserLogin, secret: string, now: int, at: int, p: Primitives)
    requires Sound(p)
    ensures at < now + OneHour ==>
      p.decode(u.GenerateToken(secret, now, p).token, secret, at) == Ok(SessionClaims(u.name, now))
    ensures at > now + OneHour ==>
      p.decode(u.GenerateToken(secret, now, p).token, secret, at) == Err(ExpiredSignature)
  {
    var c := SessionClaims(u.name, now);
    assert PlainClaims(c) && "aud" !in c && "exp" in c && c["exp"].Int? && c["exp"].i == now + OneHour;
  }

  // ---------------------------------------------------------------------
  // Food facts
  // ---------------------------------------------------------------------

  /** An `idietfoodtable` row. The nutrient columns are floating point and
      are only copied. */
  datatype FoodFact = FoodFact(
    foodid: Option<int>, foodname: Json, foodgroup: Json,
    fatg: Json, proteing: Json, carbohydrateg: Json, calories: Json)

  const FoodKeys: set<string> :=
    {"name", "group", "fat_in_grams", "protein_in_grams", "carbohydrates_in_grams", "calories"}

  /** `food.to_dict()`. */
  function FoodToDict(f: FoodFact): (d: map<string, Json>)
    ensures d.Keys == FoodKeys
    ensures d["name"] == f.foodname
  {
    map["name" := f.foodname, "group" := f.foodgroup, "fat_in_grams" := f.fatg,
        "protein_in_grams" := f.proteing, "carbohydrates_in_grams" := f.carbohydrateg,
        "calories" := f.calories]
  }

  /** `FoodFact.from_dict(d)`: a new row (all columns `None`) whose columns
      take the dict's values where it has them. */
  function FoodFromDict(d: map<string, Json>): (f: FoodFact)
    ensures f.foodid.None?
  {
    FoodFact(None, GetOr(d, "name", Null), GetOr(d, "group", Null), GetOr(d, "fat_in_grams", Null),
             GetOr(d, "protein_in_grams", Null), GetOr(d, "carbohydrates_in_grams", Null),
             GetOr(d, "calories", Null))
  }

  /** Round trip through a row: each of the six keys comes back with the
      dict's value, or `None` where the dict lacked it; other keys drop. */
  lemma DictRoundTrip(d: map<string, Json>)
    ensures FoodToDict(FoodFromDict(d)) == map k | k in FoodKeys :: GetOr(d, k, Null)
  {
    var r := FoodToDict(FoodFromDict(d));
    var e := map k | k in FoodKeys :: GetOr(d, k, Null);
    assert r.Keys == e.Keys;
    forall k | k in r.Keys ensures r[k] == e[k] {
    }
  }

  /** Round trip through a dict: a row comes back with every column but its
      primary key, which `from_dict` leaves unset. */
  lemma RowRoundTrip(f: FoodFact)
    ensures FoodFromDict(FoodToDict(f)) == f.(foodid := None)
  {
  }

  /** The rows whose `foodname` is `name`, in table order:
      `filter_by(foodname=name)`. */
  function Matching(foods: seq<FoodFact>, name: string): (r: seq<FoodFact>)
    ensures |r| <= |foods|
    ensures forall f :: f in r <==> f in foods && f.foodname == Str(name)
    ensures forall f :: multiset(r)[f] == if f.foodname == Str(name) then multiset(foods)[f] else 0
  {
    if foods == [] then []
    else
      assert foods == [foods[0]] + foods[1..];
      var rest := Matching(foods[1..], name);
      if foods[0].foodname == Str(name) then [foods[0]] + rest else rest
  }

  // ---------------------------------------------------------------------
  // The backend
  // ---------------------------------------------------------------------

  /** `SqlAlchemyBackend`, with the `users`/`user_profiles` tables as a map
      from user name to row and `idietfoodtable` as a sequence of rows. */
  class SqlAlchemyBackend {
    var users: map<string, UserRow>
    var foods: seq<FoodFact>

    constructor (foods: seq<FoodFact>)
      ensures users == map[] && this.foods == foods
    {
      users := map[];
      this.foods := foods;
    }

    /** `add_user(username, password)` at time `now`, with `salt` the salt
        the hash draws: stores the hash, never the password, with a new
        profile whose `member_since` is `now`. A name already present
        violates the unique constraint when the session commits. */
    method AddUser(username: string, password: string, now: int, salt: string, p: Primitives)
        returns (r: Result<UserLogin>)
      modifies this
      ensures foods == old(foods)
      ensures username in old(users) ==> r == Err(IntegrityError) && users == old(users)
      ensures username !in old(users) ==>
        && users == old(users)[username := UserRow(p.hash(salt, password), ProfileRow(Null, Null, now))]
        && r.Ok? && fresh(r.value) && fresh(r.value.profile)
        && r.value.name == username && r.value.token == p.hash(salt, password)
        && r.value.profile.Row() == ProfileRow(Null, Null, now)
    {
      if username in users {
        r := Err(IntegrityError);
        return;
      }
      var hashed := p.hash(salt, password);
      var profile := new UserProfile(ProfileRow(Null, Null, now));
      var user := new UserLogin(username, hashed, profile);
      users := users[username := UserRow(hashed, profile.Row())];
      r := Ok(user);
    }

    /** `get_user(username)`: a newly loaded object for the stored row, or
        `None`. */
    method GetUser(username: string) returns (u: UserLogin?)
      ensures (u != null) <==> username in users
      ensures u != null ==>
        && fresh(u) && fresh(u.profile)
        && u.name == username && u.token == users[username].token
        && u.profile.Row() == users[username].profile
    {
      if username !in users {
        return null;
      }
      var row := users[username];
      var profile := new UserProfile(row.profile);
      u := new UserLogin(username, row.token, profile);
    }

    /** `user_exists(username)`: whether `get_user` finds a row. */
    method UserExists(username: string) returns (b: bool)
      ensures b <==> username in users
    {
      var u := GetUser(username);
      b := u != null;
    }

    /** `user_profile_update(user, post_data)`: `profile.update` changes the
        loaded profile first; building the UPDATE then reads both "name"
        and "gender" and raises `KeyError` if either is missing, leaving
        the stored row as it was. */
    method UserProfileUpdate(user: UserLogin, postData: map<string, Json>) returns (r: Result<()>)
      modifies this, user.profile
      ensures foods == old(foods)
      ensures user.profile.Row() == UpdatedProfile(old(user.profile.Row()), postData)
      ensures r.Ok? <==> "name" in postData && "gender" in postData
      ensures r.Err? ==> r.error == KeyError && users == old(users)
      ensures r.Ok? && user.name in old(users) ==>
        users == old(users)[user.name := old(users)[user.name].(profile := StoredUpdate(old(users)[user.name].profile, postData))]
      ensures r.Ok? && user.name !in old(users) ==> users == old(users)
    {
      user.profile.Update(postData);
      if "name" !in postData || "gender" !in postData {
        r := Err(KeyError);
        return;
      }
      if user.name in users {
        var row := users[user.name];
        users := users[user.name := row.(profile := StoredUpdate(row.profile, postData))];
      }
      r := Ok(());
    }

    /** `user_from_token(token, secret)` at time `now`: decodes the token
        and loads the user its "user" claim names. Decoding errors and a
        missing claim raise. */
    method UserFromToken(token: string, secret: string, now: int, p: Primitives) returns (r: Result<UserLogin?>)
      ensures p.decode(token, secret, now).Err? ==> r == Err(p.decode(token, secret, now).error)
      ensures p.decode(token, secret, now).Ok? && "user" !in p.decode(token, secret, now).value ==> r == Err(KeyError)
      ensures p.decode(token, secret, now).Ok? && "user" in p.decode(token, secret, now).value ==>
        var claim := p.decode(token, secret, now).value["user"];
        && r.Ok?
        && (r.value != null <==> claim.Str? && claim.s in users)
        && (r.value != null ==> r.value.name == claim.s && r.value.token == users[claim.s].token)
    {
      var decoded := p.decode(token, secret, now);
      if decoded.Err? {
        r := Err(decoded.error);
        return;
      }
      if "user" !in decoded.value {
        r := Err(KeyError);
        return;
      }
      match decoded.value["user"]
      case Str(name) =>
        var u := GetUser(name);
        r := Ok(u);
      case _ =>
        r := Ok(null);
    }

    /** `food_item_find_closest_match(name, max_results)`: the single row
        named `name`, as a dict in a one-element list. No such row makes
        `None.to_dict()` raise `AttributeError`; several make
        `one_or_none()` raise. `max_results` is not used. */
    function FoodItemFindClosestMatch(name: string, maxResults: Json): (r: Result<seq<map<string, Json>>>)
      reads this
      ensures r.Ok? <==> |Matching(foods, name)| == 1
      ensures r == Err(AttributeError) <==> forall f :: f in foods ==> f.foodname != Str(name)
      ensures |Matching(foods, name)| > 1 ==> r == Err(MultipleResultsFound)
      ensures r.Ok? ==>
        && |r.value| == 1
        && exists f :: f in foods && f.foodname == Str(name) && r.value[0] == FoodToDict(f)
    {
      var found := Matching(foods, name);
      if |found| == 0 then Err(AttributeError)
      else if |found| > 1 then Err(MultipleResultsFound)
      else
        assert found[0] in found;
        Ok([FoodToDict(found[0])])
    }
  }

  /** `add_user` followed by `get_user` of the same name yields a login
      equal to the one added, as the backend test expects. */
  method AddThenGet(backend: SqlAlchemyBackend, username: string, password: string, now: int,
                    salt: string, p: Primitives) returns (added: UserLogin, got: UserLogin?)
    requires Sound(p) && username !in backend.users
    modifies backend
    ensures got != null && got.Equals(added)
    ensures added.token != password
    ensures added.Validate(password, p)
    ensures got.profile.Row() == ProfileRow(Null, Null, now)
  {
    var r := backend.AddUser(username, password, now, salt, p);
    added := r.value;
    got := backend.GetUser(username);
  }

  /** A token generated for a stored user leads `user_from_token` back to
      that user until it expires; after expiry it raises. */
  method SessionRoundTrip(backend: SqlAlchemyBackend, u: UserLogin, secret: string, now: int, at: int,
                          p: Primitives) returns (r: Result<UserLogin?>)
    requires Sound(p) && u.name in backend.users
    ensures at < now + OneHour ==> r.Ok? && r.value != null && r.value.Equals(u)
    ensures at > now + OneHour ==> r == Err(ExpiredSignature)
  {
    var t := u.GenerateToken(secret, now, p);
    GeneratedTokenLifetime(u, secret, now, at, p);
    r := backend.UserFromToken(t.token, secret, at, p);
  }
}
