/** The account routes of the backend (backend/app/routes/auth.py):
    registration, login, the partial profile update and the profile-picture
    upload, over the in-memory database and object store. bcrypt is the
    parameter `bcryptHash` (hashing) and `verify` (checking); tokens are the
    payloads AuthUtils.CreateAccessToken builds. */
module AuthRoutes {
  import opened Common
  import opened Models
  import opened AuthUtils
  import opened ObjectStorage
  import JsText

  /** The `UserCreate` request body. */
  datatype UserCreate = UserCreate(
    username: string, email: string, password: string,
    age: Option<int>, weight: Option<int>, height: Option<int>,
    goal: Option<string>, diet: Option<string>, activityLevel: Option<string>,
    healthConditions: Option<string>)

  /** The `Token` response: the token, "bearer", and the user's profile. */
  datatype TokenResponse = TokenResponse(
    accessToken: AccessToken, tokenType: string,
    age: Option<int>, weight: Option<int>, height: Option<int>,
    goal: Option<string>, diet: Option<string>, activityLevel: Option<string>,
    healthConditions: Option<string>)

  const EmailTaken := HttpError(400, "Email already registered")
  const UsernameTaken := HttpError(400, "Username already taken")
  const CredentialsRequired := HttpError(400, "Username and password required")
  const BadLogin := HttpError(401, "Incorrect username or password")
  const StorageNotConfigured := HttpError(500, "Storage service not configured")

  /** `timedelta(minutes=ACCESS_TOKEN_EXPIRE_MINUTES)` in seconds. */
  const TokenLifetime: int := 30 * 60

  /** The token and profile returned for a user. */
  function TokenFor(u: User, now: int): (t: TokenResponse)
    ensures "sub" in t.accessToken.payload && t.accessToken.payload["sub"] == Str(u.email)
    ensures "exp" in t.accessToken.payload && t.accessToken.payload["exp"] == Num(now + TokenLifetime)
    ensures t.tokenType == "bearer"
  {
    TokenResponse(CreateAccessToken(map["sub" := Str(u.email)], Some(TokenLifetime), now), "bearer",
      u.age, u.weight, u.height, u.goal, u.diet, u.activityLevel, u.healthConditions)
  }

  /** The row `register_user` adds. */
  function NewUser(id: int, req: UserCreate, bcryptHash: string -> string): User {
    User(id, req.email, req.username, GetPasswordHash(req.password, bcryptHash),
      req.age, req.weight, req.height, req.goal, req.diet, req.activityLevel,
      req.healthConditions, None)
  }

  /** `register_user`: a taken email is reported before a taken username;
      otherwise exactly one row is added, carrying the submitted profile and
      the hash of the truncated password, and the token names its email. */
  method RegisterUser(db: Database, req: UserCreate, bcryptHash: string -> string, now: int)
    returns (r: Result<TokenResponse>)
    requires db.Valid()
    modifies db
    ensures db.Valid()
    ensures FindByEmail(old(db.users), req.email).Some? ==> r == Err(EmailTaken)
    ensures FindByEmail(old(db.users), req.email).None? && FindByUsername(old(db.users), req.username).Some?
      ==> r == Err(UsernameTaken)
    ensures r.Err? ==> db.users == old(db.users) && db.nextUserId == old(db.nextUserId)
    ensures r.Ok? <==> FindByEmail(old(db.users), req.email).None? && FindByUsername(old(db.users), req.username).None?
    ensures r.Ok? ==> db.users == old(db.users) + [NewUser(old(db.nextUserId), req, bcryptHash)]
    ensures r.Ok? ==> db.nextUserId == old(db.nextUserId) + 1
    ensures r.Ok? ==> r.value == TokenFor(NewUser(old(db.nextUserId), req, bcryptHash), now)
    ensures db.activities == old(db.activities) && db.meals == old(db.meals)
    ensures db.nextActivityId == old(db.nextActivityId) && db.nextMealId == old(db.nextMealId)
  {
    if FindByEmail(db.users, req.email).Some? {
      return Err(EmailTaken);
    }
    if FindByUsername(db.users, req.username).Some? {
      return Err(UsernameTaken);
    }
    var hashed := GetPasswordHash(req.password, bcryptHash);
    var u := User(db.nextUserId, req.email, req.username, hashed,
      req.age, req.weight, req.height, req.goal, req.diet, req.activityLevel,
      req.healthConditions, None);
    db.users := db.users + [u];
    db.nextUserId := db.nextUserId + 1;
    r := Ok(TokenFor(u, now));
  }

  /** A registered user can be found by the email the token names, and its
      stored password is the hash of the truncated password. */
  lemma RegisteredUserAuthenticates(users: seq<User>, nextId: int, req: UserCreate,
                                    bcryptHash: string -> string, now: int)
    requires UsersUnique(users)
    requires forall i :: 0 <= i < |users| ==> users[i].id < nextId
    requires FindByEmail(users, req.email).None? && FindByUsername(users, req.username).None?
    ensures var after := users + [NewUser(nextId, req, bcryptHash)];
      && UsersUnique(after)
      && GetCurrentUser(Some(TokenFor(NewUser(nextId, req, bcryptHash), now).accessToken.payload), after)
         == Ok(|users|)
      && after[|users|].hashedPassword == bcryptHash(TruncatePassword(req.password))
  {
    var after := users + [NewUser(nextId, req, bcryptHash)];
    assert UsersUnique(after) by {
      forall i, j | 0 <= i < j < |after|
        ensures after[i].email != after[j].email && after[i].username != after[j].username
          && after[i].id != after[j].id
      {
        assert after[i] == users[i];
      }
    }
    CreatedTokenAuthenticates(after, |users|, Some(TokenLifetime), now);
  }

  /** `login_for_access_token`: `username` and `password` are the body's
      values (`None` when absent). Both must be non-empty before any lookup;
      the username is matched against emails, and an unknown email and a
      wrong password are refused alike. */
  function Login(users: seq<User>, username: Option<string>, password: Option<string>,
                 verify: (string, string) -> bool, now: int): (r: Result<TokenResponse>)
    ensures r == Err(CredentialsRequired) <==> !TruthyStr(username) || !TruthyStr(password)
    ensures r.Ok? <==> (TruthyStr(username) && TruthyStr(password)
      && FindByEmail(users, username.value).Some?
      && verify(password.value, users[FindByEmail(users, username.value).value].hashedPassword))
    ensures r.Ok? ==> r.value == TokenFor(users[FindByEmail(users, username.value).value], now)
    ensures r.Err? ==> r.error == CredentialsRequired || r.error == BadLogin
  {
    if !TruthyStr(username) || !TruthyStr(password) then Err(CredentialsRequired)
    else match FindByEmail(users, username.value)
      case None => Err(BadLogin)
      case Some(i) =>
        if !verify(password.value, users[i].hashedPassword) then Err(BadLogin)
        else Ok(TokenFor(users[i], now))
  }

  /** A request for an unknown email and one with a wrong password for a
      known email get the identical refusal. */
  lemma LoginRefusalsAlike(users: seq<User>, unknown: string, known: string, password: string,
                           verify: (string, string) -> bool, now: int)
    requires unknown != "" && known != "" && password != ""
    requires FindByEmail(users, unknown).None?
    requires FindByEmail(users, known).Some?
    requires !verify(password, users[FindByEmail(users, known).value].hashedPassword)
    ensures Login(users, Some(unknown), Some(password), verify, now)
         == Login(users, Some(known), Some(password), verify, now)
         == Err(BadLogin)
  {
  }

  /** A field of `UserProfileUpdate`: left out of the request, or given
      (possibly as null). */
  datatype Patch<T> = Unset | Set(value: T)

  function PatchOr<T>(p: Patch<T>, current: T): T {
    if p.Set? then p.value else current
  }

  datatype ProfileUpdate = ProfileUpdate(
    age: Patch<Option<int>>, weight: Patch<Option<int>>, height: Patch<Option<int>>,
    goal: Patch<Option<string>>, diet: Patch<Option<string>>, activityLevel: Patch<Option<string>>,
    healthConditions: Patch<Option<string>>, profilePicture: Patch<Option<string>>)

  /** One `setattr(current_user, field, value)`. */
  datatype Assignment =
    | SetAge(i: Option<int>) | SetWeight(i: Option<int>) | SetHeight(i: Option<int>)
    | SetGoal(s: Option<string>) | SetDiet(s: Option<string>) | SetActivityLevel(s: Option<string>)
    | SetHealthConditions(s: Option<string>) | SetProfilePicture(s: Option<string>)

  function Apply(u: User, a: Assignment): User {
    match a
    case SetAge(v) => u.(age := v)
    case SetWeight(v) => u.(weight := v)
    case SetHeight(v) => u.(height := v)
    case SetGoal(v) => u.(goal := v)
    case SetDiet(v) => u.(diet := v)
    case SetActivityLevel(v) => u.(activityLevel := v)
    case SetHealthConditions(v) => u.(healthConditions := v)
    case SetProfilePicture(v) => u.(profilePicture := v)
  }

  function Item<T>(p: Patch<T>, make: T -> Assignment): seq<Assignment> {
    if p.Set? then [make(p.value)] else []
  }

  const MakeAge: Option<int> -> Assignment := v => SetAge(v)
  const MakeWeight: Option<int> -> Assignment := v => SetWeight(v)
  const MakeHeight: Option<int> -> Assignment := v => SetHeight(v)
  const MakeGoal: Option<string> -> Assignment := v => SetGoal(v)
  const MakeDiet: Option<string> -> Assignment := v => SetDiet(v)
  const MakeActivityLevel: Option<string> -> Assignment := v => SetActivityLevel(v)
  const MakeHealthConditions: Option<string> -> Assignment := v => SetHealthConditions(v)
  const MakeProfilePicture: Option<string> -> Assignment := v => SetProfilePicture(v)

  /** `profile.dict(exclude_unset=True).items()`: the given fields, in
      declaration order. */
  function SetItems(p: ProfileUpdate): seq<Assignment> {
    Item(p.age, MakeAge) + Item(p.weight, MakeWeight) + Item(p.height, MakeHeight)
    + Item(p.goal, MakeGoal) + Item(p.diet, MakeDiet) + Item(p.activityLevel, MakeActivityLevel)
    + Item(p.healthConditions, MakeHealthConditions) + Item(p.profilePicture, MakeProfilePicture)
  }

  /** The assignments performed in order. */
  function ApplyAll(u: User, items: seq<Assignment>): User
    decreases |items|
  {
    if items == [] then u else Apply(ApplyAll(u, items[..|items| - 1]), items[|items| - 1])
  }

  /** The merged record: every given field takes its new value, every other
      field, and the id, email, username and hash, keep theirs. */
  function Merge(u: User, p: ProfileUpdate): User {
    User(u.id, u.email, u.username, u.hashedPassword,
      PatchOr(p.age, u.age), PatchOr(p.weight, u.weight), PatchOr(p.height, u.height),
      PatchOr(p.goal, u.goal), PatchOr(p.diet, u.diet), PatchOr(p.activityLevel, u.activityLevel),
      PatchOr(p.healthConditions, u.healthConditions), PatchOr(p.profilePicture, u.profilePicture))
  }

  /** Appending the assignment for one field applies it when it is given. */
  lemma ApplyItem<T>(u: User, acc: seq<Assignment>, p: Patch<T>, make: T -> Assignment)
    ensures ApplyAll(u, acc + Item(p, make))
      == if p.Set? then Apply(ApplyAll(u, acc), make(p.value)) else ApplyAll(u, acc)
  {
    if p.Set? {
      assert (acc + Item(p, make))[..|acc|] == acc;
    } else {
      assert acc + Item(p, make) == acc;
    }
  }

  /** The setattr loop over the given fields yields the merged record. */
  lemma SetItemsMerge(u: User, p: ProfileUpdate)
    ensures ApplyAll(u, SetItems(p)) == Merge(u, p)
  {
    var a1 := Item(p.age, MakeAge);
    assert ApplyAll(u, a1) == u.(age := PatchOr(p.age, u.age)) by { ApplyItem(u, [], p.age, MakeAge); assert [] + a1 == a1; }
    var a2 := a1 + Item(p.weight, MakeWeight);
    ApplyItem(u, a1, p.weight, MakeWeight);
    var a3 := a2 + Item(p.height, MakeHeight);
    ApplyItem(u, a2, p.height, MakeHeight);
    var a4 := a3 + Item(p.goal, MakeGoal);
    ApplyItem(u, a3, p.goal, MakeGoal);
    var a5 := a4 + Item(p.diet, MakeDiet);
    ApplyItem(u, a4, p.diet, MakeDiet);
    var a6 := a5 + Item(p.activityLevel, MakeActivityLevel);
    ApplyItem(u, a5, p.activityLevel, MakeActivityLevel);
    var a7 := a6 + Item(p.healthConditions, MakeHealthConditions);
    ApplyItem(u, a6, p.healthConditions, MakeHealthConditions);
    var a8 := a7 + Item(p.profilePicture, MakeProfilePicture);
    ApplyItem(u, a7, p.profilePicture, MakeProfilePicture);
    assert a8 == SetItems(p);
  }

  /** `update_user_profile` on the caller's row `i`. */
  method UpdateUserProfile(db: Database, i: nat, p: ProfileUpdate) returns (u: User)
    requires db.Valid() && i < |db.users|
    modifies db
    ensures db.Valid()
    ensures u == Merge(old(db.users[i]), p)
    ensures db.users == old(db.users)[i := u]
    ensures db.activities == old(db.activities) && db.meals == old(db.meals)
    ensures db.nextUserId == old(db.nextUserId) && db.nextActivityId == old(db.nextActivityId)
      && db.nextMealId == old(db.nextMealId)
  {
    var items := SetItems(p);
    u := db.users[i];
    ghost var u0 := u;
    var k := 0;
    while k < |items|
      invariant 0 <= k <= |items|
      invariant u == ApplyAll(u0, items[..k])
    {
      assert items[..k + 1][..k] == items[..k];
      u := Apply(u, items[k]);
      k := k + 1;
    }
    assert items[..k] == items;
    SetItemsMerge(u0, p);
    db.users := db.users[i := u];
  }

  /** Only the given fields change. */
  lemma MergeChangesOnlyGivenFields(u: User, p: ProfileUpdate)
    ensures var m := Merge(u, p);
      && m.id == u.id && m.email == u.email && m.username == u.username && m.hashedPassword == u.hashedPassword
      && (p.age.Unset? ==> m.age == u.age) && (p.age.Set? ==> m.age == p.age.value)
      && (p.weight.Unset? ==> m.weight == u.weight) && (p.weight.Set? ==> m.weight == p.weight.value)
      && (p.height.Unset? ==> m.height == u.height) && (p.height.Set? ==> m.height == p.height.value)
      && (p.goal.Unset? ==> m.goal == u.goal) && (p.diet.Unset? ==> m.diet == u.diet)
      && (p.activityLevel.Unset? ==> m.activityLevel == u.activityLevel)
      && (p.healthConditions.Unset? ==> m.healthConditions == u.healthConditions)
      && (p.profilePicture.Unset? ==> m.profilePicture == u.profilePicture)
      && (p == ProfileUpdate(Unset, Unset, Unset, Unset, Unset, Unset, Unset, Unset) ==> m == u)
  {
  }

  /** The uploaded file: its name and content type as the client sent them. */
  datatype UploadFile = UploadFile(filename: Option<string>, contentType: Option<string>, content: seq<byte>)

  /** `f"profile_{current_user.id}_{file.filename}"`. */
  function ProfileObjectName(userId: int, filename: Option<string>): (name: string)
    ensures IsPrefix("profile_" + IntToString(userId) + "_", name)
    ensures name[|"profile_" + IntToString(userId) + "_"|..] == Format(filename)
  {
    "profile_" + IntToString(userId) + "_" + Format(filename)
  }

  /** No character of a decimal rendering is "_". */
  lemma DecimalHasNoUnderscore(i: int)
    ensures forall k :: 0 <= k < |IntToString(i)| ==> IntToString(i)[k] != '_'
  {
  }

  /** Text without "_" followed by "_" splits only one way. */
  lemma SplitAtFirstUnderscore(a: string, x: string, c: string, y: string)
    requires forall k :: 0 <= k < |a| ==> a[k] != '_'
    requires forall k :: 0 <= k < |c| ==> c[k] != '_'
    requires "profile_" + a + "_" + x == "profile_" + c + "_" + y
    ensures a == c && x == y
  {
    var s := "profile_" + a + "_" + x;
    assert s == "profile_" + c + "_" + y;
    // both `8 + |a|` and `8 + |c|` are the position of the first "_" after the prefix
    assert s[8 + |a|] == '_' && s[8 + |c|] == '_';
    assert forall k :: 0 <= k < |a| ==> s[8 + k] == a[k] != '_';
    assert forall k :: 0 <= k < |c| ==> s[8 + k] == c[k] != '_';
    assert |a| == |c|;
    assert a == s[8..8 + |a|] == c;
    assert x == s[9 + |a|..] == y;
  }

  /** Distinct integers have distinct decimal renderings. */
  lemma DecimalInjective(u1: int, u2: int)
    requires IntToString(u1) == IntToString(u2)
    ensures u1 == u2
  {
    JsText.ParseIntOfDecimal(u1, "");
    JsText.ParseIntOfDecimal(u2, "");
    assert IntToString(u1) + "" == IntToString(u1);
    assert IntToString(u2) + "" == IntToString(u2);
  }

  /** Two profile uploads share an object name only when they come from the
      same user and carry the same file name, so one user's upload never
      replaces another's picture. */
  lemma ProfileObjectNamesDistinct(u1: int, f1: Option<string>, u2: int, f2: Option<string>)
    ensures ProfileObjectName(u1, f1) == ProfileObjectName(u2, f2) <==> u1 == u2 && Format(f1) == Format(f2)
  {
    if ProfileObjectName(u1, f1) == ProfileObjectName(u2, f2) {
      DecimalHasNoUnderscore(u1);
      DecimalHasNoUnderscore(u2);
      SplitAtFirstUnderscore(IntToString(u1), Format(f1), IntToString(u2), Format(f2));
      DecimalInjective(u1, u2);
    }
  }

  /** `upload_profile_picture` for the caller's row `i`: refused with 500
      and no change when storage is not configured; a failed store is
      "Upload failed: " and the message, with no change; otherwise the
      picture is stored and its URL is both saved on the user and returned. */
  method UploadProfilePicture(db: Database, store: Store, cfg: StorageConfig, i: nat, file: UploadFile,
                              putFails: Option<string>) returns (r: Result<string>)
    requires db.Valid() && i < |db.users|
    modifies db, store
    ensures db.Valid()
    ensures !Configured(cfg) ==> r == Err(StorageNotConfigured)
    ensures Configured(cfg) && putFails.Some? ==> r == Err(HttpError(500, "Upload failed: " + putFails.value))
    ensures r.Err? ==> db.users == old(db.users) && store.objects == old(store.objects)
    ensures r.Ok? <==> Configured(cfg) && putFails.None?
    ensures r.Ok? ==>
      var name := ProfileObjectName(old(db.users[i]).id, file.filename);
      && r.value == ObjectUrl(cfg, name)
      && db.users == old(db.users)[i := old(db.users[i]).(profilePicture := Some(r.value))]
      && store.objects == old(store.objects)[(cfg.bucket.value, name) :=
           StoredObject(file.content, OrDefault(file.contentType, "image/jpeg"))]
    ensures db.activities == old(db.activities) && db.meals == old(db.meals)
    ensures db.nextUserId == old(db.nextUserId) && db.nextActivityId == old(db.nextActivityId)
      && db.nextMealId == old(db.nextMealId)
  {
    if !Configured(cfg) {
      return Err(StorageNotConfigured);
    }
    var name := ProfileObjectName(db.users[i].id, file.filename);
    var error := store.PutObject(cfg.bucket.value, name, file.content, OrDefault(file.contentType, "image/jpeg"), putFails);
    if error.Some? {
      return Err(HttpError(500, "Upload failed: " + error.value));
    }
    var url := ObjectUrl(cfg, name);
    db.users := db.users[i := db.users[i].(profilePicture := Some(url))];
    r := Ok(url);
  }
}
