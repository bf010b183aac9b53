/** The database tables of the backend (users, activities, meal analyses)
    as records, and an in-memory database object that stands for the
    SQLAlchemy session: each table is a sequence of rows in insertion order,
    and each table keeps the next value of its auto-incremented id. */
module Models {
  import opened Common

  /** A JSON value, as `json.loads` returns it and as `JSON` columns store it. */
  datatype Json =
    | JNull
    | JBool(b: bool)
    | JNum(n: real)
    | JStr(s: string)
    | JArr(items: seq<Json>)
    | JObj(fields: map<string, Json>)

  /** Python truthiness of a parsed JSON value; `not analysis` is true only for
      falsy values, of which an empty object is the one a parse of "{...}" gives. */
  predicate JsonTruthy(j: Json) {
    match j
    case JNull => false
    case JBool(b) => b
    case JNum(n) => n != 0.0
    case JStr(s) => s != ""
    case JArr(items) => items != []
    case JObj(fields) => fields != map[]
  }

  /** A row of the `users` table. */
  datatype User = User(
    id: int,
    email: string,
    username: string,
    hashedPassword: string,
    age: Option<int>,
    weight: Option<int>,
    height: Option<int>,
    goal: Option<string>,
    diet: Option<string>,
    activityLevel: Option<string>,
    healthConditions: Option<string>,
    profilePicture: Option<string>)

  /** A row of the `activities` table; `date` is in seconds since the epoch (UTC). */
  datatype Activity = Activity(id: int, activity: string, duration: int, date: int, ownerId: int)

  /** A row of the `meal_analyses` table; `date` is in seconds since the epoch (UTC). */
  datatype MealAnalysis = MealAnalysis(id: int, imageUri: Option<string>, analysisData: Json, date: int, ownerId: int)

  /** Index of the first user with the given email: `query(User).filter(User.email == e).first()`. */
  function FindByEmail(users: seq<User>, email: string): (r: Option<nat>)
    ensures r.Some? ==> r.value < |users| && users[r.value].email == email
    ensures r.Some? ==> forall j :: 0 <= j < r.value ==> users[j].email != email
    ensures r.None? ==> forall j :: 0 <= j < |users| ==> users[j].email != email
    decreases |users|
  {
    if users == [] then None
    else if users[0].email == email then Some(0)
    else match FindByEmail(users[1..], email)
      case None => None
      case Some(i) => Some(i + 1)
  }

  /** Index of the first user with the given username. */
  function FindByUsername(users: seq<User>, username: string): (r: Option<nat>)
    ensures r.Some? ==> r.value < |users| && users[r.value].username == username
    ensures r.None? ==> forall j :: 0 <= j < |users| ==> users[j].username != username
    decreases |users|
  {
    if users == [] then None
    else if users[0].username == username then Some(0)
    else match FindByUsername(users[1..], username)
      case None => None
      case Some(i) => Some(i + 1)
  }

  /** The activities of one owner, in table order: `filter(Activity.owner_id == owner)`. */
  function OwnedActivities(acts: seq<Activity>, owner: int): (r: seq<Activity>)
    ensures |r| <= |acts|
    ensures forall i :: 0 <= i < |r| ==> r[i].ownerId == owner && r[i] in acts
    ensures forall a :: a in r <==> a in acts && a.ownerId == owner
    decreases |acts|
  {
    if acts == [] then []
    else (if acts[0].ownerId == owner then [acts[0]] else []) + OwnedActivities(acts[1..], owner)
  }

  /** No two rows share an email, a username or an id (the UNIQUE and
      PRIMARY KEY constraints of the `users` table). */
  ghost predicate UsersUnique(users: seq<User>) {
    forall i, j :: 0 <= i < j < |users| ==>
      users[i].email != users[j].email && users[i].username != users[j].username && users[i].id != users[j].id
  }

  class Database {
    var users: seq<User>
    var activities: seq<Activity>
    var meals: seq<MealAnalysis>
    var nextUserId: int
    var nextActivityId: int
    var nextMealId: int

    /** The table constraints, and auto-increment counters above every id in use. */
    ghost predicate Valid()
      reads this
    {
      && UsersUnique(users)
      && (forall i :: 0 <= i < |users| ==> users[i].id < nextUserId)
      && (forall i :: 0 <= i < |activities| ==> activities[i].id < nextActivityId)
      && (forall i, j :: 0 <= i < j < |activities| ==> activities[i].id != activities[j].id)
      && (forall i :: 0 <= i < |meals| ==> meals[i].id < nextMealId)
      && (forall i, j :: 0 <= i < j < |meals| ==> meals[i].id != meals[j].id)
    }

    constructor ()
      ensures Valid()
      ensures users == [] && activities == [] && meals == []
      ensures nextUserId == 1 && nextActivityId == 1 && nextMealId == 1
    {
      users, activities, meals := [], [], [];
      nextUserId, nextActivityId, nextMealId := 1, 1, 1;
    }
  }
}
