/** The sign-up screen of the mobile client (mobile/app/signup.tsx): six
    text fields, three pickers, the loading flag, the alert, and
    `handleSignup`, which checks the fields, posts the account to
    "/auth/register" with the numbers parsed, signs in with the token it
    gets and navigates home. The server's answer and the outcomes of the
    calls `signIn` makes are parameters. */
module SignupScreen {
  import opened Common
  import opened Models
  import opened SecureStore
  import opened Api
  import opened JsText
  import opened AuthSession
  import opened ScreenAlert
  import IndexRoute

  const MissingFields: Alert := Alert(true, MissingInformation, JStr("Please fill in all required fields"), Warning)
  const SignupFailed: string := "Sign Up Failed"
  const CannotCreate: string := "Unable to create account. Please try again."

  /** The three choices of each picker, and the string each button sets. */
  datatype Goal = Lose | Maintain | Gain
  datatype Diet = Balanced | Vegan | Keto
  datatype ActivityLevel = Sedentary | Moderate | VeryActive

  function GoalName(g: Goal): string {
    match g
    case Lose => "lose"
    case Maintain => "maintain"
    case Gain => "gain"
  }

  function DietName(d: Diet): string {
    match d
    case Balanced => "balanced"
    case Vegan => "vegan"
    case Keto => "keto"
  }

  function ActivityName(a: ActivityLevel): string {
    match a
    case Sedentary => "sedentary"
    case Moderate => "moderate"
    case VeryActive => "very_active"
  }

  /** The text fields of the form. */
  datatype Field = Username | Email | Password | Age | Weight | Height

  /** The six text fields' contents. */
  datatype Form = Form(username: string, email: string, password: string, age: string, weight: string,
                       height: string)
  {
    function Value(f: Field): string {
      match f
      case Username => username
      case Email => email
      case Password => password
      case Age => age
      case Weight => weight
      case Height => height
    }

    /** The form with field `f` set to `text` and the others as they were. */
    function With(f: Field, text: string): (r: Form)
      ensures r.Value(f) == text
      ensures forall g :: g != f ==> r.Value(g) == Value(g)
    {
      match f
      case Username => this.(username := text)
      case Email => this.(email := text)
      case Password => this.(password := text)
      case Age => this.(age := text)
      case Weight => this.(weight := text)
      case Height => this.(height := text)
    }

    /** `username && email && password && age && weight && height`. */
    predicate Complete() {
      username != "" && email != "" && password != "" && age != "" && weight != "" && height != ""
    }
  }

  /** The check passes exactly when no field is empty. */
  lemma CompleteIffNoneEmpty(form: Form)
    ensures form.Complete() <==> forall f :: form.Value(f) != ""
  {
    if !form.Complete() {
      assert form.Value(Username) == "" || form.Value(Email) == "" || form.Value(Password) == ""
        || form.Value(Age) == "" || form.Value(Weight) == "" || form.Value(Height) == "";
    }
  }

  const EmptyForm: Form := Form("", "", "", "", "", "")

  /** `parseInt(text, 10)` as `JSON.stringify` sends it: the number, or
      `null` for NaN. */
  function NumberValue(text: string): (j: Json)
    ensures ParseInt(text).Some? ==> j == JNum(ParseInt(text).value as real)
    ensures ParseInt(text).None? ==> j == JNull
  {
    match ParseInt(text)
    case Some(n) => JNum(n as real)
    case None => JNull
  }

  /** The body posted to "/auth/register", one constructor field per JSON
      key; the activity level goes under `activity_level`. */
  datatype RegisterBody = RegisterBody(
    username: string, email: string, password: string,
    age: Json, weight: Json, height: Json,
    goal: string, diet: string, activity_level: string)

  /** The values the goal, diet and activity-level buttons can set. */
  ghost predicate PickerValues(goal: string, diet: string, activityLevel: string) {
    && goal in {"lose", "maintain", "gain"}
    && diet in {"balanced", "vegan", "keto"}
    && activityLevel in {"sedentary", "moderate", "very_active"}
  }

  /** A number typed as its decimal digits is sent as that number, also
      when text follows it, as in "70kg". */
  lemma DecimalSentAsNumber(n: int, rest: string)
    requires rest == [] || !IsDigit(rest[0])
    ensures NumberValue(IntToString(n) + rest) == JNum(n as real)
  {
    ParseIntOfDecimal(n, rest);
  }

  class Signup {
    var form: Form
    var goal: string
    var diet: string
    var activityLevel: string
    var loading: bool
    var alert: Alert
    /** The route of the last `router.replace`, if any. */
    var route: Option<string>

    /** The empty form with the pickers on "maintain", "balanced" and
        "moderate". */
    constructor()
      ensures form == EmptyForm
      ensures goal == "maintain" && diet == "balanced" && activityLevel == "moderate"
      ensures !loading && alert == Hidden && route == None
      ensures PickersValid()
    {
      form := EmptyForm;
      goal, diet, activityLevel := "maintain", "balanced", "moderate";
      loading := false;
      alert := Hidden;
      route := None;
    }

    /** Each picker holds one of its buttons' values. */
    ghost predicate PickersValid()
      reads this
    {
      PickerValues(goal, diet, activityLevel)
    }

    /** The body the current form posts. */
    function Body(): (b: RegisterBody)
      reads this
      ensures b.username == form.username && b.email == form.email && b.password == form.password
      ensures b.age == NumberValue(form.age) && b.weight == NumberValue(form.weight)
      ensures b.height == NumberValue(form.height)
      ensures b.goal == goal && b.diet == diet && b.activity_level == activityLevel
    {
      RegisterBody(form.username, form.email, form.password,
                   NumberValue(form.age), NumberValue(form.weight), NumberValue(form.height),
                   goal, diet, activityLevel)
    }

    /** A text field's `onChangeText`: that field alone changes. */
    method Type(f: Field, text: string)
      requires PickersValid()
      modifies this
      ensures PickersValid()
      ensures form == old(form).With(f, text)
      ensures goal == old(goal) && diet == old(diet) && activityLevel == old(activityLevel)
      ensures loading == old(loading) && alert == old(alert) && route == old(route)
    {
      form := form.With(f, text);
    }

    method PickGoal(g: Goal)
      requires PickersValid()
      modifies this
      ensures PickersValid()
      ensures goal == GoalName(g) && diet == old(diet) && activityLevel == old(activityLevel)
      ensures form == old(form) && loading == old(loading) && alert == old(alert) && route == old(route)
    {
      goal := GoalName(g);
    }

    method PickDiet(d: Diet)
      requires PickersValid()
      modifies this
      ensures PickersValid()
      ensures diet == DietName(d) && goal == old(goal) && activityLevel == old(activityLevel)
      ensures form == old(form) && loading == old(loading) && alert == old(alert) && route == old(route)
    {
      diet := DietName(d);
    }

    method PickActivityLevel(a: ActivityLevel)
      requires PickersValid()
      modifies this
      ensures PickersValid()
      ensures activityLevel == ActivityName(a) && goal == old(goal) && diet == old(diet)
      ensures form == old(form) && loading == old(loading) && alert == old(alert) && route == old(route)
    {
      activityLevel := ActivityName(a);
    }

    /** The part of `handleSignup` after the body is sent: a token leads to
        `signIn` and, when `signIn` returns, to the home route; a refusal, or
        a `signIn` that throws, shows "Sign Up Failed" and leaves the route. */
    method Submit(outcome: TokenOutcome, session: Session, client: Client, store: Store,
                  writeFails: bool, fetched: Option<Json>, deleteFails: bool)
      requires session.Valid(client, store)
      modifies this`alert, this`route, session, client, store
      ensures session.Valid(client, store)
      ensures PickersValid() == old(PickersValid())
      ensures outcome.Refused? ==>
        && alert == FailureAlert(SignupFailed, CannotCreate, outcome.response) && route == old(route)
        && unchanged(session, client, store)
      ensures outcome.Issued? && writeFails ==>
        alert == FailureAlert(SignupFailed, CannotCreate, None) && route == old(route)
      ensures outcome.Issued? && !writeFails ==>
        alert == old(alert) && route == Some(IndexRoute.HomeRoute)
      ensures outcome.Issued? ==>
        SignedIn(session, client, store, old(session.token), old(session.user), old(client.defaultAuthorization),
                 old(store.items), outcome.accessToken, writeFails, fetched, deleteFails)
    {
      match outcome {
        case Refused(response) =>
          alert := FailureAlert(SignupFailed, CannotCreate, response);
        case Issued(token) =>
          var thrown := session.SignIn(client, store, token, writeFails, fetched, deleteFails);
          if thrown {
            alert := FailureAlert(SignupFailed, CannotCreate, None);
          } else {
            route := Some(IndexRoute.HomeRoute);
          }
      }
    }

    /** `handleSignup`. With a required field empty it only shows the
        "Missing Information" warning: nothing is sent and loading is
        untouched. Otherwise the body of the form is sent (`sent`) and the
        outcome is handled as `Submit` says. The form keeps its contents,
        and loading is off after every attempt that got past the check. */
    method HandleSignup(outcome: TokenOutcome, session: Session, client: Client, store: Store,
                        writeFails: bool, fetched: Option<Json>, deleteFails: bool)
      returns (sent: Option<RegisterBody>)
      requires PickersValid() && session.Valid(client, store)
      modifies this, session, client, store
      ensures PickersValid() && session.Valid(client, store)
      ensures form == old(form) && goal == old(goal) && diet == old(diet) && activityLevel == old(activityLevel)
      ensures !old(form).Complete() ==>
        && sent == None && alert == MissingFields && loading == old(loading) && route == old(route)
        && unchanged(session, client, store)
      ensures old(form).Complete() ==> sent == Some(old(Body())) && !loading
      ensures old(form).Complete() && outcome.Refused? ==>
        && alert == FailureAlert(SignupFailed, CannotCreate, outcome.response) && route == old(route)
        && unchanged(session, client, store)
      ensures old(form).Complete() && outcome.Issued? && writeFails ==>
        alert == FailureAlert(SignupFailed, CannotCreate, None) && route == old(route)
      ensures old(form).Complete() && outcome.Issued? && !writeFails ==>
        alert == old(alert) && route == Some(IndexRoute.HomeRoute)
      ensures old(form).Complete() && outcome.Issued? ==>
        SignedIn(session, client, store, old(session.token), old(session.user), old(client.defaultAuthorization),
                 old(store.items), outcome.accessToken, writeFails, fetched, deleteFails)
    {
      if !form.Complete() {
        alert := MissingFields;
        return None;
      }
      sent := Some(Body());
      loading := true;
      Submit(outcome, session, client, store, writeFails, fetched, deleteFails);
      loading := false;
    }
  }

  /** Every body the screen can send names one of the picker values for
      each choice, and its numbers are numbers or null. */
  lemma BodyChoicesArePickerValues(s: Signup)
    requires s.PickersValid()
    ensures s.Body().goal in {"lose", "maintain", "gain"}
    ensures s.Body().diet in {"balanced", "vegan", "keto"}
    ensures s.Body().activity_level in {"sedentary", "moderate", "very_active"}
    ensures s.Body().age.JNum? || s.Body().age.JNull?
  {
  }
}
