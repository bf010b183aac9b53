/** The English and Arabic string tables of the mobile client
    (mobile/utils/translations.ts). Each language's table is an object
    literal; here it is the sequence of its entries in source order, built
    from one piece per commented section of the file. A lookup takes the
    last entry with the key, as a repeated key in an object literal keeps its
    last value. */
module Translations {
  import opened Common

  datatype Language = En | Ar

  /** The language code the store and `translations[language]` use. */
  function Code(l: Language): (c: string)
    ensures c == "en" || c == "ar"
  {
    if l.En? then "en" else "ar"
  }

  datatype Entry = Entry(key: string, text: string)

  /** Auth screens, lines 5-18. */
  const EnAuthScreens: seq<Entry> := [
    Entry("welcomeTitle", "keepItFit"),
    Entry("welcomeSubtitle", "Your personal fitness companion"),
    Entry("welcomeDescription", "Track your activities, get personalized meal plans, and achieve your fitness goals."),
    Entry("getStarted", "Get Started"),
    Entry("logIn", "Log In"),
    Entry("welcomeBack", "Welcome back"),
    Entry("createAccount", "Create account"),
    Entry("email", "Email"),
    Entry("password", "Password"),
    Entry("username", "Username"),
    Entry("login", "Login"),
    Entry("loggingIn", "Logging in..."),
    Entry("dontHaveAccount", "Don't have an account? Sign up"),
    Entry("alreadyHaveAccount", "Already have an account? Log in")]

  /** Profile fields, lines 21-38. */
  const EnProfileFields: seq<Entry> := [
    Entry("accountInfo", "Account Information"),
    Entry("personalInfo", "Personal Information"),
    Entry("fitnessGoals", "Fitness Goals"),
    Entry("age", "Age"),
    Entry("weight", "Weight (kg)"),
    Entry("height", "Height (cm)"),
    Entry("goal", "Goal"),
    Entry("goalLose", "Lose Weight"),
    Entry("goalMaintain", "Maintain"),
    Entry("goalGain", "Gain Muscle"),
    Entry("dietPreference", "Diet Preference"),
    Entry("dietBalanced", "Balanced"),
    Entry("dietVegan", "Vegan"),
    Entry("dietKeto", "Keto"),
    Entry("activityLevel", "Activity Level"),
    Entry("activitySedentary", "Sedentary"),
    Entry("activityModerate", "Moderate"),
    Entry("activityVeryActive", "Very Active")]

  /** Navigation, lines 41-45. */
  const EnNavigation: seq<Entry> := [
    Entry("home", "Home"),
    Entry("myPlan", "My Plan"),
    Entry("activity", "Activity"),
    Entry("insights", "Insights"),
    Entry("profile", "Profile")]

  /** Home screen, lines 48-51. */
  const EnHomeScreen: seq<Entry> := [
    Entry("welcomeUser", "Welcome"),
    Entry("wellnessScore", "Wellness Score"),
    Entry("recentActivities", "Recent Activities"),
    Entry("noActivities", "No recent activities")]

  /** Plan screen, lines 54-60. */
  const EnPlanScreen: seq<Entry> := [
    Entry("mealPlan", "Meal Plan"),
    Entry("workoutPlan", "Workout Plan"),
    Entry("breakfast", "Breakfast"),
    Entry("lunch", "Lunch"),
    Entry("dinner", "Dinner"),
    Entry("generatePlan", "Generate Plan"),
    Entry("generatingPlan", "Generating Plan...")]

  /** Activity screen, lines 63-69. */
  const EnActivityScreen: seq<Entry> := [
    Entry("mealAnalyzer", "Meal Analyzer"),
    Entry("recipeGenerator", "Recipe Generator"),
    Entry("uploadImage", "Upload Image"),
    Entry("analyzing", "Analyzing..."),
    Entry("enterIngredients", "Enter available ingredients (e.g., chicken, rice, tomatoes)"),
    Entry("generateRecipe", "Generate Healthy Recipe"),
    Entry("generatingRecipe", "Generating...")]

  /** Profile screen, lines 72-78. */
  const EnProfileScreen: seq<Entry> := [
    Entry("editProfile", "Edit"),
    Entry("save", "Save"),
    Entry("saving", "Saving..."),
    Entry("cancel", "Cancel"),
    Entry("signOut", "Sign Out"),
    Entry("changePhoto", "Change Photo"),
    Entry("addPhoto", "Add Photo")]

  /** Common, lines 81-84. */
  const EnCommonTexts: seq<Entry> := [
    Entry("loading", "Loading..."),
    Entry("error", "Error"),
    Entry("success", "Success"),
    Entry("refresh", "Pull to refresh")]

  /** Language, lines 87-89. */
  const EnLanguageNames: seq<Entry> := [
    Entry("language", "Language"),
    Entry("english", "English"),
    Entry("arabic", "العربية")]

  /** Auth screens, lines 93-106. */
  const ArAuthScreens: seq<Entry> := [
    Entry("welcomeTitle", "keepItFit"),
    Entry("welcomeSubtitle", "رفيقك الشخصي للياقة البدنية"),
    Entry("welcomeDescription", "تتبع أنشطتك، احصل على خطط وجبات مخصصة، وحقق أهداف اللياقة البدنية."),
    Entry("getStarted", "ابدأ الآن"),
    Entry("logIn", "تسجيل الدخول"),
    Entry("welcomeBack", "مرحباً بعودتك"),
    Entry("createAccount", "إنشاء حساب"),
    Entry("email", "البريد الإلكتروني"),
    Entry("password", "كلمة المرور"),
    Entry("username", "اسم المستخدم"),
    Entry("login", "تسجيل الدخول"),
    Entry("loggingIn", "جاري تسجيل الدخول..."),
    Entry("dontHaveAccount", "ليس لديك حساب؟ سجل الآن"),
    Entry("alreadyHaveAccount", "لديك حساب بالفعل؟ سجل الدخول")]

  /** Profile fields, lines 109-126. */
  const ArProfileFields: seq<Entry> := [
    Entry("accountInfo", "معلومات الحساب"),
    Entry("personalInfo", "المعلومات الشخصية"),
    Entry("fitnessGoals", "أهداف اللياقة البدنية"),
    Entry("age", "العمر"),
    Entry("weight", "الوزن (كجم)"),
    Entry("height", "الطول (سم)"),
    Entry("goal", "الهدف"),
    Entry("goalLose", "فقدان الوزن"),
    Entry("goalMaintain", "الحفاظ"),
    Entry("goalGain", "زيادة العضلات"),
    Entry("dietPreference", "تفضيل النظام الغذائي"),
    Entry("dietBalanced", "متوازن"),
    Entry("dietVegan", "نباتي"),
    Entry("dietKeto", "كيتو"),
    Entry("activityLevel", "مستوى النشاط"),
    Entry("activitySedentary", "قليل الحركة"),
    Entry("activityModerate", "معتدل"),
    Entry("activityVeryActive", "نشط جداً")]

  /** Navigation, lines 129-133. */
  const ArNavigation: seq<Entry> := [
    Entry("home", "الرئيسية"),
    Entry("myPlan", "خطتي"),
    Entry("activity", "النشاط"),
    Entry("insights", "الرؤى"),
    Entry("profile", "الملف الشخصي")]

  /** Home screen, lines 136-139. */
  const ArHomeScreen: seq<Entry> := [
    Entry("welcomeUser", "مرحباً"),
    Entry("wellnessScore", "درجة الصحة"),
    Entry("recentActivities", "الأنشطة الأخيرة"),
    Entry("noActivities", "لا توجد أنشطة حديثة")]

  /** Plan screen, lines 142-148. */
  const ArPlanScreen: seq<Entry> := [
    Entry("mealPlan", "خطة الوجبات"),
    Entry("workoutPlan", "خطة التمارين"),
    Entry("breakfast", "الإفطار"),
    Entry("lunch", "الغداء"),
    Entry("dinner", "العشاء"),
    Entry("generatePlan", "إنشاء خطة"),
    Entry("generatingPlan", "جاري إنشاء الخطة...")]

  /** Activity screen, lines 151-157. */
  const ArActivityScreen: seq<Entry> := [
    Entry("mealAnalyzer", "محلل الوجبات"),
    Entry("recipeGenerator", "مولد الوصفات"),
    Entry("uploadImage", "رفع صورة"),
    Entry("analyzing", "جاري التحليل..."),
    Entry("enterIngredients", "أدخل المكونات المتاحة (مثل: دجاج، أرز، طماطم)"),
    Entry("generateRecipe", "إنشاء وصفة صحية"),
    Entry("generatingRecipe", "جاري الإنشاء...")]

  /** Profile screen, lines 160-166. */
  const ArProfileScreen: seq<Entry> := [
    Entry("editProfile", "تعديل"),
    Entry("save", "حفظ"),
    Entry("saving", "جاري الحفظ..."),
    Entry("cancel", "إلغاء"),
    Entry("signOut", "تسجيل الخروج"),
    Entry("changePhoto", "تغيير الصورة"),
    Entry("addPhoto", "إضافة صورة")]

  /** Common, lines 169-172. */
  const ArCommonTexts: seq<Entry> := [
    Entry("loading", "جاري التحميل..."),
    Entry("error", "خطأ"),
    Entry("success", "نجح"),
    Entry("refresh", "اسحب للتحديث")]

  /** Language, lines 175-177. */
  const ArLanguageNames: seq<Entry> := [
    Entry("language", "اللغة"),
    Entry("english", "English"),
    Entry("arabic", "العربية")]

  const EnTable: seq<Entry> :=
    EnAuthScreens + (EnProfileFields + (EnNavigation + (EnHomeScreen + (EnPlanScreen
      + (EnActivityScreen + (EnProfileScreen + (EnCommonTexts + EnLanguageNames)))))))

  const ArTable: seq<Entry> :=
    ArAuthScreens + (ArProfileFields + (ArNavigation + (ArHomeScreen + (ArPlanScreen
      + (ArActivityScreen + (ArProfileScreen + (ArCommonTexts + ArLanguageNames)))))))

  /** `translations[language]`. */
  function Table(l: Language): seq<Entry> {
    if l.En? then EnTable else ArTable
  }

  /** `table[key]`: the text of the last entry with the key. */
  function Lookup(t: seq<Entry>, key: string): (r: Option<string>)
    ensures r.None? <==> forall i :: 0 <= i < |t| ==> t[i].key != key
    ensures r.Some? ==> exists i :: 0 <= i < |t| && t[i].key == key && t[i].text == r.value
    decreases |t|
  {
    if t == [] then None
    else if t[|t| - 1].key == key then Some(t[|t| - 1].text)
    else
      var r := Lookup(t[..|t| - 1], key);
      assert forall i :: 0 <= i < |t| - 1 ==> t[..|t| - 1][i] == t[i];
      r
  }

  /** Two tables list the same keys in the same order. */
  ghost predicate SameKeys(a: seq<Entry>, b: seq<Entry>) {
    |a| == |b| && forall i :: 0 <= i < |a| ==> a[i].key == b[i].key
  }

  ghost predicate NoEmptyText(t: seq<Entry>) {
    forall i :: 0 <= i < |t| ==> t[i].text != ""
  }

  ghost predicate SectionsAgree(a: seq<Entry>, b: seq<Entry>) {
    SameKeys(a, b) && NoEmptyText(a) && NoEmptyText(b)
  }

  lemma AgreeConcat(a1: seq<Entry>, a2: seq<Entry>, b1: seq<Entry>, b2: seq<Entry>)
    requires SectionsAgree(a1, b1) && SectionsAgree(a2, b2)
    ensures SectionsAgree(a1 + a2, b1 + b2)
  {
    assert forall i :: |a1| <= i < |a1| + |a2| ==> (a1 + a2)[i] == a2[i - |a1|] && (b1 + b2)[i] == b2[i - |a1|];
  }

  lemma AuthScreensAgree()
    ensures SectionsAgree(EnAuthScreens, ArAuthScreens)
  {
  }

  lemma ProfileFieldsAgree()
    ensures SectionsAgree(EnProfileFields, ArProfileFields)
  {
  }

  lemma ScreenSectionsAgree()
    ensures SectionsAgree(EnNavigation, ArNavigation) && SectionsAgree(EnHomeScreen, ArHomeScreen)
    ensures SectionsAgree(EnPlanScreen, ArPlanScreen) && SectionsAgree(EnActivityScreen, ArActivityScreen)
  {
  }

  lemma OtherSectionsAgree()
    ensures SectionsAgree(EnProfileScreen, ArProfileScreen) && SectionsAgree(EnCommonTexts, ArCommonTexts)
    ensures SectionsAgree(EnLanguageNames, ArLanguageNames)
  {
  }

  /** The English and Arabic tables list the same keys in the same order,
      and no text in either is empty. */
  lemma TablesAgree()
    ensures SectionsAgree(EnTable, ArTable)
  {
    AuthScreensAgree();
    ProfileFieldsAgree();
    ScreenSectionsAgree();
    OtherSectionsAgree();
    AgreeConcat(EnCommonTexts, EnLanguageNames, ArCommonTexts, ArLanguageNames);
    var e := EnCommonTexts + EnLanguageNames;
    var a := ArCommonTexts + ArLanguageNames;
    AgreeConcat(EnProfileScreen, e, ArProfileScreen, a);
    e, a := EnProfileScreen + e, ArProfileScreen + a;
    AgreeConcat(EnActivityScreen, e, ArActivityScreen, a);
    e, a := EnActivityScreen + e, ArActivityScreen + a;
    AgreeConcat(EnPlanScreen, e, ArPlanScreen, a);
    e, a := EnPlanScreen + e, ArPlanScreen + a;
    AgreeConcat(EnHomeScreen, e, ArHomeScreen, a);
    e, a := EnHomeScreen + e, ArHomeScreen + a;
    AgreeConcat(EnNavigation, e, ArNavigation, a);
    e, a := EnNavigation + e, ArNavigation + a;
    AgreeConcat(EnProfileFields, e, ArProfileFields, a);
    e, a := EnProfileFields + e, ArProfileFields + a;
    AgreeConcat(EnAuthScreens, e, ArAuthScreens, a);
  }

  /** Tables with the same keys find a key in both or in neither, and what
      they find is never empty. */
  lemma {:induction false} LookupAgrees(a: seq<Entry>, b: seq<Entry>, key: string)
    requires SectionsAgree(a, b)
    ensures Lookup(a, key).Some? <==> Lookup(b, key).Some?
    ensures Lookup(a, key).Some? ==> Lookup(a, key).value != "" && Lookup(b, key).value != ""
    decreases |a|
  {
    if a != [] && a[|a| - 1].key != key {
      LookupAgrees(a[..|a| - 1], b[..|b| - 1], key);
    }
  }

  /** A key of the English table. */
  predicate Declared(key: string) {
    Lookup(EnTable, key).Some?
  }

  /** `found || key` for a looked-up text. */
  function TextOr(found: Option<string>, key: string): (r: string)
    ensures found.Some? && found.value != "" ==> r == found.value
    ensures found.None? || found.value == "" ==> r == key
  {
    if found.Some? && found.value != "" then found.value else key
  }

  /** `t(key)`: the current table's text when it is non-empty, else the key. */
  function Translate(l: Language, key: string): string {
    TextOr(Lookup(Table(l), key), key)
  }

  /** The `t` of the context's default value, outside any provider. */
  function DefaultTranslate(key: string): (r: string)
    ensures r == key
  {
    key
  }

  lemma TextOrOfAgreeing(a: seq<Entry>, b: seq<Entry>, key: string)
    requires SectionsAgree(a, b)
    ensures Lookup(a, key).Some? <==> Lookup(b, key).Some?
    ensures Lookup(a, key).Some? ==>
      (TextOr(Lookup(a, key), key) == Lookup(a, key).value && TextOr(Lookup(b, key), key) == Lookup(b, key).value)
    ensures Lookup(a, key).None? ==> TextOr(Lookup(a, key), key) == key && TextOr(Lookup(b, key), key) == key
  {
    LookupAgrees(a, b, key);
  }

  /** A declared key never falls back to itself in either language, and any
      other key always does. */
  lemma TranslateDeclared(key: string)
    ensures Declared(key) ==>
      (Lookup(ArTable, key).Some? && Translate(En, key) == Lookup(EnTable, key).value
       && Translate(Ar, key) == Lookup(ArTable, key).value)
    ensures !Declared(key) ==> Translate(En, key) == key && Translate(Ar, key) == key
  {
    TablesAgree();
    TextOrOfAgreeing(EnTable, ArTable, key);
  }

  /** A later piece of a table overrides an earlier one. */
  lemma {:induction false} LookupConcat(a: seq<Entry>, b: seq<Entry>, key: string)
    ensures Lookup(a + b, key) == if Lookup(b, key).Some? then Lookup(b, key) else Lookup(a, key)
    decreases |b|
  {
    if b == [] {
      assert a + b == a;
    } else {
      assert (a + b)[..|a + b| - 1] == a + b[..|b| - 1];
      LookupConcat(a, b[..|b| - 1], key);
    }
  }

  ghost predicate Absent(t: seq<Entry>, key: string) {
    forall i :: 0 <= i < |t| ==> t[i].key != key
  }

  lemma AbsentConcat(a: seq<Entry>, b: seq<Entry>, key: string)
    requires Absent(a, key) && Absent(b, key)
    ensures Absent(a + b, key)
  {
    assert forall i :: |a| <= i < |a| + |b| ==> (a + b)[i] == b[i - |a|];
  }

  /** A key found only in the first piece of a table, always with the same
      text, looks up to that text. */
  lemma OnlyInHead(head: seq<Entry>, rest: seq<Entry>, key: string, v: string)
    requires Absent(rest, key) && !Absent(head, key)
    requires forall i :: 0 <= i < |head| && head[i].key == key ==> head[i].text == v
    ensures Lookup(head + rest, key) == Some(v)
  {
    LookupConcat(head, rest, key);
  }

  /** Every piece after the first lacks "welcomeTitle". */
  lemma WelcomeTitleOnlyInAuthScreens(k: string)
    requires k == "welcomeTitle"
    ensures Absent(EnProfileFields + (EnNavigation + (EnHomeScreen + (EnPlanScreen
      + (EnActivityScreen + (EnProfileScreen + (EnCommonTexts + EnLanguageNames)))))), k)
    ensures Absent(ArProfileFields + (ArNavigation + (ArHomeScreen + (ArPlanScreen
      + (ArActivityScreen + (ArProfileScreen + (ArCommonTexts + ArLanguageNames)))))), k)
  {
    AbsentConcat(EnCommonTexts, EnLanguageNames, k);
    var e := EnCommonTexts + EnLanguageNames;
    AbsentConcat(EnProfileScreen, e, k);
    e := EnProfileScreen + e;
    AbsentConcat(EnActivityScreen, e, k);
    e := EnActivityScreen + e;
    AbsentConcat(EnPlanScreen, e, k);
    e := EnPlanScreen + e;
    AbsentConcat(EnHomeScreen, e, k);
    e := EnHomeScreen + e;
    AbsentConcat(EnNavigation, e, k);
    e := EnNavigation + e;
    AbsentConcat(EnProfileFields, e, k);
    AbsentConcat(ArCommonTexts, ArLanguageNames, k);
    var a := ArCommonTexts + ArLanguageNames;
    AbsentConcat(ArProfileScreen, a, k);
    a := ArProfileScreen + a;
    AbsentConcat(ArActivityScreen, a, k);
    a := ArActivityScreen + a;
    AbsentConcat(ArPlanScreen, a, k);
    a := ArPlanScreen + a;
    AbsentConcat(ArHomeScreen, a, k);
    a := ArHomeScreen + a;
    AbsentConcat(ArNavigation, a, k);
    a := ArNavigation + a;
    AbsentConcat(ArProfileFields, a, k);
  }

  /** The app's name is the same in both languages. */
  lemma WelcomeTitleUntranslated()
    ensures Translate(En, "welcomeTitle") == "keepItFit" && Translate(Ar, "welcomeTitle") == "keepItFit"
  {
    var k := "welcomeTitle";
    WelcomeTitleOnlyInAuthScreens(k);
    assert EnAuthScreens[0].key == k && ArAuthScreens[0].key == k;
    OnlyInHead(EnAuthScreens, EnProfileFields + (EnNavigation + (EnHomeScreen + (EnPlanScreen
      + (EnActivityScreen + (EnProfileScreen + (EnCommonTexts + EnLanguageNames)))))), k, "keepItFit");
    OnlyInHead(ArAuthScreens, ArProfileFields + (ArNavigation + (ArHomeScreen + (ArPlanScreen
      + (ArActivityScreen + (ArProfileScreen + (ArCommonTexts + ArLanguageNames)))))), k, "keepItFit");
  }

  /** Each language's name is written the same way in both tables. */
  lemma LanguageLabelsShared()
    ensures Translate(En, "english") == Translate(Ar, "english") == "English"
    ensures Translate(En, "arabic") == Translate(Ar, "arabic")
  {
    var e := EnAuthScreens + (EnProfileFields + (EnNavigation + (EnHomeScreen + (EnPlanScreen
      + (EnActivityScreen + (EnProfileScreen + EnCommonTexts))))));
    var a := ArAuthScreens + (ArProfileFields + (ArNavigation + (ArHomeScreen + (ArPlanScreen
      + (ArActivityScreen + (ArProfileScreen + ArCommonTexts))))));
    assert EnTable == e + EnLanguageNames;
    assert ArTable == a + ArLanguageNames;
    LookupConcat(e, EnLanguageNames, "english");
    LookupConcat(a, ArLanguageNames, "english");
    LookupConcat(e, EnLanguageNames, "arabic");
    LookupConcat(a, ArLanguageNames, "arabic");
  }
}
