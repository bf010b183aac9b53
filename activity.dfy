/** The activity routes of the backend (backend/app/routes/activity.py):
    recording an activity or a meal analysis, the newest-first listings, and
    the weekly statistics with the day streak. Timestamps are whole seconds
    since the epoch in UTC; the request time `now` is a parameter. */
module ActivityRoutes {
  import opened Common
  import opened Models

  const SecondsPerDay: int := 86400

  /** `datetime.date()` as a day number: the floor of the timestamp by days. */
  function Day(ts: int): int {
    ts / SecondsPerDay
  }

  /** Newest first by the given key. */
  ghost predicate SortedDesc<T>(s: seq<T>, key: T -> int) {
    forall i, j :: 0 <= i < j < |s| ==> key(s[i]) >= key(s[j])
  }

  function InsertDesc<T>(x: T, s: seq<T>, key: T -> int): (r: seq<T>)
    requires SortedDesc(s, key)
    ensures SortedDesc(r, key)
    ensures multiset(r) == multiset(s) + multiset{x}
    ensures |r| == |s| + 1
    ensures r[0] == x || (s != [] && r[0] == s[0])
    decreases |s|
  {
    if s == [] || key(x) >= key(s[0]) then
      PrependSorted(x, s, key);
      [x] + s
    else
      var t := InsertDesc(x, s[1..], key);
      InsertBehind(x, s, t, key);
      [s[0]] + t
  }

  /** A row no smaller than every row of a sorted list may go in front. */
  lemma PrependSorted<T>(h: T, t: seq<T>, key: T -> int)
    requires SortedDesc(t, key)
    requires forall y :: y in t ==> key(h) >= key(y)
    ensures SortedDesc([h] + t, key)
  {
    var r := [h] + t;
    forall i, j | 0 <= i < j < |r| ensures key(r[i]) >= key(r[j]) {
      assert r[j] == t[j - 1];
      if i > 0 { assert r[i] == t[i - 1]; }
    }
  }

  /** The head of a sorted list stays in front of `x` inserted into its tail. */
  lemma InsertBehind<T>(x: T, s: seq<T>, t: seq<T>, key: T -> int)
    requires SortedDesc(s, key) && s != [] && key(x) < key(s[0])
    requires SortedDesc(t, key) && multiset(t) == multiset(s[1..]) + multiset{x}
    ensures SortedDesc([s[0]] + t, key)
    ensures multiset([s[0]] + t) == multiset(s) + multiset{x}
  {
    assert s == [s[0]] + s[1..];
    forall y | y in t ensures key(s[0]) >= key(y) {
      assert y in multiset(t);
      if y != x {
        assert y in multiset(s[1..]);
        var k :| 0 <= k < |s[1..]| && s[1..][k] == y;
        assert s[k + 1] == y;
      }
    }
    PrependSorted(s[0], t, key);
  }

  /** `order_by(key.desc())`; rows with equal keys come out in one of the
      orders the database may choose. */
  function SortDesc<T>(xs: seq<T>, key: T -> int): (r: seq<T>)
    ensures SortedDesc(r, key)
    ensures multiset(r) == multiset(xs)
    ensures |r| == |xs|
    decreases |xs|
  {
    if xs == [] then []
    else
      assert xs == [xs[0]] + xs[1..];
      InsertDesc(xs[0], SortDesc(xs[1..], key), key)
  }

  /** The newest `limit` rows of `xs` by `key`. */
  function NewestFirst<T>(xs: seq<T>, key: T -> int, limit: nat): seq<T> {
    Take(SortDesc(xs, key), limit)
  }

  /** `r` holds the `limit` rows of `xs` with the largest keys, largest first:
      drawn from `xs`, sorted, no row left out above a row kept, and all of
      `xs` when it has at most `limit` rows. */
  ghost predicate NewestOf<T>(r: seq<T>, xs: seq<T>, key: T -> int, limit: nat) {
    && |r| <= limit
    && SortedDesc(r, key)
    && multiset(r) <= multiset(xs)
    && (forall x, i :: x in multiset(xs) - multiset(r) && 0 <= i < |r| ==> key(r[i]) >= key(x))
    && (|xs| <= limit ==> multiset(r) == multiset(xs))
  }

  /** In a list sorted largest first, every row after position `n` is no
      larger than any row before it. */
  lemma SortedTail<T>(s: seq<T>, key: T -> int, n: nat)
    requires SortedDesc(s, key) && n <= |s|
    ensures forall x, i :: x in multiset(s[n..]) && 0 <= i < n ==> key(s[i]) >= key(x)
  {
    forall x, i | x in multiset(s[n..]) && 0 <= i < n
      ensures key(s[i]) >= key(x)
    {
      var j :| 0 <= j < |s[n..]| && s[n..][j] == x;
      assert s[n + j] == x;
    }
  }

  lemma NewestFirstProperties<T>(xs: seq<T>, key: T -> int, limit: nat)
    ensures NewestOf(NewestFirst(xs, key, limit), xs, key, limit)
    ensures |xs| > limit ==> |NewestFirst(xs, key, limit)| == limit
  {
    var s := SortDesc(xs, key);
    var r := NewestFirst(xs, key, limit);
    var rest := s[|r|..];
    assert multiset(xs) == multiset(r) + multiset(rest) by {
      assert s == r + rest;
    }
    assert SortedDesc(r, key) by {
      assert forall i :: 0 <= i < |r| ==> r[i] == s[i];
    }
    SortedTail(s, key, |r|);
  }

  /** Every row `NewestFirst` keeps is a row of `xs`. */
  lemma NewestFirstKeepsRows<T>(xs: seq<T>, key: T -> int, limit: nat)
    ensures forall i :: 0 <= i < |NewestFirst(xs, key, limit)| ==> NewestFirst(xs, key, limit)[i] in xs
  {
    var r := NewestFirst(xs, key, limit);
    NewestFirstProperties(xs, key, limit);
    forall i | 0 <= i < |r|
      ensures r[i] in xs
    {
      assert r[i] in multiset(r);
    }
  }

  function ActivityDate(a: Activity): int { a.date }
  function MealDate(m: MealAnalysis): int { m.date }

  /** `recent_activities`: the caller's ten newest activities, newest first;
      exactly ten when there are more, all of them otherwise. */
  function RecentActivities(acts: seq<Activity>, owner: int): (r: seq<Activity>)
    ensures forall i :: 0 <= i < |r| ==> r[i].ownerId == owner && r[i] in acts
    ensures NewestOf(r, OwnedActivities(acts, owner), ActivityDate, 10)
    ensures |OwnedActivities(acts, owner)| > 10 ==> |r| == 10
  {
    var owned := OwnedActivities(acts, owner);
    var r := NewestFirst(owned, ActivityDate, 10);
    NewestFirstProperties(owned, ActivityDate, 10);
    NewestFirstKeepsRows(owned, ActivityDate, 10);
    r
  }

  /** The meals of one owner, in table order. */
  function OwnedMeals(meals: seq<MealAnalysis>, owner: int): (r: seq<MealAnalysis>)
    ensures forall i :: 0 <= i < |r| ==> r[i].ownerId == owner && r[i] in meals
    ensures forall m :: m in r <==> m in meals && m.ownerId == owner
    decreases |meals|
  {
    if meals == [] then []
    else (if meals[0].ownerId == owner then [meals[0]] else []) + OwnedMeals(meals[1..], owner)
  }

  /** `meal_insights`: the caller's twenty newest meal analyses, newest
      first; exactly twenty when there are more, all of them otherwise. */
  function MealInsights(meals: seq<MealAnalysis>, owner: int): (r: seq<MealAnalysis>)
    ensures forall i :: 0 <= i < |r| ==> r[i].ownerId == owner && r[i] in meals
    ensures NewestOf(r, OwnedMeals(meals, owner), MealDate, 20)
    ensures |OwnedMeals(meals, owner)| > 20 ==> |r| == 20
  {
    var owned := OwnedMeals(meals, owner);
    var r := NewestFirst(owned, MealDate, 20);
    NewestFirstProperties(owned, MealDate, 20);
    NewestFirstKeepsRows(owned, MealDate, 20);
    r
  }

  /** `track_activity`: one new row, dated now, owned by the caller, with the
      next id; nothing else changes. */
  method TrackActivity(db: Database, activity: string, duration: int, owner: int, now: int) returns (a: Activity)
    requires db.Valid()
    modifies db
    ensures db.Valid()
    ensures a == Activity(old(db.nextActivityId), activity, duration, now, owner)
    ensures db.activities == old(db.activities) + [a]
    ensures db.nextActivityId == old(db.nextActivityId) + 1
    ensures db.users == old(db.users) && db.meals == old(db.meals)
    ensures db.nextUserId == old(db.nextUserId) && db.nextMealId == old(db.nextMealId)
  {
    a := Activity(db.nextActivityId, activity, duration, now, owner);
    db.activities := db.activities + [a];
    db.nextActivityId := db.nextActivityId + 1;
  }

  /** `save_meal_analysis`: one new row, dated now, owned by the caller. */
  method SaveMealAnalysis(db: Database, imageUri: Option<string>, analysis: Json, owner: int, now: int)
    returns (m: MealAnalysis)
    requires db.Valid()
    modifies db
    ensures db.Valid()
    ensures m == MealAnalysis(old(db.nextMealId), imageUri, analysis, now, owner)
    ensures db.meals == old(db.meals) + [m]
    ensures db.nextMealId == old(db.nextMealId) + 1
    ensures db.users == old(db.users) && db.activities == old(db.activities)
    ensures db.nextUserId == old(db.nextUserId) && db.nextActivityId == old(db.nextActivityId)
  {
    m := MealAnalysis(db.nextMealId, imageUri, analysis, now, owner);
    db.meals := db.meals + [m];
    db.nextMealId := db.nextMealId + 1;
  }

  /** The caller's activities dated no earlier than seven days before now. */
  function WeekActivities(acts: seq<Activity>, owner: int, now: int): (r: seq<Activity>)
    ensures forall i :: 0 <= i < |r| ==> r[i] in acts && r[i].ownerId == owner && r[i].date >= now - 7 * SecondsPerDay
    ensures forall a :: a in acts && a.ownerId == owner && a.date >= now - 7 * SecondsPerDay ==> a in r
    decreases |acts|
  {
    if acts == [] then []
    else
      (if acts[0].ownerId == owner && acts[0].date >= now - 7 * SecondsPerDay then [acts[0]] else [])
      + WeekActivities(acts[1..], owner, now)
  }

  /** Each activity is kept as often as it occurs in the table when it is
      the caller's and dated within the week, and not at all otherwise. */
  lemma {:induction false} WeekActivitiesCounts(acts: seq<Activity>, owner: int, now: int, a: Activity)
    ensures multiset(WeekActivities(acts, owner, now))[a]
      == if a.ownerId == owner && a.date >= now - 7 * SecondsPerDay then multiset(acts)[a] else 0
    decreases |acts|
  {
    if acts != [] {
      assert acts == [acts[0]] + acts[1..];
      WeekActivitiesCounts(acts[1..], owner, now, a);
    }
  }

  /** `sum(a.duration for a in activities)`. */
  function SumDurations(acts: seq<Activity>): int
    decreases |acts|
  {
    if acts == [] then 0 else acts[0].duration + SumDurations(acts[1..])
  }

  /** The sum over two runs of activities is the sum of their sums. */
  lemma {:induction false} SumDurationsAppend(xs: seq<Activity>, ys: seq<Activity>)
    ensures SumDurations(xs + ys) == SumDurations(xs) + SumDurations(ys)
    decreases |xs|
  {
    if xs == [] {
      assert xs + ys == ys;
    } else {
      assert (xs + ys)[1..] == xs[1..] + ys;
      SumDurationsAppend(xs[1..], ys);
    }
  }

  /** The calendar day of each activity, in the given order. */
  function Days(acts: seq<Activity>): (ds: seq<int>)
    ensures |ds| == |acts|
    ensures forall i :: 0 <= i < |acts| ==> ds[i] == Day(acts[i].date)
  {
    seq(|acts|, i requires 0 <= i < |acts| => Day(acts[i].date))
  }

  /** The streak loop on a newest-first list of days, starting from `current`:
      an activity on the current day or the day before extends the streak and
      becomes the current day; any other day ends it. */
  function StreakFrom(days: seq<int>, current: int): (n: nat)
    ensures n <= |days|
    decreases |days|
  {
    if days == [] then 0
    else if current - days[0] == 0 || current - days[0] == 1 then 1 + StreakFrom(days[1..], days[0])
    else 0
  }

  /** The first `k` days form a chain: the first is today or yesterday, and
      each later one is the same day as, or the day before, its predecessor. */
  ghost predicate Chain(days: seq<int>, today: int, k: nat) {
    && k <= |days|
    && (k > 0 ==> today - days[0] == 0 || today - days[0] == 1)
    && (forall i :: 0 < i < k ==> days[i - 1] - days[i] == 0 || days[i - 1] - days[i] == 1)
  }

  /** The streak is the length of the longest chain at the head of the list:
      that prefix is a chain, and the next day, if any, breaks it. */
  lemma {:induction false} StreakIsLongestChain(days: seq<int>, today: int)
    ensures var n := StreakFrom(days, today);
      && Chain(days, today, n)
      && (n < |days| ==>
           || (n == 0 && today - days[0] != 0 && today - days[0] != 1)
           || (n > 0 && days[n - 1] - days[n] != 0 && days[n - 1] - days[n] != 1))
    decreases |days|
  {
    if days != [] && (today - days[0] == 0 || today - days[0] == 1) {
      StreakIsLongestChain(days[1..], days[0]);
      var m := StreakFrom(days[1..], days[0]);
      forall i | 0 < i < m + 1
        ensures days[i - 1] - days[i] == 0 || days[i - 1] - days[i] == 1
      {
        if i > 1 {
          assert days[1..][i - 2] == days[i - 1] && days[1..][i - 1] == days[i];
        }
      }
    }
  }

  /** The streak counts activities, not days: `k` activities today make a
      streak of `k`. */
  lemma {:induction false} StreakCountsActivities(k: nat, today: int)
    ensures StreakFrom(seq(k, _ => today), today) == k
  {
    if k > 0 {
      var days := seq(k, _ => today);
      assert days[1..] == seq(k - 1, _ => today);
      StreakCountsActivities(k - 1, today);
    }
  }

  /** No streak when the newest activity is dated before yesterday or in the
      future. */
  lemma StreakNeedsRecentHead(days: seq<int>, today: int)
    requires days != [] && (days[0] < today - 1 || days[0] > today)
    ensures StreakFrom(days, today) == 0
  {
  }

  /** The object `activity_stats` returns. */
  datatype Stats = Stats(totalMinutes: int, totalActivities: int, caloriesBurned: int, streak: int)

  /** The streak loop of `activity_stats` over activities sorted newest
      first; `current` never increases and the loop stops at the first
      activity more than a day before it. */
  method Streak(all: seq<Activity>, today: int) returns (streak: nat)
    ensures streak == StreakFrom(Days(all), today)
  {
    ghost var days := Days(all);
    streak := 0;
    if |all| > 0 {
      var current := today;
      var i := 0;
      while i < |all|
        invariant 0 <= i <= |all|
        invariant current <= today
        invariant current == if i == 0 then today else days[i - 1]
        invariant streak == i
        invariant StreakFrom(days, today) == i + StreakFrom(days[i..], current)
      {
        var activityDate := Day(all[i].date);
        var daysDiff := current - activityDate;
        if daysDiff == 0 || daysDiff == 1 {
          if activityDate < current {
            current := activityDate;
          }
          streak := streak + 1;
        } else {
          break;
        }
        assert days[i..][1..] == days[i + 1..];
        i := i + 1;
      }
    }
  }

  /** `activity_stats`: totals over the last seven days, and the streak over
      all the caller's activities newest first. */
  method ActivityStats(acts: seq<Activity>, owner: int, now: int) returns (s: Stats)
    ensures var week := WeekActivities(acts, owner, now);
      && s.totalMinutes == SumDurations(week)
      && s.totalActivities == |week|
      && s.caloriesBurned == 6 * s.totalMinutes
    ensures s.streak == StreakFrom(Days(SortDesc(OwnedActivities(acts, owner), ActivityDate)), Day(now))
    ensures 0 <= s.streak <= |OwnedActivities(acts, owner)|
  {
    var week := WeekActivities(acts, owner, now);
    var totalMinutes := SumDurations(week);
    var all := SortDesc(OwnedActivities(acts, owner), ActivityDate);
    var streak := Streak(all, Day(now));
    s := Stats(totalMinutes, |week|, totalMinutes * 6, streak);
  }
}
