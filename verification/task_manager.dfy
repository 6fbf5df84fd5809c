/**
 * The daily selection engine of src/hooks/useTaskManager.ts.
 *
 * The hook's state becomes an `Engine` record: `stored` is the value under the
 * `daily-tasks` storage key (already parsed), `current` is the in-memory
 * selection. The platform inputs are parameters: the ISO timestamp that
 * `new Date().toISOString()` would return, and a `Draws` record holding what
 * `Math.random()`, the shuffle, `generateTaskId` and `new Date()` would supply.
 */
module TaskManager {
  import opened Wrappers
  import opened Entities
  import opened Sampling

  /** `getTodayString`: the part of an ISO timestamp before the first `T` (`split('T')[0]`). */
  function TodayString(iso: string): (day: string)
    ensures |day| <= |iso| && day == iso[..|day|]
    ensures 'T' !in day
    ensures |day| < |iso| ==> iso[|day|] == 'T'
  {
    if |iso| == 0 || iso[0] == 'T' then "" else [iso[0]] + TodayString(iso[1..])
  }

  /** `pool.filter(task => task.frequency === f)`. */
  function OfFrequency(pool: seq<Template>, f: Frequency): (r: seq<Template>)
    ensures |r| <= |pool|
    ensures forall i :: 0 <= i < |r| ==> r[i].frequency == f
  {
    if |pool| == 0 then []
    else (if pool[0].frequency == f then [pool[0]] else []) + OfFrequency(pool[1..], f)
  }

  /** A template is in the group of `f` exactly when it is in the pool with frequency `f`. */
  lemma {:induction false} OfFrequencyMembers(pool: seq<Template>, f: Frequency, t: Template)
    ensures t in OfFrequency(pool, f) <==> t in pool && t.frequency == f
  {
    if |pool| > 0 {
      OfFrequencyMembers(pool[1..], f, t);
      assert pool == [pool[0]] + pool[1..];
    }
  }

  /** Filtering distributes over concatenation. */
  lemma {:induction false} OfFrequencyAppend(a: seq<Template>, b: seq<Template>, f: Frequency)
    ensures OfFrequency(a + b, f) == OfFrequency(a, f) + OfFrequency(b, f)
  {
    if |a| > 0 {
      var head := if a[0].frequency == f then [a[0]] else [];
      assert (a + b)[0] == a[0];
      assert (a + b)[1..] == a[1..] + b;
      assert OfFrequency(a + b, f) == head + OfFrequency(a[1..] + b, f);
      OfFrequencyAppend(a[1..], b, f);
      assert OfFrequency(a, f) == head + OfFrequency(a[1..], f);
    } else {
      assert a + b == b;
    }
  }

  /** The three frequency groups together hold exactly the pool's templates. */
  lemma {:induction false} GroupsPartitionPool(pool: seq<Template>)
    ensures multiset(OfFrequency(pool, Daily)) + multiset(OfFrequency(pool, Weekly))
            + multiset(OfFrequency(pool, Monthly)) == multiset(pool)
  {
    if |pool| > 0 {
      var t, rest := pool[0], pool[1..];
      GroupsPartitionPool(rest);
      assert multiset(pool) == multiset{t} + multiset(rest) by {
        assert pool == [t] + rest;
      }
      GroupStep(pool, Daily);
      GroupStep(pool, Weekly);
      GroupStep(pool, Monthly);
      RegroupHead(t, multiset(OfFrequency(rest, Daily)), multiset(OfFrequency(rest, Weekly)),
                  multiset(OfFrequency(rest, Monthly)));
    }
  }

  /** Splitting off the pool's first template from one group. */
  lemma GroupStep(pool: seq<Template>, f: Frequency)
    requires |pool| > 0
    ensures multiset(OfFrequency(pool, f)) == Only(pool[0], f) + multiset(OfFrequency(pool[1..], f))
  {
  }

  /** `t` alone when it has frequency `f`, nothing otherwise. */
  function Only(t: Template, f: Frequency): (m: multiset<Template>) {
    if t.frequency == f then multiset{t} else multiset{}
  }

  /** The first template lands in exactly one of the three groups. */
  lemma RegroupHead(t: Template, dm: multiset<Template>, wm: multiset<Template>, mm: multiset<Template>)
    ensures (Only(t, Daily) + dm) + (Only(t, Weekly) + wm) + (Only(t, Monthly) + mm) == multiset{t} + (dm + wm + mm)
  {
  }

  /**
   * What the platform would supply to one generation: the three `Math.random()`
   * rolls that fix the group sizes, the order each group's shuffle produces, and
   * the id and creation time of the n-th generated task.
   */
  datatype Draws = Draws(
    weeklyRoll: real,
    monthlyRoll: real,
    dailyRoll: real,
    weeklyOrder: seq<nat>,
    monthlyOrder: seq<nat>,
    dailyOrder: seq<nat>,
    ids: nat -> string,
    stamps: nat -> Instant)

  /** A roll is a value `Math.random()` can return. */
  predicate IsRoll(x: real) {
    0.0 <= x < 1.0
  }

  /** Draws the platform could produce for `pool`: rolls in [0, 1) and one permutation per group. */
  predicate ValidDraws(pool: seq<Template>, d: Draws) {
    && IsRoll(d.weeklyRoll) && IsRoll(d.monthlyRoll) && IsRoll(d.dailyRoll)
    && IsPermutation(d.dailyOrder, |OfFrequency(pool, Daily)|)
    && IsPermutation(d.weeklyOrder, |OfFrequency(pool, Weekly)|)
    && IsPermutation(d.monthlyOrder, |OfFrequency(pool, Monthly)|)
  }

  /** `Math.random() > 0.5 ? 2 : 1`: how many weekly tasks are asked for. */
  function WeeklyTarget(roll: real): (n: nat)
    ensures 1 <= n <= 2
    ensures n == 2 <==> roll > 0.5
  {
    if roll > 0.5 then 2 else 1
  }

  /** `Math.random() > 0.7`: whether a monthly task is drawn at all. */
  predicate MonthlyDrawn(roll: real) {
    roll > 0.7
  }

  /** `3 + Math.floor(Math.random() * 3)`: how many daily tasks are asked for. */
  function DailyTarget(roll: real): (n: int)
    requires IsRoll(roll)
    ensures 3 <= n <= 5
    ensures (n - 3) as real <= roll * 3.0 < (n - 2) as real
  {
    3 + (roll * 3.0).Floor
  }

  /**
   * The daily picks: a shuffled prefix of length `min(|daily|, 3 + r)`, all
   * daily, each drawn from the daily group no more often than it occurs there.
   */
  function DailyPicks(pool: seq<Template>, d: Draws): (r: seq<Template>)
    requires ValidDraws(pool, d)
    ensures |r| == DailyCount(pool, d)
    ensures AllOfFrequency(r, Daily)
    ensures multiset(r) <= multiset(OfFrequency(pool, Daily))
  {
    var daily := OfFrequency(pool, Daily);
    GroupPicksHaveFrequency(pool, Daily, DailyCount(pool, d), d.dailyOrder);
    RandomTasks(daily, Min(|daily|, DailyTarget(d.dailyRoll)), d.dailyOrder)
  }

  /** The weekly picks: a shuffled prefix of one or two weekly templates. */
  function WeeklyPicks(pool: seq<Template>, d: Draws): (r: seq<Template>)
    requires ValidDraws(pool, d)
    ensures |r| == WeeklyCount(pool, d)
    ensures AllOfFrequency(r, Weekly)
    ensures multiset(r) <= multiset(OfFrequency(pool, Weekly))
  {
    GroupPicksHaveFrequency(pool, Weekly, WeeklyTarget(d.weeklyRoll), d.weeklyOrder);
    RandomTasks(OfFrequency(pool, Weekly), WeeklyTarget(d.weeklyRoll), d.weeklyOrder)
  }

  /**
   * The monthly picks: one shuffled monthly template when the roll exceeds 0.7
   * and the monthly group is not empty, nothing otherwise.
   */
  function MonthlyPicks(pool: seq<Template>, d: Draws): (r: seq<Template>)
    requires ValidDraws(pool, d)
    ensures |r| == MonthlyCount(pool, d)
    ensures AllOfFrequency(r, Monthly)
    ensures multiset(r) <= multiset(OfFrequency(pool, Monthly))
  {
    if MonthlyDrawn(d.monthlyRoll) then
      GroupPicksHaveFrequency(pool, Monthly, 1, d.monthlyOrder);
      RandomTasks(OfFrequency(pool, Monthly), 1, d.monthlyOrder)
    else
      []
  }

  /** A run of frequency `f` filters to itself for `f` and to nothing for the other frequencies. */
  lemma {:induction false} FilterUniform(s: seq<Template>, f: Frequency, g: Frequency)
    requires AllOfFrequency(s, f)
    ensures OfFrequency(s, g) == if f == g then s else []
  {
    if |s| > 0 {
      FilterUniform(s[1..], f, g);
      assert s == [s[0]] + s[1..];
    }
  }

  /** Filtering a daily, a weekly and a monthly run recovers each run. */
  lemma FilterRuns(a: seq<Template>, b: seq<Template>, c: seq<Template>)
    requires AllOfFrequency(a, Daily)
    requires AllOfFrequency(b, Weekly)
    requires AllOfFrequency(c, Monthly)
    ensures OfFrequency(a + b + c, Daily) == a
    ensures OfFrequency(a + b + c, Weekly) == b
    ensures OfFrequency(a + b + c, Monthly) == c
  {
    OfFrequencyAppend3(a, b, c, Daily);
    FilterUniform(a, Daily, Daily);
    FilterUniform(b, Weekly, Daily);
    FilterUniform(c, Monthly, Daily);
    assert a + [] + [] == a;
    OfFrequencyAppend3(a, b, c, Weekly);
    FilterUniform(a, Daily, Weekly);
    FilterUniform(b, Weekly, Weekly);
    FilterUniform(c, Monthly, Weekly);
    assert [] + b + [] == b;
    OfFrequencyAppend3(a, b, c, Monthly);
    FilterUniform(a, Daily, Monthly);
    FilterUniform(b, Weekly, Monthly);
    FilterUniform(c, Monthly, Monthly);
    assert [] + [] + c == c;
  }

  /** Filtering three runs one after another filters each of them. */
  lemma OfFrequencyAppend3(a: seq<Template>, b: seq<Template>, c: seq<Template>, f: Frequency)
    ensures OfFrequency(a + b + c, f) == OfFrequency(a, f) + OfFrequency(b, f) + OfFrequency(c, f)
  {
    OfFrequencyAppend(a + b, c, f);
    OfFrequencyAppend(a, b, f);
  }

  /** How many daily templates a generation picks. */
  function DailyCount(pool: seq<Template>, d: Draws): (n: nat)
    requires IsRoll(d.dailyRoll)
    ensures n <= |OfFrequency(pool, Daily)| && n <= 5
  {
    Min(|OfFrequency(pool, Daily)|, DailyTarget(d.dailyRoll))
  }

  /** How many weekly templates a generation picks. */
  function WeeklyCount(pool: seq<Template>, d: Draws): (n: nat)
    ensures n <= |OfFrequency(pool, Weekly)| && n <= 2
  {
    Min(|OfFrequency(pool, Weekly)|, WeeklyTarget(d.weeklyRoll))
  }

  /** How many monthly templates a generation picks. */
  function MonthlyCount(pool: seq<Template>, d: Draws): (n: nat)
    ensures n <= |OfFrequency(pool, Monthly)| && n <= 1
    ensures n == 1 <==> MonthlyDrawn(d.monthlyRoll) && |OfFrequency(pool, Monthly)| > 0
  {
    if MonthlyDrawn(d.monthlyRoll) then Min(|OfFrequency(pool, Monthly)|, 1) else 0
  }

  /** Every pick drawn from the group of frequency `f` has frequency `f`. */
  lemma GroupPicksHaveFrequency(pool: seq<Template>, f: Frequency, count: nat, order: seq<nat>)
    requires IsPermutation(order, |OfFrequency(pool, f)|)
    ensures AllOfFrequency(RandomTasks(OfFrequency(pool, f), count, order), f)
  {
    var group := OfFrequency(pool, f);
    var r := RandomTasks(group, count, order);
    forall i | 0 <= i < |r| ensures r[i].frequency == f {
      assert r[i] == group[order[i]];
    }
  }

  /**
   * The templates `selectDailyTasks` chooses, before they become task
   * instances: `DailyCount` daily templates, then `WeeklyCount` weekly ones,
   * then `MonthlyCount` monthly ones.
   */
  function Picks(pool: seq<Template>, d: Draws): (r: seq<Template>)
    requires ValidDraws(pool, d)
    ensures var nd, nw := DailyCount(pool, d), WeeklyCount(pool, d);
            && |r| == nd + nw + MonthlyCount(pool, d)
            && (forall i :: 0 <= i < nd ==> r[i].frequency == Daily)
            && (forall i :: nd <= i < nd + nw ==> r[i].frequency == Weekly)
            && (forall i :: nd + nw <= i < |r| ==> r[i].frequency == Monthly)
  {
    var daily, weekly, monthly := DailyPicks(pool, d), WeeklyPicks(pool, d), MonthlyPicks(pool, d);
    Runs(daily, weekly, monthly);
    daily + weekly + monthly
  }

  /** Concatenating a daily, a weekly and a monthly run keeps the three runs apart. */
  lemma Runs(a: seq<Template>, b: seq<Template>, c: seq<Template>)
    requires AllOfFrequency(a, Daily) && AllOfFrequency(b, Weekly) && AllOfFrequency(c, Monthly)
    ensures var r := a + b + c;
            && (forall i :: 0 <= i < |a| ==> r[i].frequency == Daily)
            && (forall i :: |a| <= i < |a| + |b| ==> r[i].frequency == Weekly)
            && (forall i :: |a| + |b| <= i < |r| ==> r[i].frequency == Monthly)
  {
    var r := a + b + c;
    forall i | |a| <= i < |a| + |b| ensures r[i].frequency == Weekly {
      assert r[i] == b[i - |a|];
    }
    forall i | |a| + |b| <= i < |r| ensures r[i].frequency == Monthly {
      assert r[i] == c[i - |a| - |b|];
    }
  }

  /** No template is picked more often than the pool holds it. */
  lemma PicksSubMultiset(pool: seq<Template>, d: Draws)
    requires ValidDraws(pool, d)
    ensures multiset(Picks(pool, d)) <= multiset(pool)
  {
    var daily, weekly, monthly := DailyPicks(pool, d), WeeklyPicks(pool, d), MonthlyPicks(pool, d);
    GroupsPartitionPool(pool);
    assert multiset(Picks(pool, d)) == multiset(daily) + multiset(weekly) + multiset(monthly);
  }

  /**
   * Group sizes never exceed 5 daily, 2 weekly and 1 monthly, so a selection
   * holds at most 8 tasks; the daily size is the roll's 3..5 whenever the daily
   * group is large enough, and likewise for the other groups.
   */
  lemma GroupSizeBounds(pool: seq<Template>, d: Draws)
    requires ValidDraws(pool, d)
    ensures 0 <= DailyCount(pool, d) <= 5 && WeeklyCount(pool, d) <= 2 && MonthlyCount(pool, d) <= 1
    ensures |Picks(pool, d)| <= 8
    ensures |OfFrequency(pool, Daily)| >= 5 ==> DailyCount(pool, d) == DailyTarget(d.dailyRoll)
    ensures |OfFrequency(pool, Weekly)| >= 2 ==> WeeklyCount(pool, d) == WeeklyTarget(d.weeklyRoll)
    ensures |OfFrequency(pool, Monthly)| >= 1 ==> (MonthlyCount(pool, d) == 1 <==> MonthlyDrawn(d.monthlyRoll))
  {
  }

  /**
   * Turns the picks into task instances: the n-th pick gets the n-th supplied
   * id and creation time, copies its template's fields, and starts incomplete.
   */
  function Materialise(picks: seq<Template>, ids: nat -> string, stamps: nat -> Instant): (r: seq<Task>)
    ensures |r| == |picks|
    ensures forall i :: 0 <= i < |r| ==>
              r[i].Source() == picks[i] && !r[i].completed && r[i].id == ids(i) && r[i].createdAt == stamps(i)
  {
    seq(|picks|, i requires 0 <= i < |picks| =>
      Task(ids(i), picks[i].name, picks[i].description, picks[i].frequency, false, stamps(i)))
  }

  /** `selectDailyTasks`: the picks as fresh, incomplete task instances. */
  function SelectDailyTasks(pool: seq<Template>, d: Draws): (r: seq<Task>)
    requires ValidDraws(pool, d)
    ensures |r| == |Picks(pool, d)|
    ensures forall i :: 0 <= i < |r| ==>
              r[i].Source() == Picks(pool, d)[i] && !r[i].completed && r[i].id == d.ids(i) && r[i].createdAt == d.stamps(i)
    ensures forall i :: 0 <= i < |r| ==> r[i].Source() in pool
  {
    var picks := Picks(pool, d);
    PicksSubMultiset(pool, d);
    assert forall i :: 0 <= i < |picks| ==> picks[i] in multiset(picks);
    Materialise(picks, d.ids, d.stamps)
  }

  /**
   * The hook's state: `stored` is the record under the `daily-tasks` key (the
   * model takes it as already parsed), `current` the in-memory selection
   * (`null` is `None`).
   */
  datatype Engine = Engine(stored: Option<DailyTasks>, current: Option<DailyTasks>)

  /** The stored record belongs to `today`, so `loadTasks` takes the cache path. */
  predicate CacheHit(e: Engine, today: string) {
    e.stored.Some? && e.stored.value.date == today
  }

  /**
   * `loadTasks`: reuse the stored record when it is dated today (UTC, from
   * `toISOString`), otherwise generate and store a fresh record when the pool
   * is non-empty, otherwise leave everything as it is.
   */
  function LoadTasks(e: Engine, pool: seq<Template>, iso: string, d: Draws): (r: Engine)
    requires ValidDraws(pool, d)
    ensures CacheHit(e, TodayString(iso)) ==> r.stored == e.stored && r.current == e.stored
    ensures !CacheHit(e, TodayString(iso)) && |pool| == 0 ==> r == e
    ensures !CacheHit(e, TodayString(iso)) && |pool| > 0 ==>
              && r.stored == r.current && r.current.Some?
              && r.current.value.date == TodayString(iso)
              && r.current.value.tasks == SelectDailyTasks(pool, d)
              && !r.current.value.allCompleted
  {
    var today := TodayString(iso);
    if CacheHit(e, today) then
      Engine(e.stored, e.stored)
    else if |pool| == 0 then
      e
    else
      var generated := DailyTasks(today, SelectDailyTasks(pool, d), false);
      Engine(Some(generated), Some(generated))
  }

  /** The record's `allCompleted` flag agrees with its tasks. */
  predicate Consistent(rec: DailyTasks) {
    rec.allCompleted == AllCompleted(rec.tasks)
  }

  /**
   * The tasks after `toggleTaskCompletion(id)`: every task whose id is `id`
   * has its flag flipped, all others are kept.
   */
  function ToggleTasks(tasks: seq<Task>, id: string): (r: seq<Task>)
    ensures |r| == |tasks|
    ensures forall i :: 0 <= i < |r| ==>
              && r[i].(completed := tasks[i].completed) == tasks[i]
              && (r[i].completed != tasks[i].completed <==> tasks[i].id == id)
  {
    seq(|tasks|, i requires 0 <= i < |tasks| =>
      if tasks[i].id == id then tasks[i].(completed := !tasks[i].completed) else tasks[i])
  }

  /**
   * `toggleTaskCompletion(id)`: without a selection nothing happens; otherwise
   * the flags of the matching tasks flip, `allCompleted` is recomputed, and the
   * updated record is both stored and kept in memory, even when no task matched.
   */
  function ToggleTaskCompletion(e: Engine, id: string): (r: Engine)
    ensures e.current.None? ==> r == e
    ensures e.current.Some? ==>
              && r.current.Some? && r.stored == r.current
              && Consistent(r.current.value)
              && r.current.value.date == e.current.value.date
              && r.current.value.tasks == ToggleTasks(e.current.value.tasks, id)
  {
    match e.current
    case None => e
    case Some(rec) =>
      var tasks := ToggleTasks(rec.tasks, id);
      var updated := rec.(tasks := tasks, allCompleted := AllCompleted(tasks));
      Engine(Some(updated), Some(updated))
  }

  /** How many of `tasks` are completed (`tasks.filter(task => task.completed).length`). */
  function CompletedCount(tasks: seq<Task>): (n: nat)
    ensures n <= |tasks|
    ensures n == |tasks| <==> AllCompleted(tasks)
    ensures n == 0 <==> forall i :: 0 <= i < |tasks| ==> !tasks[i].completed
  {
    if |tasks| == 0 then 0
    else (if tasks[0].completed then 1 else 0) + CompletedCount(tasks[1..])
  }

  /**
   * `getProgress`: the percentage of completed tasks, or 0 when there is no
   * selection or it has no tasks; it never divides by zero.
   */
  function Progress(e: Engine): (p: real)
    ensures 0.0 <= p <= 100.0
    ensures e.current.None? || |e.current.value.tasks| == 0 ==> p == 0.0
    ensures e.current.Some? && |e.current.value.tasks| > 0 ==>
              IsPercentOf(p, CompletedCount(e.current.value.tasks), |e.current.value.tasks|)
  {
    if e.current.None? || |e.current.value.tasks| == 0 then 0.0
    else
      var tasks := e.current.value.tasks;
      Percent(CompletedCount(tasks), |tasks|)
  }

  /** Progress is 100 exactly when every task is done, and 0 exactly when none is. */
  lemma ProgressEnds(e: Engine)
    requires e.current.Some? && |e.current.value.tasks| > 0
    ensures Progress(e) == 100.0 <==> AllCompleted(e.current.value.tasks)
    ensures Progress(e) == 0.0 <==> forall i :: 0 <= i < |e.current.value.tasks| ==> !e.current.value.tasks[i].completed
  {
    var tasks := e.current.value.tasks;
    assert Progress(e) == Percent(CompletedCount(tasks), |tasks|);
  }

  /** `p` is `c` out of `n` as a percentage: `p * n == 100 * c`. */
  predicate IsPercentOf(p: real, c: nat, n: nat) {
    p * n as real == 100.0 * c as real
  }

  /** `c / n * 100`: in [0, 100], reaching its ends exactly at `c == 0` and `c == n`. */
  function Percent(c: nat, n: nat): (p: real)
    requires 0 < n && c <= n
    ensures 0.0 <= p <= 100.0
    ensures IsPercentOf(p, c, n)
    ensures p == 100.0 <==> c == n
    ensures p == 0.0 <==> c == 0
  {
    var q := c as real / n as real;
    Ratio(c as real, n as real);
    q * 100.0
  }

  /** The ratio `c / m` of `0 <= c <= m` lies in [0, 1] and is 0 or 1 exactly at the ends. */
  lemma Ratio(c: real, m: real)
    requires 0.0 <= c <= m && 0.0 < m
    ensures var q := c / m;
            && q * m == c && 0.0 <= q <= 1.0
            && (q == 0.0 <==> c == 0.0) && (q == 1.0 <==> c == m)
  {
    var q := c / m;
    assert q * m == c;
  }

  /** `refreshTasks`: drop the stored record, then load, so the cache is never used. */
  function RefreshTasks(e: Engine, pool: seq<Template>, iso: string, d: Draws): (r: Engine)
    requires ValidDraws(pool, d)
    ensures |pool| == 0 ==> r.stored.None? && r.current == e.current
    ensures |pool| > 0 ==>
              && r.stored == r.current && r.current.Some?
              && r.current.value == DailyTasks(TodayString(iso), SelectDailyTasks(pool, d), false)
  {
    LoadTasks(e.(stored := None), pool, iso, d)
  }

  /**
   * Loading twice on the same UTC day gives what loading once gave: the first
   * call either hit the cache, stored a record dated today, or found nothing
   * to do, and the second call then does the same.
   */
  lemma LoadTasksIdempotent(e: Engine, pool: seq<Template>, iso1: string, iso2: string, d1: Draws, d2: Draws)
    requires ValidDraws(pool, d1) && ValidDraws(pool, d2)
    requires TodayString(iso1) == TodayString(iso2)
    ensures LoadTasks(LoadTasks(e, pool, iso1, d1), pool, iso2, d2) == LoadTasks(e, pool, iso1, d1)
  {
  }

  /** On a cache hit neither the pool nor the draws matter: later pool edits never alter today's selection. */
  lemma CacheHitIgnoresPool(e: Engine, pool1: seq<Template>, pool2: seq<Template>, iso: string, d1: Draws, d2: Draws)
    requires ValidDraws(pool1, d1) && ValidDraws(pool2, d2)
    requires CacheHit(e, TodayString(iso))
    ensures LoadTasks(e, pool1, iso, d1) == LoadTasks(e, pool2, iso, d2)
    ensures LoadTasks(e, pool1, iso, d1).current == e.stored
  {
  }

  /**
   * A freshly generated record says "not all completed"; that agrees with its
   * tasks exactly when it has some, since `every` holds of an empty list.
   */
  lemma FreshRecordConsistency(e: Engine, pool: seq<Template>, iso: string, d: Draws)
    requires ValidDraws(pool, d)
    requires !CacheHit(e, TodayString(iso)) && |pool| > 0
    ensures Consistent(LoadTasks(e, pool, iso, d).current.value) <==> |Picks(pool, d)| > 0
  {
    var tasks := SelectDailyTasks(pool, d);
    if |tasks| > 0 {
      assert !tasks[0].completed;
    }
  }

  /**
   * A non-empty pool can still yield an empty selection: a pool holding only a
   * monthly template, with a monthly roll of at most 0.7.
   */
  lemma NonEmptyPoolEmptySelection(t: Template, d: Draws)
    requires t.frequency == Monthly
    requires ValidDraws([t], d) && !MonthlyDrawn(d.monthlyRoll)
    ensures SelectDailyTasks([t], d) == []
  {
    assert OfFrequency([t], Daily) == [] by {
      assert [t][1..] == [];
    }
    assert OfFrequency([t], Weekly) == [] by {
      assert [t][1..] == [];
    }
  }

  /** Toggling the same id twice restores the tasks. */
  lemma {:induction false} ToggleTasksInvolutive(tasks: seq<Task>, id: string)
    ensures ToggleTasks(ToggleTasks(tasks, id), id) == tasks
  {
    var once := ToggleTasks(tasks, id);
    var twice := ToggleTasks(once, id);
    forall i | 0 <= i < |tasks| ensures twice[i] == tasks[i] {
      assert once[i].id == tasks[i].id by {
        assert once[i].(completed := tasks[i].completed) == tasks[i];
      }
      assert twice[i].(completed := once[i].completed) == once[i];
    }
  }

  /** Toggling an id no task has leaves the tasks as they are. */
  lemma ToggleUnknownId(tasks: seq<Task>, id: string)
    requires forall i :: 0 <= i < |tasks| ==> tasks[i].id != id
    ensures ToggleTasks(tasks, id) == tasks
  {
    var r := ToggleTasks(tasks, id);
    forall i | 0 <= i < |tasks| ensures r[i] == tasks[i] {
      assert r[i].(completed := tasks[i].completed) == tasks[i];
    }
  }

  /** Toggling the id of exactly one task flips that task's flag and nothing else. */
  lemma ToggleUniqueId(tasks: seq<Task>, k: nat)
    requires k < |tasks|
    requires forall i :: 0 <= i < |tasks| && i != k ==> tasks[i].id != tasks[k].id
    ensures ToggleTasks(tasks, tasks[k].id) == tasks[k := tasks[k].(completed := !tasks[k].completed)]
  {
    var r := ToggleTasks(tasks, tasks[k].id);
    forall i | 0 <= i < |tasks| ensures r[i] == tasks[k := tasks[k].(completed := !tasks[k].completed)][i] {
      assert r[i].(completed := tasks[i].completed) == tasks[i];
    }
  }

  /**
   * Toggling the same id twice brings back the selection; when its flag was
   * consistent to begin with, the whole record is back, now also stored.
   */
  lemma ToggleTwice(e: Engine, id: string)
    requires e.current.Some?
    ensures var r := ToggleTaskCompletion(ToggleTaskCompletion(e, id), id);
            && r.current.value.tasks == e.current.value.tasks
            && r.current.value.date == e.current.value.date
            && (Consistent(e.current.value) ==> r == Engine(e.current, e.current))
  {
    ToggleTasksInvolutive(e.current.value.tasks, id);
  }
}
