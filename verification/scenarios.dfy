/**
 * Whole-system consequences: the hooks wired as src/App.tsx wires them (the
 * engine is fed the pool store's id-free view), applied to the seed catalog
 * and to small concrete pools.
 */
module Scenarios {
  import opened Wrappers
  import opened Entities
  import opened Sampling
  import opened TaskManager
  import Seed
  import TaskPool

  /**
   * With the seeded pool the group caps never bind: every generation picks
   * exactly the 3..5 daily, 1..2 weekly and 0..1 monthly templates the rolls
   * ask for, so 4 to 8 tasks.
   */
  lemma SeedSelectionBounds(ids: nat -> string, d: Draws)
    requires ValidDraws(TaskPool.GetTaskPoolForSelection(TaskPool.DefaultPool(ids)), d)
    ensures var pool := TaskPool.GetTaskPoolForSelection(TaskPool.DefaultPool(ids));
            && DailyCount(pool, d) == DailyTarget(d.dailyRoll) && 3 <= DailyCount(pool, d) <= 5
            && WeeklyCount(pool, d) == WeeklyTarget(d.weeklyRoll) && 1 <= WeeklyCount(pool, d) <= 2
            && MonthlyCount(pool, d) == (if MonthlyDrawn(d.monthlyRoll) then 1 else 0)
            && 4 <= |SelectDailyTasks(pool, d)| <= 8
  {
    TaskPool.ConvertThenView(Seed.TaskPool, ids);
    SeedGroups();
  }

  /** The catalog's frequency groups are its 8 daily, 10 weekly and 10 monthly entries. */
  lemma SeedGroups()
    ensures OfFrequency(Seed.TaskPool, Daily) == Seed.DailySeed && |Seed.DailySeed| == 8
    ensures OfFrequency(Seed.TaskPool, Weekly) == Seed.WeeklySeed && |Seed.WeeklySeed| == 10
    ensures OfFrequency(Seed.TaskPool, Monthly) == Seed.MonthlySeed && |Seed.MonthlySeed| == 10
  {
    Seed.SeedRuns();
    FilterRuns(Seed.DailySeed, Seed.WeeklySeed, Seed.MonthlySeed);
  }

  /** A pool of two daily templates and one weekly one. */
  predicate TwoDailyOneWeekly(pool: seq<Template>) {
    |pool| == 3 && pool[0].frequency == Daily && pool[1].frequency == Daily && pool[2].frequency == Weekly
  }

  /** The groups of such a pool: its first two templates, then its third, then nothing. */
  lemma TwoDailyOneWeeklyGroups(pool: seq<Template>)
    requires TwoDailyOneWeekly(pool)
    ensures OfFrequency(pool, Daily) == pool[..2]
    ensures OfFrequency(pool, Weekly) == pool[2..]
    ensures OfFrequency(pool, Monthly) == []
  {
    FilterRuns(pool[..2], pool[2..], []);
    assert pool[..2] + pool[2..] + [] == pool;
  }

  /**
   * Generating from two daily templates and one weekly one picks both daily
   * templates, in one order or the other, then the weekly one.
   */
  lemma TwoDailyOneWeeklyPicks(pool: seq<Template>, d: Draws)
    requires TwoDailyOneWeekly(pool) && ValidDraws(pool, d)
    ensures var picks := Picks(pool, d);
            && |picks| == 3 && picks[2] == pool[2]
            && (picks[..2] == pool[..2] || picks[..2] == [pool[1], pool[0]])
  {
    TwoDailyPicks(pool, d);
    OneWeeklyPick(pool, d);
    NoMonthlyPick(pool, d);
  }

  /** Both daily templates are picked, in one order or the other. */
  lemma TwoDailyPicks(pool: seq<Template>, d: Draws)
    requires TwoDailyOneWeekly(pool) && ValidDraws(pool, d)
    ensures DailyPicks(pool, d) == pool[..2] || DailyPicks(pool, d) == [pool[1], pool[0]]
  {
    TwoDailyOneWeeklyGroups(pool);
    var daily := DailyPicks(pool, d);
    var order := d.dailyOrder;
    assert order[0] != order[1] && order[0] < 2 && order[1] < 2;
    assert |daily| == 2 && daily[0] == pool[order[0]] && daily[1] == pool[order[1]];
  }

  /** The one weekly template is picked. */
  lemma OneWeeklyPick(pool: seq<Template>, d: Draws)
    requires TwoDailyOneWeekly(pool) && ValidDraws(pool, d)
    ensures WeeklyPicks(pool, d) == [pool[2]]
  {
    TwoDailyOneWeeklyGroups(pool);
    assert d.weeklyOrder[0] == 0;
  }

  /** Nothing monthly is picked. */
  lemma NoMonthlyPick(pool: seq<Template>, d: Draws)
    requires TwoDailyOneWeekly(pool) && ValidDraws(pool, d)
    ensures MonthlyPicks(pool, d) == []
  {
    TwoDailyOneWeeklyGroups(pool);
  }

  /**
   * With no stored record, loading from such a pool stores and shows a record
   * dated today of those three picks as incomplete tasks with the first three
   * supplied ids and creation times, and the record is not all completed.
   */
  lemma TwoDailyOneWeeklySelection(pool: seq<Template>, iso: string, d: Draws)
    requires TwoDailyOneWeekly(pool) && ValidDraws(pool, d)
    ensures var e := LoadTasks(Engine(None, None), pool, iso, d);
            && e.current.Some? && e.stored == e.current
            && e.current.value.date == TodayString(iso) && |e.current.value.tasks| == 3
            && !e.current.value.allCompleted
            && e.current.value.tasks[2].Source() == pool[2]
            && {e.current.value.tasks[0].Source(), e.current.value.tasks[1].Source()} == {pool[0], pool[1]}
            && forall i :: 0 <= i < 3 ==>
                 && e.current.value.tasks[i].id == d.ids(i) && e.current.value.tasks[i].createdAt == d.stamps(i)
                 && !e.current.value.tasks[i].completed
  {
    TwoDailyOneWeeklyPicks(pool, d);
    var picks := Picks(pool, d);
    assert picks[0] == picks[..2][0] && picks[1] == picks[..2][1];
  }

  /**
   * Toggling each of the three generated tasks once, when their ids differ,
   * completes the selection: `allCompleted` becomes true and progress 100.
   */
  lemma TwoDailyOneWeeklyCompleted(pool: seq<Template>, iso: string, d: Draws)
    requires TwoDailyOneWeekly(pool) && ValidDraws(pool, d)
    requires d.ids(0) != d.ids(1) && d.ids(1) != d.ids(2) && d.ids(0) != d.ids(2)
    ensures var e0 := LoadTasks(Engine(None, None), pool, iso, d);
            var e3 := ToggleTaskCompletion(ToggleTaskCompletion(ToggleTaskCompletion(e0, d.ids(0)), d.ids(1)), d.ids(2));
            && e3.current.Some? && e3.current.value.allCompleted
            && Progress(e3) == 100.0
  {
    TwoDailyOneWeeklySelection(pool, iso, d);
    var e0 := LoadTasks(Engine(None, None), pool, iso, d);
    ToggleEachOnce(e0.current.value.tasks);
    ProgressEnds(ToggleTaskCompletion(ToggleTaskCompletion(ToggleTaskCompletion(e0, d.ids(0)), d.ids(1)), d.ids(2)));
  }

  /** Toggling each of three incomplete tasks with distinct ids once completes all of them. */
  lemma ToggleEachOnce(t0: seq<Task>)
    requires |t0| == 3 && forall i :: 0 <= i < 3 ==> !t0[i].completed
    requires t0[0].id != t0[1].id && t0[1].id != t0[2].id && t0[0].id != t0[2].id
    ensures AllCompleted(ToggleTasks(ToggleTasks(ToggleTasks(t0, t0[0].id), t0[1].id), t0[2].id))
  {
    var t1 := ToggleTasks(t0, t0[0].id);
    ToggleUniqueId(t0, 0);
    var t2 := ToggleTasks(t1, t0[1].id);
    assert t1[1].id == t0[1].id;
    ToggleUniqueId(t1, 1);
    var t3 := ToggleTasks(t2, t0[2].id);
    assert t2[2].id == t0[2].id;
    ToggleUniqueId(t2, 2);
    assert t3[0].completed && t3[1].completed && t3[2].completed;
  }

  /** A selection of two tasks, one of them completed, is at 50 percent. */
  lemma ProgressHalf(day: string, done: Task, open: Task, flag: bool)
    requires done.completed && !open.completed
    ensures Progress(Engine(None, Some(DailyTasks(day, [done, open], flag)))) == 50.0
  {
    assert CompletedCount([done, open]) == 1 by {
      assert [done, open][1..] == [open];
    }
  }
}
