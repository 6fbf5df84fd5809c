/**
 * The built-in catalog of src/data/taskPool.ts: 28 templates, built with
 * `createTask`, listed as eight daily, ten weekly and ten monthly entries.
 */
module Seed {
  import opened Wrappers
  import opened Entities
  import opened Text

  /** `createTask(name, frequency, description)`: a template holding exactly its arguments. */
  function CreateTask(name: string, frequency: Frequency, description: Option<string>): (t: Template)
    ensures t.name == name && t.frequency == frequency && t.description == description
  {
    Template(name, description, frequency)
  }

  /** The daily entries of `TASK_POOL`. */
  const DailySeed: seq<Template> := [
    CreateTask("Drink 8 glasses of water", Daily, Some("Stay hydrated throughout the day")),
    CreateTask("Take a 10-minute walk", Daily, Some("Get some fresh air and light exercise")),
    CreateTask("Read for 15 minutes", Daily, Some("Expand your knowledge or enjoy fiction")),
    CreateTask("Practice gratitude", Daily, Some("Write down 3 things you're grateful for")),
    CreateTask("Meditate for 5 minutes", Daily, Some("Take time to center yourself")),
    CreateTask("Tidy up your workspace", Daily, Some("Keep your environment organized")),
    CreateTask("Do 20 pushups or stretches", Daily, Some("Keep your body active")),
    CreateTask("Plan tomorrow's priorities", Daily, Some("Set yourself up for success"))
  ]

  /** The weekly entries of `TASK_POOL`. */
  const WeeklySeed: seq<Template> := [
    CreateTask("Deep clean one room", Weekly, Some("Focus on thoroughly cleaning one area")),
    CreateTask("Call a friend or family member", Weekly, Some("Maintain important relationships")),
    CreateTask("Try a new recipe", Weekly, Some("Explore different cuisines and flavors")),
    CreateTask("Review and organize finances", Weekly, Some("Check budgets and expenses")),
    CreateTask("Learn something new online", Weekly, Some("Take a course or watch educational content")),
    CreateTask("Go for a nature walk or hike", Weekly, Some("Connect with the outdoors")),
    CreateTask("Declutter a drawer or closet", Weekly, Some("Organize and donate unused items")),
    CreateTask("Write in a journal", Weekly, Some("Reflect on your thoughts and experiences")),
    CreateTask("Practice a hobby or skill", Weekly, Some("Dedicate time to something you enjoy")),
    CreateTask("Plan a future adventure", Weekly, Some("Research and plan an upcoming trip or activity"))
  ]

  /** The monthly entries of `TASK_POOL`. */
  const MonthlySeed: seq<Template> := [
    CreateTask("Deep clean and organize home", Monthly, Some("Complete thorough cleaning session")),
    CreateTask("Review and update goals", Monthly, Some("Assess progress and adjust objectives")),
    CreateTask("Backup important files", Monthly, Some("Secure your digital data")),
    CreateTask("Schedule health checkups", Monthly, Some("Maintain your physical health")),
    CreateTask("Review subscriptions and memberships", Monthly, Some("Cancel unused services")),
    CreateTask("Plan next month's budget", Monthly, Some("Set financial goals and limits")),
    CreateTask("Update resume or LinkedIn", Monthly, Some("Keep professional profiles current")),
    CreateTask("Try a new activity or experience", Monthly, Some("Step out of your comfort zone")),
    CreateTask("Reconnect with old friends", Monthly, Some("Reach out to people you haven't spoken to")),
    CreateTask("Donate items you no longer need", Monthly, Some("Give back to the community"))
  ]

  /** `TASK_POOL`: the daily, weekly and monthly entries in that order. */
  const TaskPool: seq<Template> := DailySeed + WeeklySeed + MonthlySeed

  /**
   * The catalog has 28 entries, grouped contiguously: positions 0..7 daily,
   * 8..17 weekly, 18..27 monthly.
   */
  lemma SeedLayout()
    ensures |TaskPool| == 28
    ensures forall i :: 0 <= i < 8 ==> TaskPool[i].frequency == Daily
    ensures forall i :: 8 <= i < 18 ==> TaskPool[i].frequency == Weekly
    ensures forall i :: 18 <= i < 28 ==> TaskPool[i].frequency == Monthly
  {
    forall i | 0 <= i < 8 ensures TaskPool[i].frequency == Daily {
      assert TaskPool[i] == DailySeed[i];
    }
    forall i | 8 <= i < 18 ensures TaskPool[i].frequency == Weekly {
      assert TaskPool[i] == WeeklySeed[i - 8];
    }
    forall i | 18 <= i < 28 ensures TaskPool[i].frequency == Monthly {
      assert TaskPool[i] == MonthlySeed[i - 18];
    }
  }

  /** Each of the three runs holds templates of one frequency only. */
  lemma SeedRuns()
    ensures AllOfFrequency(DailySeed, Daily)
    ensures AllOfFrequency(WeeklySeed, Weekly)
    ensures AllOfFrequency(MonthlySeed, Monthly)
  {
  }

  /** Every entry has a non-empty name and a present, non-empty description. */
  lemma SeedFields()
    ensures forall i :: 0 <= i < |TaskPool| ==>
              TaskPool[i].name != "" && TaskPool[i].description.Some? && TaskPool[i].description.value != ""
  {
  }

  /** Name and description (when present) carry no surrounding white space. */
  predicate TrimmedEntry(t: Template) {
    Trimmed(t.name) && (t.description.Some? ==> Trimmed(t.description.value))
  }

  /**
   * Every entry's name and description are already trimmed, so storing the
   * catalog through the add form would leave it unchanged.
   */
  lemma SeedTrimmed()
    ensures forall i :: 0 <= i < |TaskPool| ==> TrimmedEntry(TaskPool[i])
  {
    DailyHeadTrimmed();
    DailyTailTrimmed();
    WeeklyHeadTrimmed();
    WeeklyMiddleTrimmed();
    WeeklyLongTrimmed();
    MonthlyHeadTrimmed();
    MonthlyTailTrimmed();
    forall i | 0 <= i < |TaskPool| ensures TrimmedEntry(TaskPool[i]) {
      if i < 8 {
        assert TaskPool[i] == DailySeed[i];
      } else if i < 18 {
        assert TaskPool[i] == WeeklySeed[i - 8];
      } else {
        assert TaskPool[i] == MonthlySeed[i - 18];
      }
    }
  }

  /** The first four daily entries are trimmed. */
  lemma DailyHeadTrimmed()
    ensures forall i :: 0 <= i < 4 ==> TrimmedEntry(DailySeed[i])
  {
  }

  /** The last four daily entries are trimmed. */
  lemma DailyTailTrimmed()
    ensures forall i :: 4 <= i < 8 ==> TrimmedEntry(DailySeed[i])
  {
  }

  /** Weekly entries 0 to 3 are trimmed. */
  lemma WeeklyHeadTrimmed()
    ensures forall i :: 0 <= i < 4 ==> TrimmedEntry(WeeklySeed[i])
  {
  }

  /** Weekly entries 5 to 8 are trimmed. */
  lemma WeeklyMiddleTrimmed()
    ensures forall i :: 5 <= i < 9 ==> TrimmedEntry(WeeklySeed[i])
  {
  }

  /** Weekly entries 4 and 9, whose descriptions are the two longest literals, are trimmed. */
  lemma WeeklyLongTrimmed()
    ensures TrimmedEntry(WeeklySeed[4]) && TrimmedEntry(WeeklySeed[9])
  {
    LongHead(WeeklySeed[4].description.value, "Take a course or watch");
    LongHead(WeeklySeed[9].description.value, "Research and plan an");
  }

  /** The first five monthly entries are trimmed. */
  lemma MonthlyHeadTrimmed()
    ensures forall i :: 0 <= i < 5 ==> TrimmedEntry(MonthlySeed[i])
  {
  }

  /** The last five monthly entries are trimmed. */
  lemma MonthlyTailTrimmed()
    ensures forall i :: 5 <= i < 10 ==> TrimmedEntry(MonthlySeed[i])
  {
  }

  /**
   * The first character of a literal, read off a shorter prefix of it: the
   * solver does not reach the first character of a literal of more than about
   * forty characters on its own.
   */
  lemma LongHead(s: string, prefix: string)
    requires 0 < |prefix| <= |s| && s[..|prefix|] == prefix
    ensures s[0] == prefix[0]
  {
    assert s[..|prefix|][0] == s[0];
  }

  /** The 28 names are pairwise distinct. */
  lemma SeedNamesDistinct()
    ensures forall i, j :: 0 <= i < j < |TaskPool| ==> TaskPool[i].name != TaskPool[j].name
  {
    DailyNamesDistinct();
    WeeklyNamesDistinct();
    MonthlyNamesDistinct();
    DailyWeeklyNamesDistinct();
    DailyMonthlyNamesDistinct();
    WeeklyMonthlyNamesDistinct();
    forall i, j | 0 <= i < j < |TaskPool| ensures TaskPool[i].name != TaskPool[j].name {
      if j < 8 {
        assert TaskPool[i] == DailySeed[i] && TaskPool[j] == DailySeed[j];
      } else if j < 18 {
        assert TaskPool[j] == WeeklySeed[j - 8];
        if i < 8 {
          assert TaskPool[i] == DailySeed[i];
        } else {
          assert TaskPool[i] == WeeklySeed[i - 8];
        }
      } else {
        assert TaskPool[j] == MonthlySeed[j - 18];
        if i < 8 {
          assert TaskPool[i] == DailySeed[i];
        } else if i < 18 {
          assert TaskPool[i] == WeeklySeed[i - 8];
        } else {
          assert TaskPool[i] == MonthlySeed[i - 18];
        }
      }
    }
  }

  /** The daily names are pairwise distinct. */
  lemma DailyNamesDistinct()
    ensures forall i, j :: 0 <= i < j < |DailySeed| ==> DailySeed[i].name != DailySeed[j].name
  {
  }

  /** The weekly names are pairwise distinct. */
  lemma WeeklyNamesDistinct()
    ensures forall i, j :: 0 <= i < j < |WeeklySeed| ==> WeeklySeed[i].name != WeeklySeed[j].name
  {
  }

  /** The monthly names are pairwise distinct. */
  lemma MonthlyNamesDistinct()
    ensures forall i, j :: 0 <= i < j < |MonthlySeed| ==> MonthlySeed[i].name != MonthlySeed[j].name
  {
  }

  /** No daily name is a weekly name. */
  lemma DailyWeeklyNamesDistinct()
    ensures forall i, j :: 0 <= i < |DailySeed| && 0 <= j < |WeeklySeed| ==> DailySeed[i].name != WeeklySeed[j].name
  {
  }

  /** No daily name is a monthly name. */
  lemma DailyMonthlyNamesDistinct()
    ensures forall i, j :: 0 <= i < |DailySeed| && 0 <= j < |MonthlySeed| ==> DailySeed[i].name != MonthlySeed[j].name
  {
  }

  /** No weekly name is a monthly name. */
  lemma WeeklyMonthlyNamesDistinct()
    ensures forall i, j :: 0 <= i < |WeeklySeed| && 0 <= j < |MonthlySeed| ==> WeeklySeed[i].name != MonthlySeed[j].name
  {
  }
}
