/**
 * The records of src/entities/task.ts: the frequency enumeration, a task
 * instance and the dated selection record, plus the id-less template that the
 * selection engine samples from (the `TaskPoolForSelection` interface, which is
 * also the shape `createTask` builds for the seed catalog).
 */
module Entities {
  import opened Wrappers

  /** `TaskFrequency = 'daily' | 'weekly' | 'monthly'`. */
  datatype Frequency = Daily | Weekly | Monthly

  /**
   * The creation moment of a task instance (`createdAt: Date`). The model never
   * inspects it; it only carries it along.
   */
  datatype Instant = Instant(epochMillis: int)

  /** A task template without an id: name, optional description, frequency. */
  datatype Template = Template(name: string, description: Option<string>, frequency: Frequency)

  /** A task instance of a daily selection. */
  datatype Task = Task(
    id: string,
    name: string,
    description: Option<string>,
    frequency: Frequency,
    completed: bool,
    createdAt: Instant)
  {
    /** The template this instance was copied from (its fields minus the instance-only ones). */
    function Source(): Template {
      Template(name, description, frequency)
    }
  }

  /** The selection of one day (`DailyTasks`). */
  datatype DailyTasks = DailyTasks(date: string, tasks: seq<Task>, allCompleted: bool)

  /** All templates of `s` have frequency `f`. */
  predicate AllOfFrequency(s: seq<Template>, f: Frequency) {
    forall i :: 0 <= i < |s| ==> s[i].frequency == f
  }

  /** Every task of `tasks` is completed (`tasks.every(task => task.completed)`). */
  predicate AllCompleted(tasks: seq<Task>) {
    forall i :: 0 <= i < |tasks| ==> tasks[i].completed
  }
}
