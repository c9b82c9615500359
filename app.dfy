/** The progression engine held by the `App` component: its state fields and
    the event handlers that change them. Each handler is one atomic step
    computed from the state before the event. */
module App {
  import opened Wrappers
  import opened Catalog
  import opened Reflection
  import opened Progression

  class Engine {
    var level: int
    var points: int
    /** `mirrorPolishing`. */
    var gauge: int
    /** `journalEntries`, newest first. */
    var journal: seq<Entry>
    var activeTask: Option<Task>
    /** `experience`, the reflection being typed. */
    var draft: string

    /** The state invariant: the progression fields are consistent with the
        journal, and the open task, if any, is a catalog task. */
    ghost predicate Valid()
      reads this
    {
      && Consistent(level, points, gauge, journal)
      && (activeTask.Some? ==> activeTask.value in Tasks)
    }

    /** The initial state of the component: level 1, no points, an empty
        gauge and journal, no open task, an empty draft. */
    constructor ()
      ensures Valid()
      ensures level == 1 && points == 0 && gauge == 0 && journal == []
      ensures activeTask == None && draft == ""
    {
      level := 1;
      points := 0;
      gauge := 0;
      journal := [];
      activeTask := None;
      draft := "";
    }

    /** `handleOpenTask`: opens a catalog task and clears the draft. */
    method OpenTask(task: Task)
      requires Valid()
      requires task in Tasks
      modifies this
      ensures Valid()
      ensures activeTask == Some(task) && draft == ""
      ensures level == old(level) && points == old(points) && gauge == old(gauge)
      ensures journal == old(journal)
    {
      activeTask := Some(task);
      draft := "";
    }

    /** The text area's change handler: replaces the draft. */
    method EditDraft(text: string)
      requires Valid()
      modifies this
      ensures Valid()
      ensures draft == text
      ensures level == old(level) && points == old(points) && gauge == old(gauge)
      ensures journal == old(journal) && activeTask == old(activeTask)
    {
      draft := text;
    }

    /** The close button of the reflection dialog: drops the open task and
        keeps the draft. */
    method CloseTask()
      requires Valid()
      modifies this
      ensures Valid()
      ensures activeTask == None
      ensures level == old(level) && points == old(points) && gauge == old(gauge)
      ensures journal == old(journal) && draft == old(draft)
    {
      activeTask := None;
    }

    /** `handleSubmitExperience`, with the clock's `Date.now()` and formatted
        date passed in as `id` and `date`. A blank draft is rejected and
        changes nothing. Otherwise the entry is prepended, the task's reward
        is added, the gauge advances, the level checks run against the old
        level and old points, and the task is closed; the draft is kept. */
    method SubmitExperience(id: int, date: string) returns (recorded: bool)
      requires Valid()
      requires !IsBlank(draft) ==> activeTask.Some?
      modifies this
      ensures Valid()
      ensures recorded <==> !IsBlank(old(draft))
      ensures !recorded ==> unchanged(this)
      ensures recorded ==>
        var t := old(activeTask).value;
        && journal == [Entry(id, t.text, old(draft), date, t.points)] + old(journal)
        && points == old(points) + t.points
        && gauge == AdvanceGauge(old(gauge))
        && level == NextLevel(old(level), old(points) + t.points)
        && activeTask == None
        && draft == old(draft)
      ensures old(points) <= points && old(gauge) <= gauge <= GaugeMax
      ensures old(level) <= level <= old(level) + 1 && level <= 3
      ensures |journal| == old(|journal|) + (if recorded then 1 else 0)
    {
      if IsBlank(draft) {
        return false;
      }
      var task := activeTask.value;
      var entry := Entry(id, task.text, draft, date, task.points);
      // Both level checks read the values captured when the handler started.
      var total := points + task.points;
      var oldLevel := level;
      RecordKeepsConsistent(level, points, gauge, journal, task, entry);
      journal := [entry] + journal;
      points := points + task.points;
      gauge := Min(GaugeMax, gauge + GaugeStep);
      if total > Level2Threshold && oldLevel == 1 {
        level := 2;
      }
      if total > Level3Threshold && oldLevel == 2 {
        level := 3;
      }
      activeTask := None;
      recorded := true;
    }
  }

  /** A client of the engine: the first scenario of the app, one blank
      submission that is refused and one real one. */
  method Walkthrough()
  {
    var e := new Engine();
    e.OpenTask(Tasks[0]);
    e.EditDraft("   ");
    var ok := e.SubmitExperience(1, "1 janvier");
    assert !ok && e.points == 0 && e.journal == [];
    e.EditDraft("I felt calm");
    ok := e.SubmitExperience(2, "1 janvier");
    assert ok;
    assert e.points == 10 && e.gauge == 5 && e.level == 1;
    assert |e.journal| == 1 && e.journal[0].points == 10 && e.journal[0].content == "I felt calm";
    assert e.activeTask == None;
  }
}
