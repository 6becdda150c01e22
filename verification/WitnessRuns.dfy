/** The concrete stores are reached from an empty store by the service's own transactions. */
module WitnessRuns {
  import opened Wrappers
  import opened RecurrenceRule
  import opened TaskRows
  import opened Series
  import opened SeriesLaws
  import opened TaskStore
  import opened TaskInvariants
  import opened Agenda
  import opened OverrideLaws

  const DAILY_RULE := RuleDto(Daily, None, None, None, None, None, None, None, None, None)

  /** Creating an event that starts at instant 0 in calendar 1. */
  function Creation(title: string, endAt: int, recurrence: Option<RuleDto>): CreateInput {
    CreateInput(1, None, title, Some(0), Some(endAt), 0, recurrence)
  }

  /** A row of calendar 1 that starts at instant 0 and recurs daily. */
  function DailyRow(title: string, endAt: int): Task {
    Task(1, 1, None, title, Some(0), Some(endAt), 0, None, Some(EVERY_DAY), None, None, None, None)
  }

  lemma DailyIsCreated(title: string, endAt: int)
    requires endAt >= 0
    ensures Reachable(Db(map[1 := DailyRow(title, endAt)], map[], map[]))
  {
    var empty := Db(map[], map[], map[]);
    EmptyIsReachable(map[]);
    hide Reachable;
    assert ToConfig(DAILY_RULE) == EVERY_DAY;
    StepReaches(empty, DoCreate(1, Creation(title, endAt, Some(DAILY_RULE))),
      Db(map[1 := DailyRow(title, endAt)], map[], map[]));
  }

  lemma DailySlotIsGenerated(row: Task, k: nat)
    requires row.startAt == Some(0) && Duration(row).Or(0) >= 0 && k < MAX_OCCURRENCES_PER_WINDOW
    ensures EffectivelyGenerates(row, Some(EVERY_DAY), k * MILLIS_PER_DAY)
  {
    hide Member, IsGenerated;
    DailyProbe(row, EVERY_DAY, k);
  }

  /** Overriding slot `t` of a store's only task puts the patched child into the table. */
  lemma OverrideReaches(db: Db, t: int, patch: UpdateInput, child: Task)
    requires Reachable(db) && db.tasks.Keys == {1} && IsLive(db, 1) && db.tasks[1].id == 1
    requires db.tasks[1].parentTaskId.None? && db.exceptions == map[]
    requires EffectivelyGenerates(db.tasks[1], EffectiveConfig(db.groups, db.tasks[1]), t)
    requires patch.recurrence.None? && patch.groupId.None? && child == PatchedRow(ChildRow(db.tasks[1], 2, t), patch)
    requires !EndsBeforeStart(child.startAt, child.endAt)
    ensures Reachable(db.(tasks := db.tasks[2 := child]))
  {
    var after := db.(tasks := db.tasks[2 := child]);
    var owned := Owned(db, db.tasks[1], t, ChildRow(db.tasks[1], 2, t));
    assert !HasChildAt(db, 1, t) by { OnlyTaskHasNoChild(db, t); }
    assert owned == db.(tasks := db.tasks[2 := ChildRow(db.tasks[1], 2, t)]);
    assert owned.tasks[2] == ChildRow(db.tasks[1], 2, t) && owned.tasks[2].parentTaskId == Some(1);
    assert after.tasks == owned.tasks[2 := child];
    ChildIsPatched(owned, patch);
    hide Reachable, EffectivelyGenerates, EffectiveConfig, HasChildAt, Update, Owned, ChildRow, PatchedRow;
    StepReaches(db, DoCreateOverride(1, t, patch, 2, 0), after);
  }

  lemma OnlyTaskHasNoChild(db: Db, t: int)
    requires db.tasks.Keys == {1} && db.tasks[1].parentTaskId.None?
    ensures !HasChildAt(db, 1, t)
  {
  }

  lemma ChildIsPatched(db: Db, patch: UpdateInput)
    requires IsLive(db, 2) && db.tasks[2].parentTaskId.Some? && patch.recurrence.None? && patch.groupId.None?
    requires !EndsBeforeStart(PatchedRow(db.tasks[2], patch).startAt, PatchedRow(db.tasks[2], patch).endAt)
    ensures Update(db, 2, patch, 0) == Ok(db.(tasks := db.tasks[2 := PatchedRow(db.tasks[2], patch)]))
  {
    hide Swept;
  }

  const DAILY_ALONE := Db(map[1 := DAILY_EVENT], map[], map[])

  /** The daily event is in the store, and its second day can be overridden. */
  lemma DailyAloneIsReached()
    ensures Reachable(DAILY_ALONE)
    ensures IsGenerated(DAILY_EVENT, EVERY_DAY, MILLIS_PER_DAY)
  {
    hide Reachable;
    DailyIsCreated("daily", 2 * HOUR);
    assert DailyRow("daily", 2 * HOUR) == DAILY_EVENT;
    DailySlotIsGenerated(DAILY_EVENT, 1);
  }

  const SECOND_DAY_PATCH := NO_PATCH.(title := Some("moved"))

  lemma SecondDayIsPatched()
    ensures PatchedRow(ChildRow(DAILY_EVENT, 2, MILLIS_PER_DAY), SECOND_DAY_PATCH) == SECOND_DAY
  {
  }

  /** A daily event is created and its second day renamed by an override. */
  lemma OverriddenDailyIsReached()
    ensures Reachable(OVERRIDDEN_DAILY)
  {
    hide Reachable, IsGenerated, ChildRow, PatchedRow;
    DailyAloneIsReached();
    SecondDayIsPatched();
    OverrideReaches(DAILY_ALONE, MILLIS_PER_DAY, SECOND_DAY_PATCH, SECOND_DAY);
    assert DAILY_ALONE.tasks[2 := SECOND_DAY] == OVERRIDDEN_DAILY.tasks;
  }

  const RENAMING := NO_CHANGES.(overrideTitle := Some(Some("renamed")))

  /** The daily event's second day is renamed by an exception row. */
  lemma RenamedDailyIsReached()
    ensures Reachable(RENAMED_DAILY)
  {
    assert Upserted(map[], 1, MILLIS_PER_DAY, RENAMING) == RENAMED_DAILY.exceptions;
    hide Reachable, IsGenerated, HasChildAt, Upserted;
    DailyAloneIsReached();
    OnlyTaskHasNoChild(DAILY_ALONE, MILLIS_PER_DAY);
    StepReaches(DAILY_ALONE, DoOverride(1, MILLIS_PER_DAY, RENAMING, 0), RENAMED_DAILY);
  }

  const FORMER_DAILY := FORMER_MASTER.(config := Some(EVERY_DAY))
  const MOVED_DAY := MOVED_AWAY.(detachedAt := None)

  const FORMER_MOVED := Db(map[1 := FORMER_DAILY, 2 := MOVED_DAY], map[], map[])

  lemma FirstDayIsMoved()
    ensures Reachable(FORMER_MOVED)
  {
    DailyIsCreated("former", HOUR);
    DailySlotIsGenerated(FORMER_DAILY, 0);
    var db := Db(map[1 := FORMER_DAILY], map[], map[]);
    var patch := NO_PATCH.(title := Some("moved"), startAt := Some(Some(10 * HOUR)), endAt := Some(Some(11 * HOUR)));
    assert PatchedRow(ChildRow(FORMER_DAILY, 2, 0), patch) == MOVED_DAY;
    assert db.tasks[2 := MOVED_DAY] == FORMER_MOVED.tasks;
    assert EffectiveConfig(db.groups, FORMER_DAILY) == Some(EVERY_DAY);
    hide Reachable, EffectivelyGenerates, EffectiveConfig, ChildRow, PatchedRow;
    OverrideReaches(db, 0, patch, MOVED_DAY);
  }

  lemma RuleIsRemoved()
    ensures Update(FORMER_MOVED, 1, NO_PATCH.(recurrence := Some(None)), 0) == Ok(MOVED_MASTER)
  {
    var next := PatchedRow(FORMER_DAILY, NO_PATCH.(recurrence := Some(None)));
    assert next == FORMER_MASTER;
    assert Swept(FORMER_MOVED.tasks[1 := next], next, None, 0) == MOVED_MASTER.tasks;
  }

  /** A daily event's first day is moved by an override; then its rule is removed, which detaches the override. */
  lemma MovedMasterIsReached()
    ensures Reachable(MOVED_MASTER)
  {
    hide Reachable, Update;
    FirstDayIsMoved();
    RuleIsRemoved();
    StepReaches(FORMER_MOVED, DoUpdate(1, NO_PATCH.(recurrence := Some(None)), 0), MOVED_MASTER);
  }

  const GROUPED_ALONE := SKIPPED_GROUPED.(tasks := map[1 := GROUPED], exceptions := map[])
  const DAY_OVERRIDDEN := DELETED_DAY.(deletedAt := None)
  const GROUPED_OVERRIDDEN := GROUPED_ALONE.(tasks := map[1 := GROUPED, 2 := DAY_OVERRIDDEN])

  lemma GroupedIsCreated()
    ensures Reachable(GROUPED_ALONE)
  {
    EmptyIsReachable(SKIPPED_GROUPED.groups);
    hide Reachable;
    StepReaches(Db(map[], map[], SKIPPED_GROUPED.groups),
      DoCreate(1, CreateInput(1, Some(5), "grouped", Some(0), Some(HOUR), 0, None)), GROUPED_ALONE);
  }

  lemma GroupedDayIsPatched()
    ensures PatchedRow(ChildRow(GROUPED, 2, 0), NO_PATCH) == DAY_OVERRIDDEN
  {
  }

  lemma GroupedDayIsOverridable()
    ensures EffectivelyGenerates(GROUPED, EffectiveConfig(SKIPPED_GROUPED.groups, GROUPED), 0)
  {
    hide EffectivelyGenerates;
    DailySlotIsGenerated(GROUPED, 0);
  }

  lemma GroupedIsOverridden()
    ensures Reachable(GROUPED_OVERRIDDEN)
  {
    hide Reachable, EffectivelyGenerates, EffectiveConfig, ChildRow, PatchedRow;
    GroupedIsCreated();
    GroupedDayIsPatched();
    GroupedDayIsOverridable();
    OverrideReaches(GROUPED_ALONE, 0, NO_PATCH, DAY_OVERRIDDEN);
    assert GROUPED_ALONE.tasks[2 := DAY_OVERRIDDEN] == GROUPED_OVERRIDDEN.tasks;
  }

  /** A row joins a recurring group; its first day is overridden, and the override deleted. */
  lemma SkippedGroupedIsReached()
    ensures Reachable(SKIPPED_GROUPED)
  {
    hide Reachable;
    GroupedIsOverridden();
    assert GROUPED_OVERRIDDEN.tasks[2 := DELETED_DAY] == SKIPPED_GROUPED.tasks;
    StepReaches(GROUPED_OVERRIDDEN, DoRemove(2, RemoveSlot, 0), SKIPPED_GROUPED);
  }
}
