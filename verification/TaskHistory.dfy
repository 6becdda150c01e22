/**
 * What every run keeps of single rows: a removed row never comes back, and a row's group
 * is one of its own calendar.
 */
module TaskHistory {
  import opened Wrappers
  import opened RecurrenceRule
  import opened TaskRows
  import opened Series
  import opened SeriesLaws
  import opened TaskStore
  import opened TaskInvariants
  import opened Agenda
  import opened EditLaws

  /** The row's group exists, in the row's calendar. */
  predicate GroupLinked(groups: map<Id, Group>, row: Task) {
    row.groupId.Some? ==> row.groupId.value in groups && groups[row.groupId.value].calendarId == row.calendarId
  }

  ghost predicate CopiesGroup(tasks: map<Id, Task>, row: Task) {
    exists p: Id :: p in tasks && tasks[p].groupId == row.groupId && tasks[p].calendarId == row.calendarId
  }

  /** A removed row stays removed, and a row's group is checked or taken over from a row that had it. */
  ghost predicate RowEvolves(db: Db, k: Id, row: Task) {
    && (k in db.tasks && db.tasks[k].deletedAt.Some? ==> row.deletedAt.Some?)
    && (GroupLinked(db.groups, row) || CopiesGroup(db.tasks, row))
  }

  ghost predicate Evolves(db: Db, db': Db) {
    && db'.groups == db.groups && db.tasks.Keys <= db'.tasks.Keys
    && forall k: Id :: k in db'.tasks ==> RowEvolves(db, k, db'.tasks[k])
  }

  lemma EvolvesOn(a: Db, b: Db, c: Db)
    requires Evolves(a, b) && Evolves(b, c)
    ensures Evolves(a, c)
  {
    forall k: Id | k in c.tasks ensures RowEvolves(a, k, c.tasks[k]) {
      assert RowEvolves(b, k, c.tasks[k]);
      assert k in b.tasks ==> RowEvolves(a, k, b.tasks[k]);
      if p: Id :|
        && p in b.tasks && b.tasks[p].groupId == c.tasks[k].groupId
        && b.tasks[p].calendarId == c.tasks[k].calendarId
      {
        assert RowEvolves(a, p, b.tasks[p]);
      }
    }
  }

  lemma SameTasksEvolve(db: Db, exceptions': map<(Id, int), OccurrenceException>)
    ensures Evolves(db, db.(exceptions := exceptions'))
  {
  }

  /** One row replaced by one of the same group and calendar that is not less removed, or with a checked group. */
  lemma RowReplaced(db: Db, k: Id, row: Task)
    requires RowEvolves(db, k, row)
    ensures Evolves(db, db.(tasks := db.tasks[k := row]))
  {
  }

  predicate SameButFlag(a: Task, b: Task) {
    b == a.(detachedAt := b.detachedAt)
  }

  lemma SweptEvolves(db: Db, parent: Task, c: Option<Config>, now: int)
    ensures Evolves(db, db.(tasks := Swept(db.tasks, parent, c, now)))
  {
    hide EffectivelyGenerates;
    var db' := db.(tasks := Swept(db.tasks, parent, c, now));
    forall k: Id | k in db'.tasks ensures RowEvolves(db, k, db'.tasks[k]) {
      assert SameButFlag(db.tasks[k], db'.tasks[k]);
      hide SweptRow;
    }
  }

  lemma UpdateEvolves(db: Db, id: Id, patch: UpdateInput, now: int)
    requires Update(db, id, patch, now).Ok?
    ensures Evolves(db, Update(db, id, patch, now).value)
  {
    UpdateNeedsLive(db, id, patch, now);
    hide Swept, ToConfig;
    var next := PatchedRow(db.tasks[id], patch);
    assert RowEvolves(db, id, next);
    RowReplaced(db, id, next);
    var mid := db.(tasks := db.tasks[id := next]);
    if RuleInputsChanged(db.tasks[id], patch) {
      hide RuleInputsChanged, Evolves;
      SweptEvolves(mid, next, EffectiveConfig(db.groups, next), now);
      EvolvesOn(db, mid, Update(db, id, patch, now).value);
    }
  }

  lemma SetCompletedEvolves(db: Db, id: Id, completed: bool, now: int)
    requires SetCompleted(db, id, completed, now).Ok?
    ensures Evolves(db, SetCompleted(db, id, completed, now).value)
  {
    RowReplaced(db, id, SetCompleted(db, id, completed, now).value.tasks[id]);
  }

  lemma RemoveEvolves(db: Db, id: Id, mode: DeleteMode, now: int)
    requires Remove(db, id, mode, now).Ok?
    ensures Evolves(db, Remove(db, id, mode, now).value)
  {
    hide Upserted;
  }

  lemma CreateEvolves(db: Db, newId: Id, input: CreateInput)
    requires newId !in db.tasks && Create(db, newId, input).Ok?
    ensures Evolves(db, Create(db, newId, input).value)
  {
    hide ToConfig;
    RowReplaced(db, newId, Create(db, newId, input).value.tasks[newId]);
  }

  lemma SetOccurrenceCompletedEvolves(db: Db, id: Id, t: int, completed: bool, now: int)
    requires SetOccurrenceCompleted(db, id, t, completed, now).Ok?
    ensures Evolves(db, SetOccurrenceCompleted(db, id, t, completed, now).value)
  {
    hide SetCompleted, Upserted, HasChildAt, Evolves;
    if db.tasks[id].config.None? {
      SetCompletedEvolves(db, id, completed, now);
    } else if HasChildAt(db, id, t) {
      SetCompletedEvolves(db, ChildAt(db, id, t), completed, now);
    } else {
      SameTasksEvolve(db, SetOccurrenceCompleted(db, id, t, completed, now).value.exceptions);
    }
  }

  lemma OverrideEvolves(db: Db, id: Id, t: int, ch: OverrideChanges, now: int)
    requires ApplyOccurrenceOverride(db, id, t, ch, now).Ok?
    ensures Evolves(db, ApplyOccurrenceOverride(db, id, t, ch, now).value)
  {
    hide SetCompleted, Upserted, HasChildAt, Evolves, Update, Remove, IsGenerated;
    if db.tasks[id].config.Some? {
      SameTasksEvolve(db, ApplyOccurrenceOverride(db, id, t, ch, now).value.exceptions);
    } else if ch.isSkipped == Some(true) {
      RemoveEvolves(db, id, RemoveSlot, now);
    } else {
      UpdateEvolves(db, id, CollapsedInput(ch), now);
      if ch.completedAt.Some? {
        var updated := Update(db, id, CollapsedInput(ch), now).value;
        SetCompletedEvolves(updated, id, ch.completedAt.value.Some?, now);
        EvolvesOn(db, updated, ApplyOccurrenceOverride(db, id, t, ch, now).value);
      }
    }
  }

  /** A child has its parent's group and calendar, whatever it absorbs. */
  lemma OwnedEvolves(db: Db, parent: Task, t: int, child: Task)
    requires parent.id in db.tasks && db.tasks[parent.id] == parent
    requires (child.id in db.tasks && db.tasks[child.id] == child)
      || (child.id !in db.tasks && child == ChildRow(parent, child.id, t))
    ensures Evolves(db, Owned(db, parent, t, child))
  {
    var row := Owned(db, parent, t, child).tasks[child.id];
    assert row.groupId == child.groupId && row.calendarId == child.calendarId && row.deletedAt == child.deletedAt;
    assert CopiesGroup(db.tasks, row) by {
      if child.id in db.tasks {
        assert db.tasks[child.id].groupId == row.groupId;
      } else {
        assert db.tasks[parent.id].groupId == row.groupId;
      }
    }
    RowReplaced(db, child.id, row);
  }

  lemma CreateOverrideEvolves(db: Db, p: Id, t: int, patch: UpdateInput, newId: Id, now: int)
    requires RowsValid(db) && newId !in db.tasks && CreateOrUpdateOverride(db, p, t, patch, newId, now).Ok?
    ensures Evolves(db, CreateOrUpdateOverride(db, p, t, patch, newId, now).value)
  {
    hide Update, HasChildAt, EffectivelyGenerates, Owned, Evolves;
    var parent := db.tasks[p];
    assert parent.id == p;
    var child := if HasChildAt(db, p, t) then db.tasks[ChildAt(db, p, t)] else ChildRow(parent, newId, t);
    assert HasChildAt(db, p, t) ==> child.id == ChildAt(db, p, t);
    hide RowsValid;
    OwnedEvolves(db, parent, t, child);
    UpdateEvolves(Owned(db, parent, t, child), child.id, patch, now);
    EvolvesOn(db, Owned(db, parent, t, child), CreateOrUpdateOverride(db, p, t, patch, newId, now).value);
  }

  lemma TruncationEvolves(db: Db, id: Id, t: int, now: int)
    requires IsLive(db, id) && db.tasks[id].config.Some?
    ensures var cut := TruncatedRow(db.tasks[id], t);
      Evolves(db, db.(tasks := Swept(db.tasks[id := cut], cut, cut.config, now)))
  {
    hide Swept, LocalDay;
    var cut := TruncatedRow(db.tasks[id], t);
    var mid := db.(tasks := db.tasks[id := cut]);
    assert CopiesGroup(db.tasks, cut);
    RowReplaced(db, id, cut);
    hide Evolves;
    SweptEvolves(mid, cut, cut.config, now);
    EvolvesOn(db, mid, db.(tasks := Swept(mid.tasks, cut, cut.config, now)));
  }

  lemma EndEvolves(db: Db, id: Id, t: int, now: int)
    requires EndSeriesAt(db, id, t, now).Ok?
    ensures Evolves(db, EndSeriesAt(db, id, t, now).value)
  {
    hide Remove, Swept, TruncatedRow, Evolves;
    if db.tasks[id].config.None? || db.tasks[id].startAt == Some(t) {
      RemoveEvolves(db, id, RemoveSlot, now);
    } else {
      TruncationEvolves(db, id, t, now);
    }
  }

  lemma SplitEvolves(db: Db, id: Id, t: int, split: SplitChanges, newId: Id, now: int)
    requires newId !in db.tasks && SplitSeries(db, id, t, split, newId, now).Ok?
    ensures Evolves(db, SplitSeries(db, id, t, split, newId, now).value)
  {
    hide Update, Swept, TruncatedRow, CopiedExceptions, Evolves, ResolveSplitRecurrence;
    var task := db.tasks[id];
    if task.config.None? || task.startAt == Some(t) {
      UpdateEvolves(db, id, SplitAsUpdate(split), now);
    } else {
      TruncationEvolves(db, id, t, now);
      SplitInStages(db, id, t, split, newId, now);
      var cut, row := TruncatedRow(task, t), SplitRow(task, task.config.value, t, split, newId);
      var swept := db.(tasks := Swept(db.tasks[id := cut], cut, cut.config, now));
      var joined := swept.(tasks := swept.tasks[newId := row]);
      assert RowEvolves(db, newId, row);
      NewRowJoins(db, swept, row, newId);
      SameTasksEvolve(joined, CopiedExceptions(db.exceptions, id, newId, t));
      EvolvesOn(db, joined, SplitSeries(db, id, t, split, newId, now).value);
    }
  }

  lemma NewRowJoins(db: Db, mid: Db, row: Task, k: Id)
    requires Evolves(db, mid) && RowEvolves(db, k, row)
    ensures Evolves(db, mid.(tasks := mid.tasks[k := row]))
  {
  }

  lemma StepEvolves(before: Db, op: Op, after: Db)
    requires RowsValid(before) && Step(before, op, after)
    ensures Evolves(before, after)
  {
    hide RowsValid, Create, Update, SetCompleted, SetOccurrenceCompleted, ApplyOccurrenceOverride,
      CreateOrUpdateOverride, SplitSeries, EndSeriesAt, Remove, ValidDto, ValidRecurrence, Evolves;
    if Apply(before, op).Ok? {
      match op
      case DoCreate(newId, input) => CreateEvolves(before, newId, input);
      case DoUpdate(id, patch, now) => UpdateEvolves(before, id, patch, now);
      case DoSetCompleted(id, completed, now) => SetCompletedEvolves(before, id, completed, now);
      case DoSetOccurrenceCompleted(id, t, completed, now) =>
        SetOccurrenceCompletedEvolves(before, id, t, completed, now);
      case DoOverride(id, t, changes, now) => OverrideEvolves(before, id, t, changes, now);
      case DoCreateOverride(id, t, patch, newId, now) => CreateOverrideEvolves(before, id, t, patch, newId, now);
      case DoSplit(id, t, split, newId, now) => SplitEvolves(before, id, t, split, newId, now);
      case DoEnd(id, t, now) => EndEvolves(before, id, t, now);
      case DoRemove(id, mode, now) => RemoveEvolves(before, id, mode, now);
    } else {
      SameTasksEvolve(before, before.exceptions);
    }
  }

  // --- over whole runs ----------------------------------------------------------------------

  predicate IsDead(db: Db, id: Id) {
    id in db.tasks && db.tasks[id].deletedAt.Some?
  }

  /** A removed row never comes back: no later state has it live, and no agenda shows it. */
  lemma {:induction false} RemovedStaysGone(states: seq<Db>, ops: seq<Op>, id: Id, i: nat, j: nat)
    requires IsRun(states, ops) && Structure(states[0]) && i <= j <= |ops| && IsDead(states[i], id)
    ensures IsDead(states[j], id)
    ensures forall q, o :: InAgenda(states[j], q, o) ==> o.taskId != id
    decreases j
  {
    if i < j {
      hide Structure, Step, InAgenda, IsDead;
      RemovedStaysGone(states, ops, id, i, j - 1);
      RunsKeepStructure(states, ops, j - 1);
      StepKeepsDead(states[j - 1], ops[j - 1], states[j], id);
    }
    hide Structure, Step, InAgenda, IsRun;
    forall q, o ensures InAgenda(states[j], q, o) ==> o.taskId != id {
      if o.taskId == id {
        DeadRowShowsNothing(states[j], q, o);
      }
    }
  }

  lemma StepKeepsDead(before: Db, op: Op, after: Db, id: Id)
    requires Structure(before) && Step(before, op, after) && IsDead(before, id)
    ensures IsDead(after, id)
  {
    hide Structure, Step, Evolves, RowsValid, ExceptionsKeyed;
    StructuredRows(before);
    StepEvolves(before, op, after);
    DeadEvolves(before, after, id);
  }

  lemma DeadEvolves(db: Db, db': Db, id: Id)
    requires Evolves(db, db') && IsDead(db, id)
    ensures IsDead(db', id)
  {
    assert RowEvolves(db, id, db'.tasks[id]);
  }

  ghost predicate GroupsLinked(db: Db) {
    forall k: Id :: k in db.tasks ==> GroupLinked(db.groups, db.tasks[k])
  }

  /** In every state of every run each row's group exists and is of the row's own calendar. */
  lemma {:induction false} RunsKeepGroups(states: seq<Db>, ops: seq<Op>, i: nat)
    requires IsRun(states, ops) && Structure(states[0]) && GroupsLinked(states[0]) && i <= |ops|
    ensures GroupsLinked(states[i])
  {
    if i > 0 {
      hide Structure, Step, GroupsLinked;
      RunsKeepGroups(states, ops, i - 1);
      RunsKeepStructure(states, ops, i - 1);
      StepKeepsGroups(states[i - 1], ops[i - 1], states[i]);
    }
  }

  lemma StepKeepsGroups(before: Db, op: Op, after: Db)
    requires Structure(before) && Step(before, op, after) && GroupsLinked(before)
    ensures GroupsLinked(after)
  {
    hide Structure, Step, Evolves, GroupsLinked, RowsValid, ExceptionsKeyed;
    StructuredRows(before);
    StepEvolves(before, op, after);
    GroupsEvolve(before, after);
  }

  lemma GroupsEvolve(db: Db, db': Db)
    requires Evolves(db, db') && GroupsLinked(db)
    ensures GroupsLinked(db')
  {
    forall k: Id | k in db'.tasks ensures GroupLinked(db'.groups, db'.tasks[k]) {
      assert RowEvolves(db, k, db'.tasks[k]);
    }
  }
}
