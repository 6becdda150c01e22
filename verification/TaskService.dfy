/**
 * The task service: the tables as fields, every transaction as a method that
 * changes them step by step, each proved to make of the tables exactly what the
 * store's specification says - or to leave them alone when it is refused.
 */
module TaskService {
  import opened Wrappers
  import opened RecurrenceRule
  import opened TaskRows
  import opened Series
  import opened SeriesLaws
  import opened TaskStore
  import opened TaskInvariants
  import Engine = Expansion
  import Store = TaskStore

  /** A transaction ended as specified: committed, or refused and rolled back. */
  ghost predicate Outcome(before: Db, spec: Result<Db, Error>, after: Db, error: Option<Error>) {
    match spec
    case Ok(db) => error.None? && after == db
    case Refused(e) => error == Some(e) && after == before
  }

  class TaskService {
    var tasks: map<Id, Task>
    var exceptions: map<(Id, int), OccurrenceException>
    const groups: map<Id, Group>

    function State(): Db
      reads this
    {
      Db(tasks, exceptions, groups)
    }

    constructor (groups: map<Id, Group>)
      ensures State() == Db(map[], map[], groups)
    {
      this.groups := groups;
      tasks := map[];
      exceptions := map[];
    }

    // --- queries --------------------------------------------------------------------

    method FindChild(p: Id, t: int) returns (child: Option<Id>)
      ensures child.Some? <==> HasChildAt(State(), p, t)
      ensures child.Some? ==> IsChildAt(State(), child.value, p, t)
    {
      var rest := tasks.Keys;
      while rest != {}
        invariant rest <= tasks.Keys
        invariant forall k: Id :: IsChildAt(State(), k, p, t) ==> k in rest
        decreases |rest|
      {
        var k: Id :| k in rest;
        if IsChildAt(State(), k, p, t) {
          return Some(k);
        }
        rest := rest - {k};
      }
      return None;
    }

    method FindChildren(p: Id) returns (children: set<Id>)
      ensures forall k: Id :: k in children <==> k in tasks && IsChildOf(tasks[k], p)
    {
      children := {};
      var rest := tasks.Keys;
      while rest != {}
        invariant rest <= tasks.Keys
        invariant forall k: Id :: k in children <==> k in tasks && k !in rest && IsChildOf(tasks[k], p)
        decreases |rest|
      {
        var k: Id :| k in rest;
        if IsChildOf(tasks[k], p) {
          children := children + {k};
        }
        rest := rest - {k};
      }
    }

    /** Membership by expanding a 2 ms bracket without exceptions. */
    static method IsGeneratedOccurrence(task: Task, c: Config, t: int) returns (generated: bool)
      requires ValidAxes(c)
      ensures generated == IsGenerated(task, c, t)
    {
      hide Expansion, ValidAxes;
      var occurrences := Engine.ExpandOccurrences(task, c, map[], t - 1, t + 1);
      for i := 0 to |occurrences|
        invariant forall j :: 0 <= j < i ==> occurrences[j].originalStart != Some(t)
      {
        if occurrences[i].originalStart == Some(t) {
          return true;
        }
      }
      return false;
    }

    // --- exceptions ---------------------------------------------------------------------

    /** Applies the supplied fields to an exception row, reporting whether any differed. */
    static method ApplyChangesTo(row: OccurrenceException, changes: OverrideChanges)
      returns (e: OccurrenceException, changed: bool)
      ensures e == ApplyChanges(row, changes)
      ensures changed <==> e != row
    {
      e, changed := row, false;
      if changes.overrideStartAt.Some? && changes.overrideStartAt.value != e.overrideStartAt {
        e, changed := e.(overrideStartAt := changes.overrideStartAt.value), true;
      }
      if changes.overrideEndAt.Some? && changes.overrideEndAt.value != e.overrideEndAt {
        e, changed := e.(overrideEndAt := changes.overrideEndAt.value), true;
      }
      if changes.overrideTitle.Some? && changes.overrideTitle.value != e.overrideTitle {
        e, changed := e.(overrideTitle := changes.overrideTitle.value), true;
      }
      if changes.isSkipped.Some? && changes.isSkipped.value != e.isSkipped {
        e, changed := e.(isSkipped := changes.isSkipped.value), true;
      }
      if changes.completedAt.Some? && changes.completedAt.value != e.completedAt {
        e, changed := e.(completedAt := changes.completedAt.value), true;
      }
    }

    method UpsertOverride(id: Id, t: int, changes: OverrideChanges)
      modifies `exceptions
      ensures exceptions == Upserted(old(exceptions), id, t, changes)
    {
      if (id, t) in exceptions {
        var row, changed := ApplyChangesTo(exceptions[(id, t)], changes);
        if !changed {
          assert exceptions == exceptions[(id, t) := row];
          return;
        }
        exceptions := exceptions[(id, t) := row];
      } else {
        exceptions := exceptions[(id, t) := OccurrenceException(
          changes.isSkipped.Or(false),
          changes.overrideStartAt.Or(None),
          changes.overrideEndAt.Or(None),
          changes.overrideTitle.Or(None),
          changes.completedAt.Or(None))];
      }
    }

    method DeleteForSlot(id: Id, t: int)
      modifies `exceptions
      ensures exceptions == old(exceptions) - {(id, t)}
    {
      exceptions := exceptions - {(id, t)};
    }

    // --- creation and plain edits --------------------------------------------------------

    method CreateTask(newId: Id, input: CreateInput) returns (error: Option<Error>)
      modifies `tasks
      ensures Outcome(old(State()), Create(old(State()), newId, input), State(), error)
    {
      if EndsBeforeStart(input.startAt, input.endAt) {
        return Some(BadRequest);
      }
      if input.recurrence.Some? && input.startAt.None? {
        return Some(BadRequest);
      }
      if input.groupId.Some? {
        var bad := CheckGroup(groups, input.groupId.value, input.calendarId);
        if bad.Some? {
          return bad;
        }
      }
      var config := None;
      if input.recurrence.Some? {
        config := Some(ToConfig(input.recurrence.value));
      }
      tasks := tasks[newId := Task(newId, input.calendarId, input.groupId, input.title, input.startAt, input.endAt,
        input.offset, None, config, None, None, None, None)];
      return None;
    }

    /** The sweep of one live child of `parent`. */
    static method SweepChild(parent: Task, c: Option<Config>, now: int, child: Task) returns (row: Task)
      requires IsChildOf(child, parent.id) && (c.Some? ==> ValidAxes(c.value))
      ensures row == SweptRow(parent, c, now, child)
    {
      hide ValidAxes, IsGenerated;
      row := child;
      if child.originalStartAt.None? {
        return;
      }
      var generated := false;
      if c.Some? {
        generated := IsGeneratedOccurrence(parent, c.value, child.originalStartAt.value);
      }
      if !generated && child.detachedAt.None? {
        row := child.(detachedAt := Some(now));
      } else if generated && child.detachedAt.Some? {
        row := child.(detachedAt := None);
      } else {
        assert generated ==> child == child.(detachedAt := None);
      }
    }

    /** Flips `detachedAt` on every live child of `parent` whose slot rule `c` gained or lost. */
    method SweepOverrideChildren(parent: Task, c: Option<Config>, now: int)
      requires c.Some? ==> ValidAxes(c.value)
      modifies `tasks
      ensures tasks == Swept(old(tasks), parent, c, now)
    {
      OthersAreNotSwept(tasks, parent, c, now);
      ghost var before, swept := tasks, Swept(tasks, parent, c, now);
      hide ValidAxes, SweptRow, Swept, IsChildOf;
      var children := FindChildren(parent.id);
      assert Halfway(before, swept, children, tasks);
      hide Halfway;
      while children != {}
        invariant forall k: Id :: k in children ==> k in before && IsChildOf(before[k], parent.id)
        invariant Halfway(before, swept, children, tasks)
        decreases |children|
      {
        var k: Id :| k in children;
        OneMoreRow(before, swept, children, tasks, k);
        var row := SweepChild(parent, c, now, tasks[k]);
        tasks := tasks[k := row];
        children := children - {k};
      }
      AllRows(before, swept, tasks);
    }

    /** The row an edit asks for, and whether the edit changes what the series generates. */
    static method ApplyPatch(task: Task, patch: UpdateInput)
      returns (next: Task, needsSave: bool, ruleInputsChanged: bool)
      ensures next == PatchedRow(task, patch)
      ensures ruleInputsChanged == RuleInputsChanged(task, patch)
      ensures !needsSave ==> next == task && !ruleInputsChanged
    {
      hide ToConfig;
      next := task;
      var nextOffset := patch.offset.Or(task.offset);
      var nextStartAt := patch.startAt.Or(task.startAt);
      var nextEndAt := patch.endAt.Or(task.endAt);
      var nextTitle := patch.title.Or(task.title);
      var nextGroupId := patch.groupId.Or(task.groupId);
      var recurrenceChanged := false;
      if patch.recurrence.Some? {
        if patch.recurrence.value.None? {
          recurrenceChanged := task.config.Some?;
          next := next.(config := None);
        } else {
          recurrenceChanged := true;
          next := next.(config := Some(ToConfig(patch.recurrence.value.value)));
        }
      }
      var startChanged := nextStartAt != task.startAt;
      var offsetChanged := nextOffset != task.offset;
      var groupChanged := nextGroupId != task.groupId;
      var hasFieldChanges :=
        nextTitle != task.title || groupChanged || offsetChanged || startChanged || nextEndAt != task.endAt;
      ruleInputsChanged := task.parentTaskId.None?
        && (recurrenceChanged || startChanged || offsetChanged || groupChanged);
      if hasFieldChanges {
        next := next.(title := nextTitle, groupId := nextGroupId, offset := nextOffset, startAt := nextStartAt,
          endAt := nextEndAt);
      }
      needsSave := hasFieldChanges || recurrenceChanged || ruleInputsChanged;
    }

    /** The first objection to an edit, in the order the service raises them. */
    method ObjectionToUpdate(id: Id, patch: UpdateInput) returns (error: Option<Error>)
      ensures error == UpdateError(State(), id, patch)
    {
      hide ToConfig;
      if id !in tasks || tasks[id].deletedAt.Some? {
        return Some(NotFound);
      }
      var task := tasks[id];
      if task.parentTaskId.Some? && patch.recurrence.Some? && patch.recurrence.value.Some? {
        return Some(BadRequest);
      }
      if EndsBeforeStart(patch.startAt.Or(task.startAt), patch.endAt.Or(task.endAt)) {
        return Some(BadRequest);
      }
      if patch.groupId.Some? && patch.groupId.value.Some? && patch.groupId.value != task.groupId {
        return CheckGroup(groups, patch.groupId.value.value, task.calendarId);
      }
      return None;
    }

    method UpdateTask(id: Id, patch: UpdateInput, now: int) returns (error: Option<Error>)
      requires RowsValid(State()) && ValidRecurrence(patch)
      modifies `tasks
      ensures Outcome(old(State()), Update(old(State()), id, patch, now), State(), error)
    {
      error := ObjectionToUpdate(id, patch);
      if error.Some? {
        return;
      }
      UpdateErrorNeedsLive(State(), id, patch);
      if id in tasks {
        PatchedAxes(tasks[id], patch);
      }
      hide UpdateError, PatchedRow, RuleInputsChanged, Swept, ToConfig, ValidAxes;
      var next, needsSave, ruleInputsChanged := ApplyPatch(tasks[id], patch);
      if needsSave {
        tasks := tasks[id := next];
      }
      assert tasks == old(tasks)[id := next];
      if ruleInputsChanged {
        SweepOverrideChildren(next, EffectiveConfig(groups, next), now);
      }
    }

    method SetTaskCompleted(id: Id, completed: bool, now: int) returns (error: Option<Error>)
      modifies `tasks
      ensures Outcome(old(State()), SetCompleted(old(State()), id, completed, now), State(), error)
    {
      if id !in tasks || tasks[id].deletedAt.Some? {
        return Some(NotFound);
      }
      var task := tasks[id];
      assert tasks[id := task] == tasks;
      if completed {
        if task.completedAt.Some? {
          return None;
        }
        tasks := tasks[id := task.(completedAt := Some(now))];
      } else {
        if task.completedAt.None? {
          return None;
        }
        tasks := tasks[id := task.(completedAt := None)];
      }
      return None;
    }

    // --- single occurrences ----------------------------------------------------------------

    method CompleteOccurrence(id: Id, t: int, completed: bool, now: int) returns (error: Option<Error>)
      requires OneChildPerSlot(State())
      modifies `tasks, `exceptions
      ensures Outcome(old(State()), Store.SetOccurrenceCompleted(old(State()), id, t, completed, now), State(), error)
    {
      if id !in tasks || tasks[id].deletedAt.Some? {
        return Some(NotFound);
      }
      hide SetCompleted, Upserted, HasChildAt;
      if tasks[id].config.None? {
        error := SetTaskCompleted(id, completed, now);
        return;
      }
      var child := FindChild(id, t);
      if child.Some? {
        error := SetTaskCompleted(child.value, completed, now);
        return;
      }
      UpsertOverride(id, t, NO_CHANGES.(completedAt := Some(if completed then Some(now) else None)));
      return None;
    }

    /** Soft-deletes a master and, each with a tombstone of its own, its live children. */
    method BuryWithChildren(id: Id, now: int)
      requires id in tasks
      modifies `tasks
      ensures tasks == Tombstoned(old(tasks), id, now)
    {
      RowsBuried(tasks, id, now);
      ghost var before, buried := tasks, Tombstoned(tasks, id, now);
      tasks := tasks[id := tasks[id].(deletedAt := Some(now))];
      assert !IsChildOf(tasks[id], id);
      hide IsChildOf, Tombstoned;
      var children := FindChildren(id);
      assert Halfway(before, buried, children, tasks);
      hide Halfway;
      while children != {}
        invariant forall k: Id :: k in children ==> k in before && IsChildOf(before[k], id)
        invariant Halfway(before, buried, children, tasks)
        decreases |children|
      {
        var k: Id :| k in children;
        OneMoreRow(before, buried, children, tasks, k);
        children := children - {k};
        tasks := tasks[k := tasks[k].(deletedAt := Some(now))];
      }
      AllRows(before, buried, tasks);
    }

    method RemoveTask(id: Id, mode: DeleteMode, now: int) returns (error: Option<Error>)
      modifies `tasks, `exceptions
      ensures Outcome(old(State()), Remove(old(State()), id, mode, now), State(), error)
    {
      hide Upserted, Tombstoned;
      if id !in tasks || tasks[id].deletedAt.Some? {
        return Some(NotFound);
      }
      var task := tasks[id];
      if task.parentTaskId.Some? && task.originalStartAt.Some? {
        tasks := tasks[id := task.(deletedAt := Some(now))];
        if mode == RevertSlot {
          if task.completedAt.Some? {
            UpsertOverride(task.parentTaskId.value, task.originalStartAt.value,
              NO_CHANGES.(completedAt := Some(task.completedAt)));
          }
        } else {
          UpsertOverride(task.parentTaskId.value, task.originalStartAt.value, NO_CHANGES.(isSkipped := Some(true)));
        }
      } else {
        BuryWithChildren(id, now);
      }
      return None;
    }

    /** A single-occurrence change on a task without a rule of its own. */
    method CollapseOverrideToMaster(id: Id, changes: OverrideChanges, now: int) returns (error: Option<Error>)
      requires RowsValid(State())
      modifies `tasks, `exceptions
      ensures Outcome(old(State()), CollapseOverride(old(State()), id, changes, now), State(), error)
    {
      hide Update, SetCompleted, Remove, RowsValid;
      if changes.isSkipped == Some(true) {
        error := RemoveTask(id, RemoveSlot, now);
        return;
      }
      error := UpdateTask(id, CollapsedInput(changes), now);
      if error.None? && changes.completedAt.Some? {
        error := SetTaskCompleted(id, changes.completedAt.value.Some?, now);
        assert error.None? by {
          UpdatedIsLive(old(State()), id, CollapsedInput(changes), now, changes.completedAt.value.Some?);
        }
      }
    }

    method OverrideOccurrence(id: Id, t: int, changes: OverrideChanges, now: int) returns (error: Option<Error>)
      requires RowsValid(State())
      modifies `tasks, `exceptions
      ensures Outcome(old(State()), ApplyOccurrenceOverride(old(State()), id, t, changes, now), State(), error)
    {
      hide CollapseOverride, IsGenerated, Upserted, HasChildAt, ValidAxes;
      if id !in tasks || tasks[id].deletedAt.Some? {
        return Some(NotFound);
      }
      var task := tasks[id];
      if task.config.None? {
        error := CollapseOverrideToMaster(id, changes, now);
        return;
      }
      var child := FindChild(id, t);
      if child.Some? {
        return Some(Error.Overridden);
      }
      if IsOverrideMutation(changes) {
        var generated := IsGeneratedOccurrence(task, task.config.value, t);
        if !generated {
          return Some(BadRequest);
        }
      }
      UpsertOverride(id, t, changes);
      return None;
    }

    // --- materialized overrides ---------------------------------------------------------------

    /** Folds the exception at the slot onto the child row and deletes it. */
    method AbsorbExceptionInto(childId: Id, parent: Task, t: int)
      requires childId in tasks && tasks[childId].id == childId
      modifies `tasks, `exceptions
      ensures State() == Owned(old(State()), parent, t, old(tasks)[childId])
    {
      if (parent.id, t) !in exceptions {
        assert tasks[childId := tasks[childId]] == tasks;
        assert exceptions - {(parent.id, t)} == exceptions;
        return;
      }
      var exception := exceptions[(parent.id, t)];
      var child := tasks[childId];
      if exception.overrideStartAt.Some? {
        var startAt := exception.overrideStartAt.value;
        child := child.(
          startAt := Some(startAt),
          endAt := if exception.overrideEndAt.Some? then exception.overrideEndAt
                   else if Duration(parent).Some? then Some(startAt + Duration(parent).value)
                   else child.endAt);
      } else if exception.overrideEndAt.Some? {
        child := child.(endAt := exception.overrideEndAt);
      }
      if exception.overrideTitle.Some? {
        child := child.(title := exception.overrideTitle.value);
      }
      if exception.completedAt.Some? {
        child := child.(completedAt := exception.completedAt);
      }
      tasks := tasks[childId := child];
      DeleteForSlot(parent.id, t);
    }

    method CreateOrUpdateOverride(p: Id, t: int, patch: UpdateInput, newId: Id, now: int) returns (error: Option<Error>)
      requires Structure(State()) && newId !in tasks && ValidRecurrence(patch)
      modifies `tasks, `exceptions
      ensures Outcome(old(State()), Store.CreateOrUpdateOverride(old(State()), p, t, patch, newId, now), State(), error)
    {
      hide Update, HasChildAt, ValidAxes, Owned, IsGenerated;
      if p !in tasks || tasks[p].deletedAt.Some? {
        return Some(NotFound);
      }
      var snapshot, parent := State(), tasks[p];
      if parent.parentTaskId.Some? {
        return Some(BadRequest);
      }
      var existing := FindChild(p, t);
      var childId;
      if existing.Some? {
        childId := existing.value;
      } else {
        var effective := EffectiveConfig(groups, parent);
        if effective.None? {
          return Some(NotGenerated);
        }
        var generated := IsGeneratedOccurrence(parent, effective.value, t);
        if !generated {
          return Some(NotGenerated);
        }
        childId := newId;
        tasks := tasks[newId := ChildRow(parent, newId, t)];
      }
      ghost var child := tasks[childId];
      AbsorbExceptionInto(childId, parent, t);
      assert State() == Owned(old(State()), parent, t, child) by {
        OwnedOfInserted(old(State()), parent, t, child);
      }
      OwnedKeeps(old(State()), parent, t, child);
      error := UpdateTask(childId, patch, now);
      if error.Some? {
        // The transaction rolls back.
        tasks, exceptions := snapshot.tasks, snapshot.exceptions;
      }
    }

    // --- splitting and ending a series -------------------------------------------------------

    static method CountOccurrencesBefore(task: Task, c: Config, t: int) returns (n: nat)
      requires ValidAxes(c)
      ensures n == Store.CountOccurrencesBefore(task, c, t)
    {
      if task.startAt.None? {
        return 0;
      }
      var occurrences := Engine.ExpandOccurrences(task, c, map[], task.startAt.value - 1, t);
      return |occurrences|;
    }

    static method ResolveSplitRecurrence(task: Task, c: Config, t: int, dto: Option<RuleDto>) returns (r: Config)
      requires ValidAxes(c)
      ensures r == Store.ResolveSplitRecurrence(task, c, t, dto)
    {
      hide Store.CountOccurrencesBefore, ValidAxes, CloneWithOverrides;
      r := CloneWithOverrides(c, dto);
      var isCountRule := c.endType == AfterCount && c.count.Some?;
      var overridesCount := dto.Some? && dto.value.count.Some?;
      if !isCountRule || overridesCount {
        return;
      }
      var before := CountOccurrencesBefore(task, c, t);
      var rest := c.count.value - before;
      r := r.(count := Some(if rest < 0 then 0 else rest));
    }

    /** Copies every exception of `from` dated at or past `t` onto `to`, one upsert each. */
    method CopyExceptionsFrom(from: Id, to: Id, t: int)
      requires from != to
      modifies `exceptions
      ensures exceptions == CopiedExceptions(old(exceptions), from, to, t)
    {
      var rest := set k | k in exceptions && k.0 == from;
      ghost var done: set<int> := {};
      hide CopiedExceptions, Upserted, CopiedSome, CarriedOver;
      NothingCopied(exceptions, from, to);
      while rest != {}
        invariant forall k :: k in rest ==> k.0 == from && k in old(exceptions)
        invariant forall s: int :: s in done ==> s >= t && (from, s) in old(exceptions)
        invariant forall s: int :: s >= t && (from, s) in old(exceptions) ==> s in done || (from, s) in rest
        invariant CopiedSome(old(exceptions), exceptions, done, from, to)
        decreases |rest|
      {
        var k :| k in rest;
        assert k == (from, k.1);
        rest := rest - {k};
        if k.1 >= t {
          CopyOneMore(old(exceptions), exceptions, done, from, to, k.1);
          UpsertOverride(to, k.1, CarriedOver(exceptions[k]));
          done := done + {k.1};
        }
      }
      AllCopied(old(exceptions), exceptions, done, from, to, t);
    }

    method SplitSeriesAt(id: Id, t: int, changes: SplitChanges, newId: Id, now: int) returns (error: Option<Error>)
      requires Structure(State()) && newId !in tasks && ValidDto(changes.recurrence)
      modifies `tasks, `exceptions
      ensures Outcome(old(State()), SplitSeries(old(State()), id, t, changes, newId, now), State(), error)
    {
      hide Update, ValidAxes, Swept, CopiedExceptions, Store.ResolveSplitRecurrence, LinksValid, OneChildPerSlot,
        SingleOwner, ExceptionsKeyed;
      if id !in tasks || tasks[id].deletedAt.Some? {
        return Some(NotFound);
      }
      var task := tasks[id];
      if task.config.None? || task.startAt == Some(t) {
        SplitPatchIsValid(changes);
        error := UpdateTask(id, SplitAsUpdate(changes), now);
        return;
      }
      if changes.groupId.Some? && changes.groupId.value.Some? {
        var bad := CheckGroup(groups, changes.groupId.value.value, task.calendarId);
        if bad.Some? {
          return bad;
        }
      }
      var c := task.config.value;
      var newConfig := ResolveSplitRecurrence(task, c, t, changes.recurrence);
      var cut := task.(config := Some(c.(endType := UntilDate, endDate := Some(LocalDay(task.offset, t) - 1))));
      tasks := tasks[id := cut];
      var startAt := changes.startAt.Or(None).Or(t);
      var endAt := if changes.endAt.Some? then changes.endAt.value
                   else if Duration(task).Some? then Some(startAt + Duration(task).value)
                   else None;
      tasks := tasks[newId := Task(newId, task.calendarId, changes.groupId.Or(task.groupId),
        changes.title.Or(task.title),
        Some(startAt), endAt, changes.offset.Or(task.offset), None, Some(newConfig), None, None, None, None)];
      CopyExceptionsFrom(id, newId, t);
      TruncatedAxes(task, t);
      assert cut == TruncatedRow(task, t);
      assert tasks[newId] == SplitRow(task, c, t, changes, newId);
      SweepOverrideChildren(cut, cut.config, now);
      return None;
    }

    method EndSeries(id: Id, t: int, now: int) returns (error: Option<Error>)
      requires RowsValid(State())
      modifies `tasks, `exceptions
      ensures Outcome(old(State()), EndSeriesAt(old(State()), id, t, now), State(), error)
    {
      hide ValidAxes, Swept, Remove;
      if id !in tasks || tasks[id].deletedAt.Some? {
        return Some(NotFound);
      }
      var task := tasks[id];
      if task.config.None? || task.startAt == Some(t) {
        error := RemoveTask(id, RemoveSlot, now);
        return;
      }
      var c := task.config.value;
      var cut := task.(config := Some(c.(endType := UntilDate, endDate := Some(LocalDay(task.offset, t) - 1))));
      TruncatedAxes(task, t);
      assert cut == TruncatedRow(task, t);
      tasks := tasks[id := cut];
      SweepOverrideChildren(cut, cut.config, now);
      return None;
    }
  }

  /** `now` is `before` with the slots `done` of task `from` copied onto task `to`. */
  ghost predicate CopiedSome(before: map<(Id, int), OccurrenceException>, now: map<(Id, int), OccurrenceException>,
                             done: set<int>,
                             from: Id, to: Id)
  {
    && (forall s :: s in done ==> (from, s) in before)
    && (forall p: Id, s: int :: (p, s) in now <==> (p, s) in before || (p == to && s in done))
    && (forall p: Id, s: int :: (p, s) in now ==>
         now[(p, s)] == if p == to && s in done then before[(from, s)] else before[(p, s)])
  }

  lemma NothingCopied(before: map<(Id, int), OccurrenceException>, from: Id, to: Id)
    ensures CopiedSome(before, before, {}, from, to)
  {
  }

  /** Every field of a row, as the changes of an upsert. */
  function CarriedOver(e: OccurrenceException): OverrideChanges {
    OverrideChanges(Some(e.overrideStartAt), Some(e.overrideEndAt), Some(e.overrideTitle), Some(e.isSkipped),
      Some(e.completedAt))
  }

  lemma CarriedOverReplaces(exceptions: map<(Id, int), OccurrenceException>, to: Id, s: int, e: OccurrenceException)
    ensures Upserted(exceptions, to, s, CarriedOver(e)) == exceptions[(to, s) := e]
  {
  }

  lemma CopyOneMore(before: map<(Id, int), OccurrenceException>, now: map<(Id, int), OccurrenceException>,
                    done: set<int>,
                    from: Id, to: Id, s: int)
    requires CopiedSome(before, now, done, from, to) && from != to && (from, s) in before
    ensures (from, s) in now
    ensures CopiedSome(before, Upserted(now, to, s, CarriedOver(now[(from, s)])), done + {s}, from, to)
  {
    hide Upserted, CarriedOver;
    CarriedOverReplaces(now, to, s, now[(from, s)]);
  }

  lemma CopiedEntry(before: map<(Id, int), OccurrenceException>, from: Id, to: Id, t: int, p: Id, s: int)
    ensures
      var copied, replaced := CopiedExceptions(before, from, to, t), p == to && s >= t && (from, s) in before;
      && ((p, s) in copied <==> replaced || (p, s) in before)
      && ((p, s) in copied ==> copied[(p, s)] == if replaced then before[(from, s)] else before[(p, s)])
  {
  }

  lemma AllCopied(before: map<(Id, int), OccurrenceException>, now: map<(Id, int), OccurrenceException>, done: set<int>,
                  from: Id, to: Id, t: int)
    requires CopiedSome(before, now, done, from, to) && from != to
    requires forall s :: s in done <==> s >= t && (from, s) in before
    ensures now == CopiedExceptions(before, from, to, t)
  {
    hide CopiedExceptions;
    var copied := CopiedExceptions(before, from, to, t);
    forall k: (Id, int) ensures k in now <==> k in copied
      ensures k in now ==> now[k] == copied[k]
    {
      CopiedEntry(before, from, to, t, k.0, k.1);
      assert k == (k.0, k.1);
    }
  }

  lemma SplitPatchIsValid(changes: SplitChanges)
    requires ValidDto(changes.recurrence)
    ensures ValidRecurrence(SplitAsUpdate(changes))
  {
    hide ValidAxes, ToConfig;
  }

  lemma TruncatedAxes(task: Task, t: int)
    requires task.config.Some? && ValidAxes(task.config.value)
    ensures ValidAxes(TruncatedRow(task, t).config.value)
  {
  }

  /** A loop over rows has made `after` of all but the rows still `open`, which are as before. */
  predicate Halfway(before: map<Id, Task>, after: map<Id, Task>, open: set<Id>, tasks: map<Id, Task>) {
    && tasks.Keys == after.Keys == before.Keys
    && forall k: Id :: k in tasks ==> tasks[k] == if k in open then before[k] else after[k]
  }

  lemma OneMoreRow(before: map<Id, Task>, after: map<Id, Task>, open: set<Id>, tasks: map<Id, Task>, k: Id)
    requires Halfway(before, after, open, tasks) && k in open && k in before
    ensures k in tasks && k in after && tasks[k] == before[k]
    ensures Halfway(before, after, open - {k}, tasks[k := after[k]])
  {
  }

  lemma AllRows(before: map<Id, Task>, after: map<Id, Task>, tasks: map<Id, Task>)
    requires Halfway(before, after, {}, tasks)
    ensures tasks == after
  {
  }

  lemma OthersAreNotSwept(tasks: map<Id, Task>, parent: Task, c: Option<Config>, now: int)
    ensures Swept(tasks, parent, c, now).Keys == tasks.Keys
    ensures forall k: Id :: k in tasks ==>
      Swept(tasks, parent, c, now)[k] == if IsChildOf(tasks[k], parent.id) then SweptRow(parent, c, now, tasks[k])
        else tasks[k]
  {
    hide EffectivelyGenerates;
  }

  lemma RowsBuried(tasks: map<Id, Task>, id: Id, now: int)
    requires id in tasks
    ensures Tombstoned(tasks, id, now).Keys == tasks.Keys
    ensures forall k: Id :: k in tasks ==>
      Tombstoned(tasks, id, now)[k] ==
        if k == id || IsChildOf(tasks[k], id) then tasks[k].(deletedAt := Some(now)) else tasks[k]
  {
  }

  lemma UpdateErrorNeedsLive(db: Db, id: Id, patch: UpdateInput)
    ensures UpdateError(db, id, patch).None? ==> IsLive(db, id)
  {
    hide PatchedRow;
  }

  lemma PatchedAxes(task: Task, patch: UpdateInput)
    requires ValidRecurrence(patch) && (task.config.Some? ==> ValidAxes(task.config.value))
    ensures PatchedRow(task, patch).config.Some? ==> ValidAxes(PatchedRow(task, patch).config.value)
  {
    hide ToConfig, ValidAxes;
  }

  lemma UpdatedIsLive(db: Db, id: Id, patch: UpdateInput, now: int, completed: bool)
    requires RowsValid(db) && Update(db, id, patch, now).Ok?
    ensures SetCompleted(Update(db, id, patch, now).value, id, completed, now).Ok?
  {
    hide Update;
    UpdateNeedsLive(db, id, patch, now);
    UpdatedRow(db, id, patch, now);
  }

  /** Inserting the child before it absorbs the exception makes no difference. */
  lemma OwnedOfInserted(db: Db, parent: Task, t: int, child: Task)
    ensures Owned(db.(tasks := db.tasks[child.id := child]), parent, t, child) == Owned(db, parent, t, child)
  {
  }
}
