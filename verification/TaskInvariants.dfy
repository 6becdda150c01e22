/**
 * What every run of the store's transactions keeps: parents and override children
 * stay well linked, a slot has a single owner, and a child is flagged as detached
 * exactly when its parent's effective rule no longer generates its slot.
 */
module TaskInvariants {
  import opened Wrappers
  import opened RecurrenceRule
  import opened TaskRows
  import opened Series
  import opened SeriesLaws
  import opened TaskStore

  // --- runs -------------------------------------------------------------------

  datatype Op =
    | DoCreate(newId: Id, input: CreateInput)
    | DoUpdate(id: Id, patch: UpdateInput, now: int)
    | DoSetCompleted(id: Id, completed: bool, now: int)
    | DoSetOccurrenceCompleted(id: Id, t: int, completed: bool, now: int)
    | DoOverride(id: Id, t: int, changes: OverrideChanges, now: int)
    | DoCreateOverride(id: Id, t: int, patch: UpdateInput, newId: Id, now: int)
    | DoSplit(id: Id, t: int, split: SplitChanges, newId: Id, now: int)
    | DoEnd(id: Id, t: int, now: int)
    | DoRemove(id: Id, mode: DeleteMode, now: int)

  ghost function Apply(db: Db, op: Op): Result<Db, Error> {
    match op
    case DoCreate(newId, input) => Create(db, newId, input)
    case DoUpdate(id, patch, now) => Update(db, id, patch, now)
    case DoSetCompleted(id, completed, now) => SetCompleted(db, id, completed, now)
    case DoSetOccurrenceCompleted(id, t, completed, now) => SetOccurrenceCompleted(db, id, t, completed, now)
    case DoOverride(id, t, changes, now) => ApplyOccurrenceOverride(db, id, t, changes, now)
    case DoCreateOverride(id, t, patch, newId, now) => CreateOrUpdateOverride(db, id, t, patch, newId, now)
    case DoSplit(id, t, split, newId, now) => SplitSeries(db, id, t, split, newId, now)
    case DoEnd(id, t, now) => EndSeriesAt(db, id, t, now)
    case DoRemove(id, mode, now) => Remove(db, id, mode, now)
  }

  predicate ValidRecurrence(patch: UpdateInput) {
    patch.recurrence.Some? ==> ValidDto(patch.recurrence.value)
  }

  /** Primary keys are drawn anew, and request validation keeps rule axes in range. */
  predicate Admissible(db: Db, op: Op) {
    match op
    case DoCreate(newId, input) => newId !in db.tasks && ValidDto(input.recurrence)
    case DoUpdate(_, patch, _) => ValidRecurrence(patch)
    case DoCreateOverride(_, _, patch, newId, _) => newId !in db.tasks && ValidRecurrence(patch)
    case DoSplit(_, _, split, newId, _) => newId !in db.tasks && ValidDto(split.recurrence)
    case _ => true
  }

  /** One transaction: committed, or rolled back when it is refused. */
  ghost predicate Step(before: Db, op: Op, after: Db) {
    && Admissible(before, op)
    && after == match Apply(before, op) { case Ok(db) => db case Refused(_) => before }
  }

  ghost predicate IsRun(states: seq<Db>, ops: seq<Op>) {
    && |states| == |ops| + 1
    && forall i :: 0 <= i < |ops| ==> Step(states[i], ops[i], states[i + 1])
  }

  /** A run leads to `db` from a store without tasks. */
  ghost predicate Reachable(db: Db) {
    exists states: seq<Db>, ops: seq<Op> ::
      IsRun(states, ops) && states[0] == Db(map[], map[], db.groups) && ValidGroups(db.groups) && states[|ops|] == db
  }

  lemma EmptyIsReachable(groups: map<Id, Group>)
    requires ValidGroups(groups)
    ensures Reachable(Db(map[], map[], groups))
  {
    var states, ops := [Db(map[], map[], groups)], [];
    assert IsRun(states, ops) && states[|ops|] == Db(map[], map[], groups);
  }

  lemma StepReaches(before: Db, op: Op, after: Db)
    requires Reachable(before) && Step(before, op, after) && after.groups == before.groups
    ensures Reachable(after)
  {
    hide Step;
    var states: seq<Db>, ops: seq<Op> :|
      IsRun(states, ops) && states[0] == Db(map[], map[], before.groups) && ValidGroups(before.groups)
        && states[|ops|] == before;
    var states', ops' := states + [after], ops + [op];
    assert IsRun(states', ops') by {
      forall i | 0 <= i < |ops'| ensures Step(states'[i], ops'[i], states'[i + 1]) {
        assert i < |ops| ==> states'[i] == states[i] && states'[i + 1] == states[i + 1];
      }
    }
    assert states'[|ops'|] == after;
  }

  // --- the invariants ---------------------------------------------------------

  predicate ValidGroups(groups: map<Id, Group>) {
    forall g :: g in groups && groups[g].config.Some? ==> ValidAxes(groups[g].config.value)
  }

  ghost predicate RowsValid(db: Db) {
    && ValidGroups(db.groups)
    && (forall id: Id :: id in db.tasks ==> db.tasks[id].id == id)
    && (forall id: Id :: id in db.tasks && db.tasks[id].config.Some? ==> ValidAxes(db.tasks[id].config.value))
  }

  /** A live child's parent is live, in the same calendar and itself no child; the child has no rule of its own. */
  predicate LinkValid(db: Db, row: Task) {
    row.deletedAt.None? && row.parentTaskId.Some? ==>
      && IsLive(db, row.parentTaskId.value) && db.tasks[row.parentTaskId.value].parentTaskId.None?
      && db.tasks[row.parentTaskId.value].calendarId == row.calendarId
      && row.config.None? && row.originalStartAt.Some?
  }

  ghost predicate LinksValid(db: Db) {
    forall id: Id :: id in db.tasks ==> LinkValid(db, db.tasks[id])
  }

  ghost predicate OneChildPerSlot(db: Db) {
    forall a: Id, b: Id, p: Id, t: int :: IsChildAt(db, a, p, t) && IsChildAt(db, b, p, t) ==> a == b
  }

  /** No slot has both a live override child and an exception row. */
  ghost predicate SingleOwner(db: Db) {
    forall id: Id, p: Id, t: int :: IsChildAt(db, id, p, t) ==> (p, t) !in db.exceptions
  }

  /** The foreign key of the exception table. */
  ghost predicate ExceptionsKeyed(db: Db) {
    forall p: Id, t: int :: (p, t) in db.exceptions ==> p in db.tasks
  }

  ghost predicate Structure(db: Db) {
    RowsValid(db) && LinksValid(db) && OneChildPerSlot(db) && SingleOwner(db) && ExceptionsKeyed(db)
  }

  lemma StructuredRows(db: Db)
    requires Structure(db)
    ensures RowsValid(db) && ExceptionsKeyed(db)
  {
  }

  /** The series has an occurrence at `t` that the engine can reach. */
  ghost predicate Slot(s: Series, t: int) {
    Member(s, t) && WithinSteps(s.config, SeedDay(s), LocalDay(s.offset, t))
  }

  /** The task's effective rule generates `t`. */
  ghost predicate GeneratesSlot(groups: map<Id, Group>, task: Task, t: int) {
    var c := EffectiveConfig(groups, task);
    c.Some? && task.startAt.Some? && Slot(SeriesOf(task, c.value), t)
  }

  ghost predicate AttachedRight(db: Db, id: Id, p: Id, t: int)
    requires id in db.tasks && p in db.tasks
  {
    db.tasks[id].detachedAt.None? <==> GeneratesSlot(db.groups, db.tasks[p], t)
  }

  /** For the children of master `m`, `detachedAt` is null exactly when its effective rule generates the slot. */
  ghost predicate AttachedTo(db: Db, m: Id) {
    forall id: Id, t: int :: IsChildAt(db, id, m, t) ==> m in db.tasks && AttachedRight(db, id, m, t)
  }

  /** `detachedAt` is null exactly when the parent's effective rule generates the slot. */
  ghost predicate Attachment(db: Db) {
    forall m: Id :: AttachedTo(db, m)
  }

  predicate ShortSpan(task: Task) {
    0 <= Duration(task).Or(0) <= MAX_PROBED_SPAN
  }

  /** While `m` has live children, its occurrences are no longer than the membership probe can see through. */
  ghost predicate SpanSeen(db: Db, m: Id) {
    m in db.tasks && (exists id: Id, t: int :: IsChildAt(db, id, m, t)) ==> ShortSpan(db.tasks[m])
  }

  // --- how single table changes keep the structure ------------------------------

  /** A row edit that leaves the links alone. */
  predicate SameLinks(a: Task, b: Task) {
    && a.id == b.id && a.calendarId == b.calendarId && a.deletedAt == b.deletedAt
    && a.parentTaskId == b.parentTaskId && a.originalStartAt == b.originalStartAt
  }

  predicate ConfigAllowed(row: Task) {
    row.config.Some? ==> row.parentTaskId.None? && ValidAxes(row.config.value)
  }

  ghost predicate Relabelled(tasks: map<Id, Task>, tasks': map<Id, Task>) {
    && tasks'.Keys == tasks.Keys
    && forall id: Id :: id in tasks ==>
         && SameLinks(tasks[id], tasks'[id])
         && (tasks'[id].config == tasks[id].config || ConfigAllowed(tasks'[id]))
  }

  lemma RelabelKeeps(db: Db, tasks': map<Id, Task>)
    requires Structure(db) && Relabelled(db.tasks, tasks')
    ensures Structure(db.(tasks := tasks'))
  {
    hide ValidAxes;
    var db' := db.(tasks := tasks');
    forall id: Id, p: Id, t: int ensures IsChildAt(db', id, p, t) <==> IsChildAt(db, id, p, t) {}
  }

  ghost predicate Buried(tasks: map<Id, Task>, tasks': map<Id, Task>, now: int) {
    && tasks'.Keys == tasks.Keys
    && (forall id: Id :: id in tasks ==> tasks'[id] == tasks[id] || tasks'[id] == tasks[id].(deletedAt := Some(now)))
    && forall id: Id, p: Id | id in tasks && p in tasks && IsChildOf(tasks[id], p) ::
         tasks'[p].deletedAt.Some? && tasks[p].deletedAt.None? ==> tasks'[id].deletedAt.Some?
  }

  lemma BuryKeeps(db: Db, tasks': map<Id, Task>, now: int)
    requires Structure(db) && Buried(db.tasks, tasks', now)
    ensures Structure(db.(tasks := tasks'))
  {
    hide ValidAxes;
    var db' := db.(tasks := tasks');
    forall id: Id, p: Id, t: int ensures IsChildAt(db', id, p, t) ==> IsChildAt(db, id, p, t) {}
  }

  ghost predicate Owns(db: Db, p: Id, t: int) {
    (p, t) in db.exceptions || HasChildAt(db, p, t)
  }

  /** A row that may join the table: a master, or a child of a live master at a free slot. */
  ghost predicate Joinable(db: Db, row: Task) {
    && row.id !in db.tasks && row.deletedAt.None? && ConfigAllowed(row)
    && (row.parentTaskId.Some? ==>
         && IsLive(db, row.parentTaskId.value) && db.tasks[row.parentTaskId.value].parentTaskId.None?
         && db.tasks[row.parentTaskId.value].calendarId == row.calendarId
         && row.originalStartAt.Some? && !Owns(db, row.parentTaskId.value, row.originalStartAt.value))
  }

  lemma JoinKeeps(db: Db, row: Task)
    requires Structure(db) && Joinable(db, row)
    ensures Structure(db.(tasks := db.tasks[row.id := row]))
  {
    hide ValidAxes;
    var db' := db.(tasks := db.tasks[row.id := row]);
    forall id: Id, p: Id, t: int ensures IsChildAt(db', id, p, t) ==>
      if id == row.id then row.parentTaskId == Some(p) && row.originalStartAt == Some(t) else IsChildAt(db, id, p, t) {}
  }

  lemma ExceptKeeps(db: Db, exceptions': map<(Id, int), OccurrenceException>)
    requires Structure(db)
    requires forall p: Id, t: int :: (p, t) in exceptions' ==>
      (p, t) in db.exceptions || (p in db.tasks && !HasChildAt(db, p, t))
    ensures Structure(db.(exceptions := exceptions'))
  {
    hide ValidAxes;
    var db' := db.(exceptions := exceptions');
    forall id: Id, p: Id, t: int ensures IsChildAt(db', id, p, t) <==> IsChildAt(db, id, p, t) {}
    forall id: Id, p: Id, t: int | IsChildAt(db, id, p, t) ensures (p, t) !in exceptions' {
      assert HasChildAt(db, p, t);
    }
  }

  // --- every operation keeps the structure ---------------------------------------

  lemma SweptRowKeepsLinks(parent: Task, c: Option<Config>, now: int, row: Task)
    ensures SameLinks(row, SweptRow(parent, c, now, row)) && SweptRow(parent, c, now, row).config == row.config
  {
    hide EffectivelyGenerates;
  }

  lemma SweptRelabels(tasks: map<Id, Task>, parent: Task, c: Option<Config>, now: int)
    ensures Relabelled(tasks, Swept(tasks, parent, c, now))
  {
    hide SweptRow, SameLinks, ConfigAllowed;
    forall id: Id | id in tasks
      ensures SameLinks(tasks[id], Swept(tasks, parent, c, now)[id])
      ensures Swept(tasks, parent, c, now)[id].config == tasks[id].config
    {
      SweptRowKeepsLinks(parent, c, now, tasks[id]);
    }
  }

  lemma RelabelTwice(a: map<Id, Task>, b: map<Id, Task>, c: map<Id, Task>)
    requires Relabelled(a, b) && Relabelled(b, c)
    ensures Relabelled(a, c)
  {
    hide ValidAxes;
  }

  /** The new axes of a patched row are valid when the request and the old ones are. */
  lemma UpdateRelabels(db: Db, id: Id, patch: UpdateInput, now: int)
    requires RowsValid(db) && ValidRecurrence(patch) && Update(db, id, patch, now).Ok?
    ensures Relabelled(db.tasks, Update(db, id, patch, now).value.tasks)
    ensures Update(db, id, patch, now).value == db.(tasks := Update(db, id, patch, now).value.tasks)
  {
    hide EffectivelyGenerates, ValidAxes, ToConfig, Swept;
    var next := PatchedRow(db.tasks[id], patch);
    var tasks := db.tasks[id := next];
    assert Relabelled(db.tasks, tasks);
    SweptRelabels(tasks, next, EffectiveConfig(db.groups, next), now);
    RelabelTwice(db.tasks, tasks, Swept(tasks, next, EffectiveConfig(db.groups, next), now));
  }

  lemma UpdateKeeps(db: Db, id: Id, patch: UpdateInput, now: int)
    requires Structure(db) && ValidRecurrence(patch) && Update(db, id, patch, now).Ok?
    ensures Structure(Update(db, id, patch, now).value)
  {
    hide Update, Relabelled, LinksValid, OneChildPerSlot, SingleOwner, ExceptionsKeyed;
    UpdateRelabels(db, id, patch, now);
    RelabelKeeps(db, Update(db, id, patch, now).value.tasks);
  }

  lemma SetCompletedKeeps(db: Db, id: Id, completed: bool, now: int)
    requires Structure(db) && SetCompleted(db, id, completed, now).Ok?
    ensures Structure(SetCompleted(db, id, completed, now).value)
  {
    RelabelKeeps(db, SetCompleted(db, id, completed, now).value.tasks);
  }

  lemma RemoveChildKeeps(db: Db, id: Id, p: Id, t: int, ch: OverrideChanges, now: int)
    requires Structure(db) && IsChildAt(db, id, p, t)
    ensures
      var tasks := db.tasks[id := db.tasks[id].(deletedAt := Some(now))];
      Structure(db.(tasks := tasks)) && Structure(db.(tasks := tasks, exceptions := Upserted(db.exceptions, p, t, ch)))
  {
    var gone := db.(tasks := db.tasks[id := db.tasks[id].(deletedAt := Some(now))]);
    assert LinkValid(db, db.tasks[id]);
    hide RowsValid, SingleOwner, ExceptionsKeyed, Upserted;
    assert Buried(db.tasks, gone.tasks, now) by {
      hide OneChildPerSlot;
      forall k: Id, x: Id
        | k in db.tasks && x in db.tasks && IsChildOf(db.tasks[k], x) && gone.tasks[x].deletedAt.Some?
          && db.tasks[x].deletedAt.None?
        ensures gone.tasks[k].deletedAt.Some?
      {
        assert LinkValid(db, db.tasks[k]);
      }
    }
    hide LinksValid;
    assert !HasChildAt(gone, p, t) by {
      forall other: Id ensures !IsChildAt(gone, other, p, t) {
        assert IsChildAt(gone, other, p, t) ==> IsChildAt(db, other, p, t);
      }
    }
    hide Structure, Buried, HasChildAt;
    BuryKeeps(db, gone.tasks, now);
    UpsertKeeps(gone, p, t, ch);
  }

  lemma CascadeKeeps(db: Db, id: Id, now: int)
    requires Structure(db) && IsLive(db, id)
    ensures Structure(db.(tasks := Tombstoned(db.tasks, id, now)))
  {
    assert Buried(db.tasks, Tombstoned(db.tasks, id, now), now);
    hide Structure, Buried, Tombstoned;
    BuryKeeps(db, Tombstoned(db.tasks, id, now), now);
  }

  lemma RemoveKeeps(db: Db, id: Id, mode: DeleteMode, now: int)
    requires Structure(db) && Remove(db, id, mode, now).Ok?
    ensures Structure(Remove(db, id, mode, now).value)
  {
    hide Upserted, Structure, Tombstoned;
    var task := db.tasks[id];
    if task.parentTaskId.Some? && task.originalStartAt.Some? {
      var ch := if mode == RevertSlot then NO_CHANGES.(completedAt := Some(task.completedAt))
        else NO_CHANGES.(isSkipped := Some(true));
      RemoveChildKeeps(db, id, task.parentTaskId.value, task.originalStartAt.value, ch, now);
    } else {
      CascadeKeeps(db, id, now);
    }
  }

  lemma CreateKeeps(db: Db, newId: Id, input: CreateInput)
    requires Structure(db) && newId !in db.tasks && ValidDto(input.recurrence) && Create(db, newId, input).Ok?
    ensures Structure(Create(db, newId, input).value)
  {
    hide ToConfig;
    JoinKeeps(db, Create(db, newId, input).value.tasks[newId]);
  }

  lemma UpsertKeeps(db: Db, p: Id, t: int, ch: OverrideChanges)
    requires Structure(db) && !HasChildAt(db, p, t) && p in db.tasks
    ensures Structure(db.(exceptions := Upserted(db.exceptions, p, t, ch)))
  {
    hide ApplyChanges, Structure;
    ExceptKeeps(db, Upserted(db.exceptions, p, t, ch));
  }

  lemma SetOccurrenceCompletedKeeps(db: Db, id: Id, t: int, completed: bool, now: int)
    requires Structure(db) && SetOccurrenceCompleted(db, id, t, completed, now).Ok?
    ensures Structure(SetOccurrenceCompleted(db, id, t, completed, now).value)
  {
    hide Structure, HasChildAt, Upserted, SetCompleted;
    var task := db.tasks[id];
    if task.config.None? {
      SetCompletedKeeps(db, id, completed, now);
    } else if HasChildAt(db, id, t) {
      SetCompletedKeeps(db, ChildAt(db, id, t), completed, now);
    } else {
      UpsertKeeps(db, id, t, NO_CHANGES.(completedAt := Some(if completed then Some(now) else None)));
    }
  }

  lemma OverrideKeeps(db: Db, id: Id, t: int, ch: OverrideChanges, now: int)
    requires Structure(db) && ApplyOccurrenceOverride(db, id, t, ch, now).Ok?
    ensures Structure(ApplyOccurrenceOverride(db, id, t, ch, now).value)
  {
    hide Structure, HasChildAt, Upserted, SetCompleted, Update, Remove, IsGenerated;
    if db.tasks[id].config.Some? {
      UpsertKeeps(db, id, t, ch);
    } else if ch.isSkipped == Some(true) {
      RemoveKeeps(db, id, RemoveSlot, now);
    } else {
      var updated := Update(db, id, CollapsedInput(ch), now);
      UpdateKeeps(db, id, CollapsedInput(ch), now);
      if ch.completedAt.Some? {
        SetCompletedKeeps(updated.value, id, ch.completedAt.value.Some?, now);
      }
    }
  }

  /** Making a child the owner of its slot, absorbing the exception there. */
  lemma OwnedKeeps(db: Db, parent: Task, t: int, child: Task)
    requires Structure(db) && IsLive(db, parent.id) && db.tasks[parent.id] == parent && parent.parentTaskId.None?
    requires
      || (IsChildAt(db, child.id, parent.id, t) && db.tasks[child.id] == child)
      || (!HasChildAt(db, parent.id, t) && child.id !in db.tasks && child == ChildRow(parent, child.id, t))
    ensures Structure(Owned(db, parent, t, child))
    ensures IsChildAt(Owned(db, parent, t, child), child.id, parent.id, t)
  {
    var freed := db.(exceptions := db.exceptions - {(parent.id, t)});
    ExceptKeeps(db, freed.exceptions);
    var row := Owned(db, parent, t, child).tasks[child.id];
    assert SameLinks(row, child) && row.config == child.config;
    if child.id in db.tasks {
      RelabelKeeps(freed, freed.tasks[child.id := row]);
    } else {
      assert !HasChildAt(freed, parent.id, t) by {
        forall id: Id ensures IsChildAt(freed, id, parent.id, t) ==> IsChildAt(db, id, parent.id, t) {}
      }
      JoinKeeps(freed, row);
    }
  }

  lemma CreateOverrideKeeps(db: Db, p: Id, t: int, patch: UpdateInput, newId: Id, now: int)
    requires Structure(db) && newId !in db.tasks && ValidRecurrence(patch)
    requires CreateOrUpdateOverride(db, p, t, patch, newId, now).Ok?
    ensures Structure(CreateOrUpdateOverride(db, p, t, patch, newId, now).value)
  {
    hide Update, HasChildAt, EffectivelyGenerates, Owned, ChildRow;
    var parent := db.tasks[p];
    assert parent.id == p;
    if HasChildAt(db, p, t) {
      var child := ChildAt(db, p, t);
      assert db.tasks[child].id == child;
      hide Structure;
      OwnedKeeps(db, parent, t, db.tasks[child]);
      UpdateKeeps(Owned(db, parent, t, db.tasks[child]), child, patch, now);
    } else {
      assert ChildRow(parent, newId, t).id == newId by { ChildRowId(parent, newId, t); }
      hide Structure;
      OwnedKeeps(db, parent, t, ChildRow(parent, newId, t));
      UpdateKeeps(Owned(db, parent, t, ChildRow(parent, newId, t)), newId, patch, now);
    }
  }

  lemma ChildRowId(parent: Task, newId: Id, t: int)
    ensures ChildRow(parent, newId, t).id == newId
  {
  }

  lemma ClonedAxes(c: Config, dto: Option<RuleDto>)
    requires ValidAxes(c) && ValidDto(dto)
    ensures ValidAxes(CloneWithOverrides(c, dto))
  {
    if dto.Some? {
      var full := ToConfig(dto.value);
      assert full.byWeekday == dto.value.byWeekday.Or([]) && full.byMonthDay == dto.value.byMonthDay.Or([])
        && full.byMonth == dto.value.byMonth.Or([]);
    }
  }

  /** Truncating a master: its row is relabelled and its children are swept. */
  lemma TruncationRelabels(db: Db, id: Id, t: int, now: int)
    requires RowsValid(db) && id in db.tasks && db.tasks[id].config.Some?
    requires db.tasks[id].parentTaskId.None?
    ensures var cut := TruncatedRow(db.tasks[id], t);
      Relabelled(db.tasks, Swept(db.tasks[id := cut], cut, cut.config, now))
  {
    hide Swept, LocalDay;
    var cut := TruncatedRow(db.tasks[id], t);
    assert ValidAxes(cut.config.value);
    hide ValidAxes;
    assert Relabelled(db.tasks, db.tasks[id := cut]);
    hide Relabelled, TruncatedRow;
    SweptRelabels(db.tasks[id := cut], cut, cut.config, now);
    RelabelTwice(db.tasks, db.tasks[id := cut], Swept(db.tasks[id := cut], cut, cut.config, now));
  }

  lemma MastersOnlyRecur(db: Db, id: Id)
    requires Structure(db) && IsLive(db, id) && db.tasks[id].config.Some?
    ensures db.tasks[id].parentTaskId.None?
  {
    assert LinkValid(db, db.tasks[id]);
  }

  lemma EndKeeps(db: Db, id: Id, t: int, now: int)
    requires Structure(db) && EndSeriesAt(db, id, t, now).Ok?
    ensures Structure(EndSeriesAt(db, id, t, now).value)
  {
    hide Remove, Swept, TruncatedRow, Relabelled, LinksValid, OneChildPerSlot, SingleOwner, ExceptionsKeyed;
    var task := db.tasks[id];
    if task.config.None? || task.startAt == Some(t) {
      RemoveKeeps(db, id, RemoveSlot, now);
    } else {
      MastersOnlyRecur(db, id);
      TruncationRelabels(db, id, t, now);
      RelabelKeeps(db, EndSeriesAt(db, id, t, now).value.tasks);
    }
  }

  /** Sweeping the children of `parent` commutes with adding a row that is not one. */
  lemma SweepThenJoin(tasks: map<Id, Task>, parent: Task, c: Option<Config>, now: int, row: Task)
    requires !IsChildOf(row, parent.id)
    ensures Swept(tasks[row.id := row], parent, c, now) == Swept(tasks, parent, c, now)[row.id := row]
  {
    hide EffectivelyGenerates;
  }

  /** The tables of a split: truncate and sweep the old side, add the new master, copy the exceptions. */
  lemma SplitInStages(db: Db, id: Id, t: int, split: SplitChanges, newId: Id, now: int)
    requires id in db.tasks && db.tasks[id].config.Some? && newId !in db.tasks
    ensures
      var cut := TruncatedRow(db.tasks[id], t);
      var row := SplitRow(db.tasks[id], db.tasks[id].config.value, t, split, newId);
      Swept(db.tasks[id := cut][newId := row], cut, cut.config, now)
        == Swept(db.tasks[id := cut], cut, cut.config, now)[newId := row]
  {
    hide Swept, ResolveSplitRecurrence, LocalDay;
    var cut := TruncatedRow(db.tasks[id], t);
    SweepThenJoin(db.tasks[id := cut], cut, cut.config, now,
      SplitRow(db.tasks[id], db.tasks[id].config.value, t, split, newId));
  }

  lemma SplitRowJoins(db: Db, task: Task, t: int, split: SplitChanges, newId: Id)
    requires task.config.Some? && ValidAxes(task.config.value) && newId !in db.tasks && ValidDto(split.recurrence)
    ensures Joinable(db, SplitRow(task, task.config.value, t, split, newId))
    ensures SplitRow(task, task.config.value, t, split, newId).id == newId
  {
    hide CountOccurrencesBefore, CloneWithOverrides, Duration;
    ClonedAxes(task.config.value, split.recurrence);
  }

  predicate Childless(tasks: map<Id, Task>, p: Id) {
    forall id :: id in tasks ==> !IsChildOf(tasks[id], p)
  }

  lemma CopyKeeps(db: Db, from: Id, to: Id, t: int)
    requires Structure(db) && Childless(db.tasks, to) && to in db.tasks
    ensures Structure(db.(exceptions := CopiedExceptions(db.exceptions, from, to, t)))
  {
    var copied := CopiedExceptions(db.exceptions, from, to, t);
    forall p: Id, s: int | (p, s) in copied
      ensures (p, s) in db.exceptions || (p in db.tasks && !HasChildAt(db, p, s))
    {
    }
    hide Structure, CopiedExceptions;
    ExceptKeeps(db, copied);
  }

  lemma SplitKeeps(db: Db, id: Id, t: int, split: SplitChanges, newId: Id, now: int)
    requires Structure(db) && newId !in db.tasks && ValidDto(split.recurrence)
    requires SplitSeries(db, id, t, split, newId, now).Ok?
    ensures Structure(SplitSeries(db, id, t, split, newId, now).value)
  {
    hide Update, Swept, TruncatedRow, SplitRow, CopiedExceptions, Relabelled, OneChildPerSlot, SingleOwner,
      ExceptionsKeyed, Joinable, CheckGroup;
    var task := db.tasks[id];
    if task.config.None? || task.startAt == Some(t) {
      UpdateKeeps(db, id, SplitAsUpdate(split), now);
    } else {
      MastersOnlyRecur(db, id);
      TruncationRelabels(db, id, t, now);
      SplitInStages(db, id, t, split, newId, now);
      var cut := TruncatedRow(task, t);
      var swept := db.(tasks := Swept(db.tasks[id := cut], cut, cut.config, now));
      RelabelKeeps(db, swept.tasks);
      assert newId !in swept.tasks by { RelabelledKeys(db.tasks, swept.tasks); }
      var row := SplitRow(task, task.config.value, t, split, newId);
      SplitRowJoins(swept, task, t, split, newId);
      JoinKeeps(swept, row);
      var joined := swept.(tasks := swept.tasks[newId := row]);
      NoChildrenYet(swept, row);
      CopyKeeps(joined, id, newId, t);
    }
  }

  lemma RelabelledKeys(tasks: map<Id, Task>, tasks': map<Id, Task>)
    requires Relabelled(tasks, tasks')
    ensures tasks'.Keys == tasks.Keys
  {
  }

  lemma NoChildrenYet(db: Db, row: Task)
    requires LinksValid(db) && Joinable(db, row)
    ensures Childless(db.tasks[row.id := row], row.id)
  {
  }

  /** Links, uniqueness and single ownership are kept by every transaction. */
  lemma StepKeepsStructure(before: Db, op: Op, after: Db)
    requires Structure(before) && Step(before, op, after)
    ensures Structure(after) && after.groups == before.groups
  {
    hide Structure, Create, Update, SetCompleted, SetOccurrenceCompleted, ApplyOccurrenceOverride,
      CreateOrUpdateOverride, SplitSeries, EndSeriesAt, Remove, ValidDto, ValidRecurrence;
    GroupsAreFixed(before, op);
    if Apply(before, op).Ok? {
      match op
      case DoCreate(newId, input) => CreateKeeps(before, newId, input);
      case DoUpdate(id, patch, now) => UpdateKeeps(before, id, patch, now);
      case DoSetCompleted(id, completed, now) => SetCompletedKeeps(before, id, completed, now);
      case DoSetOccurrenceCompleted(id, t, completed, now) =>
        SetOccurrenceCompletedKeeps(before, id, t, completed, now);
      case DoOverride(id, t, changes, now) => OverrideKeeps(before, id, t, changes, now);
      case DoCreateOverride(id, t, patch, newId, now) => CreateOverrideKeeps(before, id, t, patch, newId, now);
      case DoSplit(id, t, split, newId, now) => SplitKeeps(before, id, t, split, newId, now);
      case DoEnd(id, t, now) => EndKeeps(before, id, t, now);
      case DoRemove(id, mode, now) => RemoveKeeps(before, id, mode, now);
    }
  }

  lemma GroupsAreFixed(db: Db, op: Op)
    ensures Apply(db, op).Ok? ==> Apply(db, op).value.groups == db.groups
  {
    hide Swept, HasChildAt, UpdateError, PatchedRow, RuleInputsChanged, EffectivelyGenerates, SplitRow, TruncatedRow,
      IsGenerated, Upserted, CopiedExceptions, Tombstoned;
  }

  /**
   * In every state of every run: a live child's parent is live, in the child's calendar
   * and no child itself, a child carries no rule, at most one live child exists per slot, and no slot has
   * both a live child and an exception row.
   */
  lemma {:induction false} RunsKeepStructure(states: seq<Db>, ops: seq<Op>, i: nat)
    requires IsRun(states, ops) && Structure(states[0]) && i <= |ops|
    ensures Structure(states[i]) && states[i].groups == states[0].groups
  {
    if i > 0 {
      hide Structure, Step;
      RunsKeepStructure(states, ops, i - 1);
      StepKeepsStructure(states[i - 1], ops[i - 1], states[i]);
    }
  }

  lemma ReachableIsSound(db: Db)
    requires Reachable(db)
    ensures Structure(db)
  {
    var states: seq<Db>, ops: seq<Op> :|
      IsRun(states, ops) && states[0] == Db(map[], map[], db.groups) && ValidGroups(db.groups) && states[|ops|] == db;
    EmptyStoreIsSound(states[0]);
    RunsKeepStructure(states, ops, |ops|);
  }

  /** Runs may start from a store without tasks. */
  lemma EmptyStoreIsSound(db: Db)
    requires db.tasks == map[] && db.exceptions == map[] && ValidGroups(db.groups)
    ensures Structure(db) && Attachment(db) && forall m: Id :: SpanSeen(db, m)
  {
    assert forall id: Id, p: Id, t: int :: !IsChildAt(db, id, p, t);
  }

  // --- children are attached exactly to generated slots --------------------------

  predicate SameRuleInputs(a: Task, b: Task) {
    && a.parentTaskId == b.parentTaskId && a.config == b.config && a.groupId == b.groupId
    && a.startAt == b.startAt && a.offset == b.offset
  }

  /** Every live child was one before, flagged the same, and its parent's rule is untouched. */
  ghost predicate QuietFor(db: Db, db': Db, id: Id, p: Id, t: int) {
    && IsChildAt(db, id, p, t) && IsChildAt(db', id, p, t) && db'.tasks[id].detachedAt == db.tasks[id].detachedAt
    && p in db.tasks && p in db'.tasks && SameRuleInputs(db.tasks[p], db'.tasks[p])
  }

  lemma QuietKeeps(db: Db, db': Db, m: Id)
    requires AttachedTo(db, m) && db'.groups == db.groups
    requires forall id: Id, t: int :: IsChildAt(db', id, m, t) ==> QuietFor(db, db', id, m, t)
    ensures AttachedTo(db', m)
  {
    hide Slot;
    forall id: Id, t: int | IsChildAt(db', id, m, t) ensures m in db'.tasks && AttachedRight(db', id, m, t) {
      assert QuietFor(db, db', id, m, t);
      assert AttachedRight(db, id, m, t);
    }
  }

  /** The probe agrees with the rule when the span is short enough to see through. */
  lemma ProbeSeesSlot(groups: map<Id, Group>, task: Task, t: int)
    ensures EffectivelyGenerates(task, EffectiveConfig(groups, task), t) ==> GeneratesSlot(groups, task, t)
    ensures ShortSpan(task) && GeneratesSlot(groups, task, t) ==>
      EffectivelyGenerates(task, EffectiveConfig(groups, task), t)
  {
    hide Member, WithinSteps;
    var c := EffectiveConfig(groups, task);
    if c.Some? && task.startAt.Some? {
      ProbeIsExact(task, c.value, t);
      if ShortSpan(task) {
        ProbeIsMembership(task, c.value, t);
      }
    }
  }

  /** Sweeping a master's children after an edit of its row attaches exactly the generated slots. */
  lemma SweepAttaches(db: Db, next: Task, now: int, m: Id)
    requires Structure(db) && AttachedTo(db, m) && IsLive(db, next.id) && SameLinks(next, db.tasks[next.id])
    requires next.parentTaskId.None? && (m == next.id ==> ShortSpan(next))
    ensures AttachedTo(db.(tasks := Swept(db.tasks[next.id := next], next, EffectiveConfig(db.groups, next), now)), m)
  {
    var tasks := db.tasks[next.id := next];
    var c := EffectiveConfig(db.groups, next);
    var db' := db.(tasks := Swept(tasks, next, c, now));
    assert db'.tasks[next.id] == next;
    forall id: Id, t: int | IsChildAt(db', id, m, t) ensures m in db'.tasks && AttachedRight(db', id, m, t) {
      assert IsChildAt(db, id, m, t);
      assert LinkValid(db, db.tasks[id]);
      hide GeneratesSlot, EffectivelyGenerates, EffectiveConfig, OneChildPerSlot, SingleOwner, ExceptionsKeyed,
        RowsValid, ShortSpan;
      if m == next.id {
        ProbeSeesSlot(db.groups, next, t);
      } else {
        assert AttachedRight(db, id, m, t);
      }
    }
  }

  lemma UpdateAttaches(db: Db, id: Id, patch: UpdateInput, now: int, m: Id)
    requires Structure(db) && AttachedTo(db, m) && Update(db, id, patch, now).Ok?
    requires m == id && db.tasks[id].parentTaskId.None? ==> ShortSpan(PatchedRow(db.tasks[id], patch))
    ensures AttachedTo(Update(db, id, patch, now).value, m)
  {
    hide Swept, GeneratesSlot, ShortSpan, OneChildPerSlot, SingleOwner, ExceptionsKeyed, ToConfig;
    var task, next := db.tasks[id], PatchedRow(db.tasks[id], patch);
    assert task.id == id;
    if RuleInputsChanged(task, patch) {
      SweepAttaches(db, next, now, m);
    } else {
      var db' := db.(tasks := db.tasks[id := next]);
      forall k: Id, t: int | IsChildAt(db', k, m, t) ensures QuietFor(db, db', k, m, t) {
        assert LinkValid(db, db.tasks[k]);
      }
      QuietKeeps(db, db', m);
    }
  }

  lemma SetCompletedAttaches(db: Db, id: Id, completed: bool, now: int, m: Id)
    requires Structure(db) && AttachedTo(db, m) && SetCompleted(db, id, completed, now).Ok?
    ensures AttachedTo(SetCompleted(db, id, completed, now).value, m)
  {
    hide GeneratesSlot, RowsValid, OneChildPerSlot, SingleOwner, ExceptionsKeyed;
    var db' := SetCompleted(db, id, completed, now).value;
    forall k: Id, t: int | IsChildAt(db', k, m, t) ensures QuietFor(db, db', k, m, t) {
      assert LinkValid(db, db.tasks[k]);
    }
    QuietKeeps(db, db', m);
  }

  lemma RemoveAttaches(db: Db, id: Id, mode: DeleteMode, now: int, m: Id)
    requires Structure(db) && AttachedTo(db, m) && Remove(db, id, mode, now).Ok?
    ensures AttachedTo(Remove(db, id, mode, now).value, m)
  {
    hide GeneratesSlot, RowsValid, OneChildPerSlot, SingleOwner, ExceptionsKeyed, Upserted;
    var db' := Remove(db, id, mode, now).value;
    forall k: Id, t: int | IsChildAt(db', k, m, t) ensures QuietFor(db, db', k, m, t) {
      assert LinkValid(db, db.tasks[k]);
    }
    QuietKeeps(db, db', m);
  }

  lemma ExceptionsDoNotAttach(db: Db, exceptions': map<(Id, int), OccurrenceException>, m: Id)
    requires Structure(db) && AttachedTo(db, m)
    ensures AttachedTo(db.(exceptions := exceptions'), m)
  {
    hide GeneratesSlot, RowsValid, OneChildPerSlot, SingleOwner, ExceptionsKeyed;
    var db' := db.(exceptions := exceptions');
    forall k: Id, t: int | IsChildAt(db', k, m, t) ensures QuietFor(db, db', k, m, t) {
      assert IsChildAt(db, k, m, t);
    }
    QuietKeeps(db, db', m);
  }

  /** A new row joins attached: it is no child, or its slot is generated. */
  lemma JoinAttaches(db: Db, row: Task, m: Id)
    requires Structure(db) && AttachedTo(db, m) && Joinable(db, row) && row.detachedAt.None?
    requires row.parentTaskId.Some? ==>
      GeneratesSlot(db.groups, db.tasks[row.parentTaskId.value], row.originalStartAt.value)
    ensures AttachedTo(db.(tasks := db.tasks[row.id := row]), m)
  {
    hide GeneratesSlot, RowsValid, OneChildPerSlot, SingleOwner, ExceptionsKeyed, ConfigAllowed;
    var db' := db.(tasks := db.tasks[row.id := row]);
    forall id: Id, t: int | IsChildAt(db', id, m, t) ensures m in db'.tasks && AttachedRight(db', id, m, t) {
      if id != row.id {
        assert IsChildAt(db, id, m, t);
        assert AttachedRight(db, id, m, t);
      }
    }
  }

  lemma SetOccurrenceCompletedAttaches(db: Db, id: Id, t: int, completed: bool, now: int, m: Id)
    requires Structure(db) && AttachedTo(db, m) && SetOccurrenceCompleted(db, id, t, completed, now).Ok?
    ensures AttachedTo(SetOccurrenceCompleted(db, id, t, completed, now).value, m)
  {
    hide Structure, AttachedTo, HasChildAt, Upserted, SetCompleted;
    if db.tasks[id].config.None? {
      SetCompletedAttaches(db, id, completed, now, m);
    } else if HasChildAt(db, id, t) {
      SetCompletedAttaches(db, ChildAt(db, id, t), completed, now, m);
    } else {
      ExceptionsDoNotAttach(db, SetOccurrenceCompleted(db, id, t, completed, now).value.exceptions, m);
    }
  }

  lemma OverrideAttaches(db: Db, id: Id, t: int, ch: OverrideChanges, now: int, m: Id)
    requires Structure(db) && AttachedTo(db, m) && ApplyOccurrenceOverride(db, id, t, ch, now).Ok?
    requires m == id && id in ApplyOccurrenceOverride(db, id, t, ch, now).value.tasks ==>
      ShortSpan(ApplyOccurrenceOverride(db, id, t, ch, now).value.tasks[id])
    ensures AttachedTo(ApplyOccurrenceOverride(db, id, t, ch, now).value, m)
  {
    hide Structure, AttachedTo, HasChildAt, Upserted, SetCompleted, Update, Remove, IsGenerated, Duration;
    if db.tasks[id].config.Some? {
      ExceptionsDoNotAttach(db, ApplyOccurrenceOverride(db, id, t, ch, now).value.exceptions, m);
    } else if ch.isSkipped == Some(true) {
      RemoveAttaches(db, id, RemoveSlot, now, m);
    } else {
      var patch := CollapsedInput(ch);
      var updated := Update(db, id, patch, now);
      PatchedSpan(db, id, patch, now, ch.completedAt.Some? && ch.completedAt.value.Some?);
      UpdateKeeps(db, id, patch, now);
      UpdateAttaches(db, id, patch, now, m);
      if ch.completedAt.Some? {
        SetCompletedAttaches(updated.value, id, ch.completedAt.value.Some?, now, m);
      }
    }
  }

  /** The patched row keeps its span, whatever completion follows. */
  lemma PatchedSpan(db: Db, id: Id, patch: UpdateInput, now: int, completed: bool)
    requires Structure(db) && Update(db, id, patch, now).Ok? && db.tasks[id].config.None?
    ensures
      var mid := Update(db, id, patch, now).value;
      && id in mid.tasks && Duration(mid.tasks[id]) == Duration(PatchedRow(db.tasks[id], patch))
      && SetCompleted(mid, id, completed, now).Ok? && id in SetCompleted(mid, id, completed, now).value.tasks
      && Duration(SetCompleted(mid, id, completed, now).value.tasks[id]) == Duration(mid.tasks[id])
  {
    hide Swept, ToConfig, OneChildPerSlot, SingleOwner, ExceptionsKeyed, EffectiveConfig;
    UpdatedRow(db, id, patch, now);
    assert IsLive(Update(db, id, patch, now).value, id);
  }

  /** A master's row is exactly its patched row after an update: the sweep only touches children. */
  lemma UpdatedRow(db: Db, id: Id, patch: UpdateInput, now: int)
    requires RowsValid(db) && Update(db, id, patch, now).Ok?
    ensures id in Update(db, id, patch, now).value.tasks
    ensures Update(db, id, patch, now).value.tasks[id] == PatchedRow(db.tasks[id], patch)
  {
    hide EffectivelyGenerates, EffectiveConfig, ToConfig;
    assert db.tasks[id].id == id;
  }

  lemma OwnedAttaches(db: Db, parent: Task, t: int, child: Task, m: Id)
    requires Structure(db) && AttachedTo(db, m)
    requires IsLive(db, parent.id) && db.tasks[parent.id] == parent && parent.parentTaskId.None?
    requires
      || (IsChildAt(db, child.id, parent.id, t) && db.tasks[child.id] == child)
      || (!HasChildAt(db, parent.id, t) && child.id !in db.tasks && child == ChildRow(parent, child.id, t)
          && GeneratesSlot(db.groups, parent, t))
    ensures AttachedTo(Owned(db, parent, t, child), m)
  {
    hide GeneratesSlot, RowsValid, OneChildPerSlot;
    var db' := Owned(db, parent, t, child);
    forall k: Id, s: int | IsChildAt(db', k, m, s) ensures m in db'.tasks && AttachedRight(db', k, m, s) {
      if k != child.id || child.id in db.tasks {
        assert IsChildAt(db, k, m, s);
        assert LinkValid(db, db.tasks[k]);
        assert AttachedRight(db, k, m, s);
      }
    }
  }

  lemma CreateOverrideAttaches(db: Db, p: Id, t: int, patch: UpdateInput, newId: Id, now: int, m: Id)
    requires Structure(db) && AttachedTo(db, m) && newId !in db.tasks
    requires CreateOrUpdateOverride(db, p, t, patch, newId, now).Ok?
    ensures AttachedTo(CreateOrUpdateOverride(db, p, t, patch, newId, now).value, m)
  {
    hide Update, HasChildAt, EffectivelyGenerates, Owned, AttachedTo, EffectiveConfig, GeneratesSlot;
    var parent := db.tasks[p];
    assert parent.id == p;
    if HasChildAt(db, p, t) {
      var child := ChildAt(db, p, t);
      assert db.tasks[child].id == child;
      hide Structure;
      OwnedKeeps(db, parent, t, db.tasks[child]);
      OwnedAttaches(db, parent, t, db.tasks[child], m);
      UpdateAttaches(Owned(db, parent, t, db.tasks[child]), child, patch, now, m);
    } else {
      ProbeSeesSlot(db.groups, parent, t);
      hide Structure;
      OwnedKeeps(db, parent, t, ChildRow(parent, newId, t));
      OwnedAttaches(db, parent, t, ChildRow(parent, newId, t), m);
      UpdateAttaches(Owned(db, parent, t, ChildRow(parent, newId, t)), newId, patch, now, m);
    }
  }

  /** Truncating keeps the span and sweeps by the cut rule. */
  lemma TruncationAttaches(db: Db, id: Id, t: int, now: int, m: Id)
    requires Structure(db) && AttachedTo(db, m) && IsLive(db, id)
    requires db.tasks[id].config.Some? && (m == id ==> ShortSpan(db.tasks[id]))
    ensures var cut := TruncatedRow(db.tasks[id], t);
      AttachedTo(db.(tasks := Swept(db.tasks[id := cut], cut, cut.config, now)), m)
  {
    hide AttachedTo, Swept, LocalDay;
    MastersOnlyRecur(db, id);
    var cut := TruncatedRow(db.tasks[id], t);
    assert EffectiveConfig(db.groups, cut) == cut.config;
    SweepAttaches(db, cut, now, m);
  }

  lemma EndAttaches(db: Db, id: Id, t: int, now: int, m: Id)
    requires Structure(db) && AttachedTo(db, m) && EndSeriesAt(db, id, t, now).Ok?
    requires (m == id ==> ShortSpan(db.tasks[id]))
    ensures AttachedTo(EndSeriesAt(db, id, t, now).value, m)
  {
    hide Remove, Swept, TruncatedRow, AttachedTo, ShortSpan;
    var task := db.tasks[id];
    if task.config.None? || task.startAt == Some(t) {
      RemoveAttaches(db, id, RemoveSlot, now, m);
    } else {
      MastersOnlyRecur(db, id);
      TruncationAttaches(db, id, t, now, m);
    }
  }

  lemma SplitAttaches(db: Db, id: Id, t: int, split: SplitChanges, newId: Id, now: int, m: Id)
    requires Structure(db) && AttachedTo(db, m) && newId !in db.tasks && ValidDto(split.recurrence)
    requires SplitSeries(db, id, t, split, newId, now).Ok?
    requires m == id ==>
      if db.tasks[id].config.None? || db.tasks[id].startAt == Some(t) then
        db.tasks[id].parentTaskId.None? ==> ShortSpan(PatchedRow(db.tasks[id], SplitAsUpdate(split)))
      else ShortSpan(db.tasks[id])
    ensures AttachedTo(SplitSeries(db, id, t, split, newId, now).value, m)
  {
    hide Update, Swept, TruncatedRow, SplitRow, CopiedExceptions, Relabelled, OneChildPerSlot, SingleOwner,
      ExceptionsKeyed, Joinable, CheckGroup, AttachedTo, ShortSpan, PatchedRow;
    var task := db.tasks[id];
    if task.config.None? || task.startAt == Some(t) {
      UpdateAttaches(db, id, SplitAsUpdate(split), now, m);
    } else {
      MastersOnlyRecur(db, id);
      TruncationRelabels(db, id, t, now);
      SplitInStages(db, id, t, split, newId, now);
      TruncationAttaches(db, id, t, now, m);
      var cut := TruncatedRow(task, t);
      var swept := db.(tasks := Swept(db.tasks[id := cut], cut, cut.config, now));
      RelabelKeeps(db, swept.tasks);
      assert newId !in swept.tasks by { RelabelledKeys(db.tasks, swept.tasks); }
      var row := SplitRow(task, task.config.value, t, split, newId);
      SplitRowJoins(swept, task, t, split, newId);
      SplitRowIsMaster(task, t, split, newId);
      JoinKeeps(swept, row);
      JoinAttaches(swept, row, m);
      ExceptionsDoNotAttach(swept.(tasks := swept.tasks[newId := row]), CopiedExceptions(db.exceptions, id, newId, t),
        m);
    }
  }

  lemma UpdateNeedsLive(db: Db, id: Id, patch: UpdateInput, now: int)
    ensures Update(db, id, patch, now).Ok? ==> IsLive(db, id)
  {
    hide Swept, PatchedRow, RuleInputsChanged;
  }

  lemma SplitRowIsMaster(task: Task, t: int, split: SplitChanges, newId: Id)
    requires task.config.Some?
    ensures SplitRow(task, task.config.value, t, split, newId).parentTaskId.None?
    ensures SplitRow(task, task.config.value, t, split, newId).detachedAt.None?
  {
    hide ResolveSplitRecurrence;
  }

  lemma CreateAttaches(db: Db, newId: Id, input: CreateInput, m: Id)
    requires Structure(db) && AttachedTo(db, m) && newId !in db.tasks
    requires ValidDto(input.recurrence) && Create(db, newId, input).Ok?
    ensures AttachedTo(Create(db, newId, input).value, m)
  {
    hide ToConfig, AttachedTo, Structure;
    JoinAttaches(db, Create(db, newId, input).value.tasks[newId], m);
  }

  /** Ending a series keeps the length of its occurrences. */
  lemma EndKeepsSpan(db: Db, id: Id, t: int, now: int)
    requires RowsValid(db) && EndSeriesAt(db, id, t, now).Ok?
    ensures id in EndSeriesAt(db, id, t, now).value.tasks
    ensures Duration(EndSeriesAt(db, id, t, now).value.tasks[id]) == Duration(db.tasks[id])
  {
    hide EffectivelyGenerates, LocalDay, Upserted;
    assert db.tasks[id].id == id;
  }

  /** A split keeps it on the old side, unless it collapses to an edit. */
  lemma SplitKeepsSpan(db: Db, id: Id, t: int, split: SplitChanges, newId: Id, now: int)
    requires RowsValid(db) && newId !in db.tasks && SplitSeries(db, id, t, split, newId, now).Ok?
    ensures
      var after := SplitSeries(db, id, t, split, newId, now).value.tasks;
      && id in after
      && (if db.tasks[id].config.None? || db.tasks[id].startAt == Some(t)
        then after[id] == PatchedRow(db.tasks[id], SplitAsUpdate(split))
          else Duration(after[id]) == Duration(db.tasks[id]))
  {
    hide Update, PatchedRow, EffectivelyGenerates, LocalDay, SplitRow, CopiedExceptions, CheckGroup;
    assert db.tasks[id].id == id;
    if db.tasks[id].config.None? || db.tasks[id].startAt == Some(t) {
      UpdatedRow(db, id, SplitAsUpdate(split), now);
    }
  }

  /** A transaction keeps a master's children attached right, if the probe can see through the row it leaves. */
  lemma StepKeepsAttachmentOf(before: Db, op: Op, after: Db, m: Id)
    requires Structure(before) && AttachedTo(before, m) && Step(before, op, after) && SpanSeen(after, m)
    ensures AttachedTo(after, m)
  {
    hide Create, Update, SetCompleted, SetOccurrenceCompleted, ApplyOccurrenceOverride, CreateOrUpdateOverride,
      SplitSeries, EndSeriesAt, Remove, ValidDto, ValidRecurrence, PatchedRow, AttachedRight, OneChildPerSlot,
      SingleOwner, ExceptionsKeyed, Duration;
    if id: Id, t: int :| IsChildAt(after, id, m, t) {
      hide AttachedTo;
      if Apply(before, op).Ok? {
        StepKeepsStructure(before, op, after);
        assert LinkValid(after, after.tasks[id]);
        hide RowsValid, LinksValid;
        match op
        case DoCreate(newId, input) => CreateAttaches(before, newId, input, m);
        case DoUpdate(k, patch, now) =>
          UpdatedRow(before, k, patch, now);
          UpdateAttaches(before, k, patch, now, m);
        case DoSetCompleted(k, completed, now) => SetCompletedAttaches(before, k, completed, now, m);
        case DoSetOccurrenceCompleted(k, s, completed, now) =>
          SetOccurrenceCompletedAttaches(before, k, s, completed, now, m);
        case DoOverride(k, s, changes, now) => OverrideAttaches(before, k, s, changes, now, m);
        case DoCreateOverride(k, s, patch, newId, now) => CreateOverrideAttaches(before, k, s, patch, newId, now, m);
        case DoSplit(k, s, split, newId, now) =>
          SplitKeepsSpan(before, k, s, split, newId, now);
          SplitAttaches(before, k, s, split, newId, now, m);
        case DoEnd(k, s, now) =>
          EndKeepsSpan(before, k, s, now);
          EndAttaches(before, k, s, now, m);
        case DoRemove(k, mode, now) => RemoveAttaches(before, k, mode, now, m);
      }
    }
  }

  /**
   * Over every run in which the occurrences of master `m` last less than a thousand
   * days whenever it has live children - whatever the other rows are - its children
   * are flagged as detached exactly when its effective rule does not generate their slot.
   */
  lemma {:induction false} RunsKeepAttachmentOf(states: seq<Db>, ops: seq<Op>, m: Id, i: nat)
    requires IsRun(states, ops) && Structure(states[0]) && AttachedTo(states[0], m) && i <= |ops|
    requires forall j :: 0 < j <= i ==> SpanSeen(states[j], m)
    ensures AttachedTo(states[i], m)
  {
    if i > 0 {
      hide Structure, AttachedTo, Step, SpanSeen;
      RunsKeepAttachmentOf(states, ops, m, i - 1);
      RunsKeepStructure(states, ops, i - 1);
      StepKeepsAttachmentOf(states[i - 1], ops[i - 1], states[i], m);
    }
  }

  /** The same for every master at once. */
  lemma RunsKeepAttachment(states: seq<Db>, ops: seq<Op>, i: nat)
    requires IsRun(states, ops) && Structure(states[0]) && Attachment(states[0]) && i <= |ops|
    requires forall j, m: Id :: 0 < j <= i ==> SpanSeen(states[j], m)
    ensures Attachment(states[i])
  {
    hide Structure, AttachedTo, Step, SpanSeen;
    forall m: Id ensures AttachedTo(states[i], m) {
      RunsKeepAttachmentOf(states, ops, m, i);
    }
  }

  /**
   * The bound is needed and tight: on a plain daily series with longer occurrences,
   * a sweep flags every child past the thousandth slot although the rule generates it.
   */
  lemma LongSpansBlindTheSweep(groups: map<Id, Group>, parent: Task, k: nat, row: Task, now: int)
    requires parent.config == Some(EVERY_DAY) && parent.parentTaskId.None?
    requires parent.startAt.Some? && Duration(parent).Or(0) >= 0 && k < MAX_GENERATION_STEPS
    requires IsChildOf(row, parent.id) && row.originalStartAt == Some(parent.startAt.value + k * MILLIS_PER_DAY)
    ensures GeneratesSlot(groups, parent, row.originalStartAt.value)
    ensures SweptRow(parent, EffectiveConfig(groups, parent), now, row).detachedAt.None?
      <==> k < MAX_OCCURRENCES_PER_WINDOW || ShortSpan(parent)
  {
    hide Member, IsGenerated, InSeries, WithinSteps, SeedDay, LocalDay, StartOn;
    DailyMember(SeriesOf(parent, EVERY_DAY), k);
    DailyProbe(parent, EVERY_DAY, k);
  }
}
