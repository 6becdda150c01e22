/**
 * What creating, editing, completing and removing a task does to its row and to every
 * agenda.
 */
module EditLaws {
  import opened Wrappers
  import opened RecurrenceRule
  import opened TaskRows
  import opened Series
  import opened SeriesLaws
  import opened TaskStore
  import opened TaskInvariants
  import opened Agenda
  import opened OccurrenceLaws

  // --- rules and requests ---------------------------------------------------------------

  /** The request that names every axis of a rule. */
  function RequestOf(c: Config): RuleDto {
    RuleDto(c.frequency, Some(c.interval), Some(c.byWeekday), Some(c.byMonthDay), Some(c.byMonth), Some(c.bySetPos),
      c.monthlyAnchor, Some(c.endType), c.endDate, c.count)
  }

  /** Any rule can be asked for, and an absent key means every period, no selector and no end. */
  lemma RequestRoundTrip(c: Config, f: Frequency)
    ensures ToConfig(RequestOf(c)) == c
    ensures ToConfig(RuleDto(f, None, None, None, None, None, None, None, None, None))
      == Config(f, 1, [], [], [], [], None, Never, None, None)
  {
  }

  /** The fields an edit can reach. */
  predicate SameEditable(a: Task, b: Task) {
    && a.title == b.title && a.startAt == b.startAt && a.endAt == b.endAt
    && a.offset == b.offset && a.groupId == b.groupId && a.config == b.config
  }

  /** The patch that names every field. */
  function PatchTo(b: Task): UpdateInput {
    UpdateInput(Some(b.title), Some(b.startAt), Some(b.endAt), Some(b.offset), Some(b.groupId),
      Some(if b.config.Some? then Some(RequestOf(b.config.value)) else None))
  }

  /** A named field takes the named value, null included; one that is not named keeps its own. */
  predicate IsPatched(task: Task, patch: UpdateInput, row: Task) {
    && row.title == (if patch.title.Some? then patch.title.value else task.title)
    && row.startAt == (if patch.startAt.Some? then patch.startAt.value else task.startAt)
    && row.endAt == (if patch.endAt.Some? then patch.endAt.value else task.endAt)
    && row.offset == (if patch.offset.Some? then patch.offset.value else task.offset)
    && row.groupId == (if patch.groupId.Some? then patch.groupId.value else task.groupId)
    && (patch.recurrence.None? ==> row.config == task.config)
    && (patch.recurrence == Some(None) ==> row.config == None)
    && (patch.recurrence.Some? && patch.recurrence.value.Some? ==>
         row.config == Some(ToConfig(patch.recurrence.value.value)))
    && row == task.(title := row.title, startAt := row.startAt, endAt := row.endAt, offset := row.offset,
                    groupId := row.groupId, config := row.config)
  }

  /** Any row can be edited into any other, in the fields an edit reaches. */
  lemma PatchReachesAnyRow(a: Task, b: Task)
    ensures SameEditable(PatchedRow(a, PatchTo(b)), b)
  {
    if b.config.Some? {
      RequestRoundTrip(b.config.value, Daily);
    }
  }

  /** The row after an edit, whatever else the transaction sweeps; a span is never accepted backwards. */
  lemma UpdatePatches(db: Db, id: Id, patch: UpdateInput, now: int)
    requires RowsValid(db) && Update(db, id, patch, now).Ok?
    ensures
      var row := Update(db, id, patch, now).value.tasks;
      id in row && IsLive(db, id) && IsPatched(db.tasks[id], patch, row[id])
    ensures
      var row := Update(db, id, patch, now).value.tasks[id];
      row.startAt.Some? && row.endAt.Some? ==> row.startAt.value <= row.endAt.value
    ensures Update(db, id, patch, now).value.exceptions == db.exceptions
    ensures Update(db, id, patch, now).value.groups == db.groups
  {
    UpdatedRow(db, id, patch, now);
    UpdateNeedsLive(db, id, patch, now);
    hide Swept, ToConfig, CheckGroup;
  }

  /** After an edit the agenda shows the row's new title, and - by what it recurs - its new start, zone and length. */
  lemma UpdateShows(db: Db, id: Id, patch: UpdateInput, now: int, q: Query, o: Occurrence)
    requires Structure(db) && ValidRecurrence(patch) && Update(db, id, patch, now).Ok?
    requires InAgenda(Update(db, id, patch, now).value, q, o) && o.taskId == id
    ensures
      var task := db.tasks[id];
      var start := if patch.startAt.Some? then patch.startAt.value else task.startAt;
      var end := if patch.endAt.Some? then patch.endAt.value else task.endAt;
      var title := if patch.title.Some? then patch.title.value else task.title;
      var offset := if patch.offset.Some? then patch.offset.value else task.offset;
      var groupId := if patch.groupId.Some? then patch.groupId.value else task.groupId;
      && (q.groupId.Some? ==> groupId == q.groupId)
      && (!o.isRecurring ==> o.occurrenceStart == start && o.occurrenceEnd == end && o.title == title)
      && (o.isRecurring ==>
           && start.Some? && o.originalStart.Some?
           && (exists c :: Member(Series(start.value, offset, c), o.originalStart.value)
                && EditedRule(db, task, patch, groupId, c))
           && var e := ExceptionAt(ExceptionsOf(db.exceptions, id), o.originalStart.value);
              && (e.overrideTitle.None? ==> o.title == title)
              && (e.overrideEndAt.None? && end.Some? ==>
                   o.occurrenceEnd == Some(o.occurrenceStart.Or(0) + end.value - start.value)))
  {
    hide Update, InAgenda, Structure, Member, ExceptionsOf, ToConfig;
    UpdateKeeps(db, id, patch, now);
    StructuredRows(db);
    var db' := Update(db, id, patch, now).value;
    StructuredRows(db');
    UpdatePatches(db, id, patch, now);
    AgendaContents(db', q, o);
    var row := db'.tasks[id];
    assert row.id == id;
    if o.isRecurring {
      var c :| RecursBy(db', row, c) && Member(SeriesOf(row, c), o.originalStart.value);
      assert EditedRule(db, db.tasks[id], patch, row.groupId, c);
      assert SeriesOf(row, c) == Series(row.startAt.value, row.offset, c);
    }
  }

  /**
   * The rule a row recurs by after an edit: the requested one, else its own if it was not removed,
   * else its group's.
   */
  predicate EditedRule(db: Db, task: Task, patch: UpdateInput, groupId: Option<Id>, c: Config) {
    if patch.recurrence.Some? && patch.recurrence.value.Some? then c == ToConfig(patch.recurrence.value.value)
    else if patch.recurrence.None? && task.config.Some? then task.config == Some(c)
    else groupId.Some? && groupId.value in db.groups && db.groups[groupId.value].config == Some(c)
  }

  /** A new task is stored as asked, never with a backward span, nor with a rule and no start. */
  lemma CreatedAsAsked(db: Db, newId: Id, input: CreateInput)
    requires Create(db, newId, input).Ok?
    ensures newId in Create(db, newId, input).value.tasks
    ensures
      var row := Create(db, newId, input).value.tasks[newId];
      && row.calendarId == input.calendarId && row.groupId == input.groupId && row.title == input.title
      && row.startAt == input.startAt && row.endAt == input.endAt && row.offset == input.offset
      && row.config == (if input.recurrence.Some? then Some(ToConfig(input.recurrence.value)) else None)
      && row.completedAt.None? && row.deletedAt.None? && row.parentTaskId.None?
      && (row.startAt.Some? && row.endAt.Some? ==> row.startAt.value <= row.endAt.value)
      && (row.config.Some? ==> row.startAt.Some?)
    ensures Create(db, newId, input).value.tasks - {newId} == db.tasks - {newId}
    ensures Create(db, newId, input).value.exceptions == db.exceptions
  {
    hide ToConfig;
  }

  // --- completion -----------------------------------------------------------------------

  /** Completing stamps the first time only; undoing clears; and undoing a completion of an open task restores it. */
  lemma CompletionToggles(db: Db, id: Id, now: int, later: int)
    requires IsLive(db, id)
    ensures
      var done := SetCompleted(db, id, true, now).value;
      && SetCompleted(db, id, true, now).Ok? && id in done.tasks && done.tasks[id].completedAt.Some?
      && SetCompleted(done, id, true, later) == Ok(done)
      && SetCompleted(done, id, false, later) == SetCompleted(db, id, false, later)
      && (db.tasks[id].completedAt.None? ==>
           done.tasks[id].completedAt == Some(now) && SetCompleted(done, id, false, later) == Ok(db))
  {
    var task := db.tasks[id];
    var done := SetCompleted(db, id, true, now).value;
    assert done.tasks[id := done.tasks[id]] == done.tasks;
    assert done.tasks[id := task.(completedAt := None)] == db.tasks[id := task.(completedAt := None)];
    assert task.completedAt.None? ==> db.tasks[id := task] == db.tasks;
  }

  /** Which entry shows a slot: its override child when it has one, else the master's own occurrence or row. */
  ghost predicate IsEntryOf(db: Db, o: Occurrence, id: Id, t: int) {
    IsChildAt(db, o.taskId, id, t) || (o.taskId == id && !HasChildAt(db, id, t) && o.originalStart == Some(t))
  }

  /** The completion of a task without a rule of its own falls on its row. */
  predicate CompletesRow(db: Db, id: Id) {
    id in db.tasks && db.tasks[id].config.None?
  }

  /**
   * After completing, or reopening, an occurrence every agenda shows it so - except a
   * slot that recurs by its group's rule: there the completion falls on the master's
   * row, which no occurrence shows.
   */
  lemma CompletionShows(db: Db, id: Id, t: int, completed: bool, now: int, q: Query, o: Occurrence)
    requires Structure(db) && SetOccurrenceCompleted(db, id, t, completed, now).Ok?
    requires InAgenda(SetOccurrenceCompleted(db, id, t, completed, now).value, q, o)
    requires if CompletesRow(db, id) then o.taskId == id && !o.isRecurring else IsEntryOf(db, o, id, t)
    ensures o.completedAt.Some? <==> completed
  {
    hide InAgenda, Structure;
    SetOccurrenceCompletedKeeps(db, id, t, completed, now);
    var db' := SetOccurrenceCompleted(db, id, t, completed, now).value;
    StructuredRows(db');
    AgendaContents(db', q, o);
    RowShowsUnlessItRecurs(db', q, o);
    hide RowsValid, Member;
    if CompletesRow(db, id) {
      hide HasChildAt;
    } else if HasChildAt(db, id, t) {
      OneChild(db, id, t, o.taskId);
    } else {
      assert o.taskId == id && o.originalStart == Some(t) by { NoChildNoEntry(db, o, id, t); }
      MastersOnlyRecur(db, id);
      assert RecursBy(db', db'.tasks[id], db'.tasks[id].config.value);
      assert db'.tasks[id].id == id by { RowHasItsKey(db', id); }
      SlotHasException(db'.exceptions, id, t);
    }
  }

  lemma RowHasItsKey(db: Db, id: Id)
    requires RowsValid(db) && id in db.tasks
    ensures db.tasks[id].id == id
  {
  }

  lemma SlotHasException(exceptions: map<(Id, int), OccurrenceException>, id: Id, t: int)
    ensures ExceptionAt(ExceptionsOf(exceptions, id), t) ==
      if (id, t) in exceptions then exceptions[(id, t)] else BLANK_EXCEPTION
  {
  }

  lemma NoChildNoEntry(db: Db, o: Occurrence, id: Id, t: int)
    requires IsEntryOf(db, o, id, t) && !HasChildAt(db, id, t)
    ensures o.taskId == id && o.originalStart == Some(t)
  {
  }

  lemma OneChild(db: Db, id: Id, t: int, k: Id)
    requires Structure(db) && HasChildAt(db, id, t)
    ensures IsChildAt(db, k, id, t) ==> k == ChildAt(db, id, t)
  {
  }

  /** The completion of a row shows on none of the occurrences it recurs with. */
  lemma RowCompletionDoesNotRecur(task: Task, x: Option<int>, c: Config, exceptions: map<int, OccurrenceException>,
                                  from: int, to: int)
    ensures Expansion(task.(completedAt := x), c, exceptions, from, to) == Expansion(task, c, exceptions, from, to)
  {
    hide AnswerDays, StartOn;
    if task.startAt.Some? {
      var s := SeriesOf(task, c);
      var days := FirstN(AnswerDays(s, Duration(task), exceptions, from, to), MAX_OCCURRENCES_PER_WINDOW);
      assert BuildAll(task.(completedAt := x), s, exceptions, days) == BuildAll(task, s, exceptions, days);
    }
  }

  /**
   * Completing an occurrence of a series that recurs by its group's rule changes no
   * occurrence on any agenda.
   */
  lemma GroupCompletionIsLost(db: Db, id: Id, t: int, completed: bool, now: int, q: Query, o: Occurrence)
    requires RowsValid(db) && SetOccurrenceCompleted(db, id, t, completed, now).Ok? && CompletesRow(db, id)
    requires InheritsGroupRule(db.groups, db.tasks[id]) && o.taskId == id
    ensures InAgenda(SetOccurrenceCompleted(db, id, t, completed, now).value, q, o) <==> InAgenda(db, q, o)
  {
    var db' := SetOccurrenceCompleted(db, id, t, completed, now).value;
    var c := EffectiveConfig(db.groups, db.tasks[id]).value;
    RowCompletionDoesNotRecur(db.tasks[id], db'.tasks[id].completedAt, c, ExceptionsOf(db.exceptions, id), q.from,
      q.to);
    hide Expansion;
    forall p: Id, s: int
      ensures Suppressed(db', q.calendars, q.from, q.to, p, s) <==> Suppressed(db, q.calendars, q.from, q.to, p, s)
    {
      forall k: Id ensures IsChildAt(db', k, p, s) <==> IsChildAt(db, k, p, s) {}
    }
  }

  // --- removal ----------------------------------------------------------------------------

  /** A task that is no override: it goes with its overrides. */
  predicate IsWhole(db: Db, id: Id) {
    id in db.tasks && (db.tasks[id].parentTaskId.None? || db.tasks[id].originalStartAt.None?)
  }

  predicate GoesWith(db: Db, id: Id, k: Id) {
    k == id || (k in db.tasks && IsChildOf(db.tasks[k], id))
  }

  /** A removed task and its live overrides are no longer live; every other row stays as it is. */
  lemma RemovedIsDead(db: Db, id: Id, mode: DeleteMode, now: int, k: Id)
    requires Remove(db, id, mode, now).Ok? && IsWhole(db, id)
    ensures
      var db' := Remove(db, id, mode, now).value;
      && db'.tasks.Keys == db.tasks.Keys && db'.exceptions == db.exceptions && db'.groups == db.groups
      && (k in db.tasks && GoesWith(db, id, k) ==> db'.tasks[k].deletedAt.Some? && !IsLive(db', k))
      && (k in db.tasks && !GoesWith(db, id, k) ==> db'.tasks[k] == db.tasks[k])
  {
  }

  /**
   * No agenda shows anything of a removed task or of its overrides, and every other task
   * shows what it showed.
   */
  lemma RemovedIsGone(db: Db, id: Id, mode: DeleteMode, now: int, q: Query, o: Occurrence)
    requires Structure(db) && Remove(db, id, mode, now).Ok? && IsWhole(db, id)
    ensures InAgenda(Remove(db, id, mode, now).value, q, o) <==> InAgenda(db, q, o) && !GoesWith(db, id, o.taskId)
  {
    var db' := Remove(db, id, mode, now).value;
    hide Structure, Remove, InAgenda, Recurrences;
    RemovedIsDead(db, id, mode, now, o.taskId);
    if o.taskId in db.tasks && !GoesWith(db, id, o.taskId) {
      forall t: int
        ensures Suppressed(db', q.calendars, q.from, q.to, o.taskId, t)
          <==> Suppressed(db, q.calendars, q.from, q.to, o.taskId, t)
      {
        OtherChildrenStay(db, id, mode, now, o.taskId, t);
      }
      SameRowShowsAlike(db, db', q, o);
    } else {
      DeadRowShowsNothing(db', q, o);
      AbsentRowShowsNothing(db, q, o);
    }
  }

  /** The overrides of another task are untouched. */
  lemma OtherChildrenStay(db: Db, id: Id, mode: DeleteMode, now: int, p: Id, t: int)
    requires Remove(db, id, mode, now).Ok? && IsWhole(db, id) && p != id && Structure(db)
    ensures forall k: Id :: IsChildAt(Remove(db, id, mode, now).value, k, p, t) <==> IsChildAt(db, k, p, t)
    ensures forall k: Id :: IsChildAt(db, k, p, t) ==>
      k in Remove(db, id, mode, now).value.tasks && Remove(db, id, mode, now).value.tasks[k] == db.tasks[k]
  {
    forall k: Id
      ensures k in db.tasks && !GoesWith(db, id, k) ==> Remove(db, id, mode, now).value.tasks[k] == db.tasks[k]
    {
      RemovedIsDead(db, id, mode, now, k);
    }
  }

  lemma SameRowShowsAlike(db: Db, db': Db, q: Query, o: Occurrence)
    requires o.taskId in db.tasks && o.taskId in db'.tasks && db'.tasks[o.taskId] == db.tasks[o.taskId]
    requires db'.groups == db.groups && db'.exceptions == db.exceptions
    requires forall t: int ::
      (Suppressed(db', q.calendars, q.from, q.to, o.taskId, t)
       <==> Suppressed(db, q.calendars, q.from, q.to, o.taskId, t))
    ensures InAgenda(db', q, o) <==> InAgenda(db, q, o)
  {
    hide Suppressed, Expansion;
  }

  lemma DeadRowShowsNothing(db: Db, q: Query, o: Occurrence)
    requires o.taskId in db.tasks ==> db.tasks[o.taskId].deletedAt.Some?
    ensures !InAgenda(db, q, o)
  {
    if InAgenda(db, q, o) {
      ContributorIsLive(db, q, o.taskId, o);
    }
  }

  lemma AbsentRowShowsNothing(db: Db, q: Query, o: Occurrence)
    ensures o.taskId !in db.tasks ==> !InAgenda(db, q, o)
  {
  }
}
