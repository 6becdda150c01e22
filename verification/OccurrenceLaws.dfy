/**
 * What an entry of the agenda shows: which start, end, title and completion, and by
 * which rule it recurs, in terms of the rows themselves.
 */
module OccurrenceLaws {
  import opened Wrappers
  import opened RecurrenceRule
  import opened TaskRows
  import opened Series
  import opened SeriesLaws
  import opened TaskStore
  import opened TaskInvariants
  import opened Agenda

  /** The exception of a slot, or one that changes nothing. */
  function ExceptionAt(exceptions: map<int, OccurrenceException>, t: int): OccurrenceException {
    if t in exceptions then exceptions[t] else BLANK_EXCEPTION
  }

  /**
   * The occurrence shows the exception's start, end, title and completion when they are
   * set. Otherwise it starts at the slot, lasts as long as the anchor wherever its start
   * was moved, and has the anchor's title.
   */
  predicate ShowsSlotOf(task: Task, e: OccurrenceException, t: int, o: Occurrence) {
    && o.taskId == task.id && o.originalStart == Some(t) && o.isRecurring
    && o.occurrenceStart == Some(if e.overrideStartAt.Some? then e.overrideStartAt.value else t)
    && o.title == (if e.overrideTitle.Some? then e.overrideTitle.value else task.title)
    && o.completedAt == e.completedAt
    && o.parentTaskId == task.parentTaskId && (o.isDetached <==> task.detachedAt.Some?)
    && (e.overrideEndAt.Some? ==> o.occurrenceEnd == e.overrideEndAt)
    && (e.overrideEndAt.None? && task.startAt.Some? && task.endAt.Some? ==>
         o.occurrenceEnd.Some?
         && o.occurrenceEnd.value - o.occurrenceStart.value == task.endAt.value - task.startAt.value)
    && (e.overrideEndAt.None? && (task.startAt.None? || task.endAt.None?) ==> o.occurrenceEnd.None?)
  }

  lemma BuiltShowsSlot(task: Task, exceptions: map<int, OccurrenceException>, t: int)
    ensures ShowsSlotOf(task, ExceptionAt(exceptions, t), t, BuildOccurrence(task, exceptions, t))
    ensures BuildOccurrence(task, exceptions, t).isException <==> t in exceptions
  {
  }

  /** Every occurrence of an expansion is of a slot of the rule that is not skipped, and shows it so. */
  lemma ExpansionContents(task: Task, c: Config, exceptions: map<int, OccurrenceException>, from: int, to: int,
                          o: Occurrence)
    requires o in Expansion(task, c, exceptions, from, to)
    ensures task.startAt.Some? && o.originalStart.Some? && Member(SeriesOf(task, c), o.originalStart.value)
    ensures ShowsSlotOf(task, ExceptionAt(exceptions, o.originalStart.value), o.originalStart.value, o)
    ensures !ExceptionAt(exceptions, o.originalStart.value).isSkipped
  {
    if task.startAt.None? {
      TimelessYieldsNothing(task, c, exceptions, from, to);
    } else {
      hide Expansion, BuildOccurrence, AtSeedTime, InSeries, WithinSteps, ShowsSlotOf;
      RecurrenceIsNamed(task, c, exceptions, from, to, o);
      BuiltShowsSlot(task, exceptions, o.originalStart.value);
    }
  }

  /** The rule a master recurs by: its own one if it has any, or else its group's. */
  predicate RecursBy(db: Db, row: Task, c: Config) {
    && row.parentTaskId.None?
    && if row.config.Some? then row.config == Some(c)
       else row.groupId.Some? && row.groupId.value in db.groups && db.groups[row.groupId.value].config == Some(c)
  }

  /** A wrapped row shows its own span, title and completion. */
  predicate ShowsRow(row: Task, o: Occurrence) {
    && o.taskId == row.id && !o.isRecurring && o.originalStart == row.startAt
    && o.occurrenceStart == row.startAt && o.occurrenceEnd == row.endAt
    && o.title == row.title && o.completedAt == row.completedAt && !o.isException
    && o.parentTaskId == row.parentTaskId && (o.isDetached <==> row.detachedAt.Some?)
  }

  /** The entry is of a slot of the rule the row recurs by, not skipped, and shows it with its exception. */
  ghost predicate ShowsRecurrence(db: Db, row: Task, o: Occurrence) {
    && row.startAt.Some? && o.originalStart.Some?
    && (exists c :: RecursBy(db, row, c) && Member(SeriesOf(row, c), o.originalStart.value))
    && var e := ExceptionAt(ExceptionsOf(db.exceptions, row.id), o.originalStart.value);
       !e.isSkipped && ShowsSlotOf(row, e, o.originalStart.value, o)
  }

  /** Every entry of an agenda shows a live row as it is, or one slot of the rule the row recurs by. */
  lemma AgendaContents(db: Db, q: Query, o: Occurrence)
    requires RowsValid(db) && InAgenda(db, q, o)
    ensures IsLive(db, o.taskId) && db.tasks[o.taskId].calendarId in q.calendars
    ensures q.groupId.Some? ==> db.tasks[o.taskId].groupId == q.groupId
    ensures if o.isRecurring then ShowsRecurrence(db, db.tasks[o.taskId], o) else ShowsRow(db.tasks[o.taskId], o)
  {
    var row := db.tasks[o.taskId];
    ContributorIsLive(db, q, o.taskId, o);
    assert row.id == o.taskId;
    hide RowsValid, Expansion, ShowsSlotOf, Member;
    if o in Recurrences(db, row, q.from, q.to) {
      var c := EffectiveConfig(db.groups, row).value;
      ExpansionContents(row, c, ExceptionsOf(db.exceptions, row.id), q.from, q.to, o);
      assert o.isRecurring by { SlotsRecur(row, o); }
      assert RecursBy(db, row, c);
    }
  }

  lemma SlotsRecur(row: Task, o: Occurrence)
    requires exists e, t :: ShowsSlotOf(row, e, t, o)
    ensures o.isRecurring
  {
  }

  /** An entry is a slot of a rule exactly when its row has a start and a rule to recur by; a todo shows as it is. */
  lemma RowShowsUnlessItRecurs(db: Db, q: Query, o: Occurrence)
    requires RowsValid(db) && InAgenda(db, q, o)
    ensures o.isRecurring <==> db.tasks[o.taskId].startAt.Some? && exists c :: RecursBy(db, db.tasks[o.taskId], c)
  {
    AgendaContents(db, q, o);
    hide RowsValid, Expansion;
  }

  // --- nothing is left out --------------------------------------------------------------------

  /** A live row of the calendars read and of the group asked for, if any. */
  predicate IsAskedFor(db: Db, q: Query, id: Id) {
    && id in db.tasks && db.tasks[id].deletedAt.None? && db.tasks[id].calendarId in q.calendars
    && (q.groupId.Some? ==> db.tasks[id].groupId == q.groupId)
  }

  /** A timed row without a rule shows in every window its span meets, unless an override has replaced it. */
  lemma TimedRowIsShown(db: Db, q: Query, id: Id)
    requires Structure(db) && IsAskedFor(db, q, id) && (q.includeCompleted || db.tasks[id].completedAt.None?)
    requires db.tasks[id].startAt.Some? && forall c :: !RecursBy(db, db.tasks[id], c)
    requires db.tasks[id].startAt.value < q.to
    requires if db.tasks[id].endAt.Some? then db.tasks[id].endAt.value > q.from
      else db.tasks[id].startAt.value >= q.from
    requires !HasChildAt(db, id, db.tasks[id].startAt.value)
    ensures InAgenda(db, q, WrapOneOff(db.tasks[id]))
  {
    var row := db.tasks[id];
    assert row.id == id && LinkValid(db, row);
    hide Structure, Recurrences;
    var own := row.parentTaskId.None? && row.config.Some?;
    var groups := row.parentTaskId.None? && row.config.None? && GroupHasRule(db.groups, row);
    assert own ==> RecursBy(db, row, row.config.value);
    assert groups ==> RecursBy(db, row, db.groups[row.groupId.value].config.value);
    assert !own && !groups;
    assert !Suppressed(db, q.calendars, q.from, q.to, id, row.startAt.value);
  }

  /** A todo shows whenever todos are asked for. */
  lemma TodoIsShown(db: Db, q: Query, id: Id)
    requires Structure(db) && IsAskedFor(db, q, id) && (q.includeCompleted || db.tasks[id].completedAt.None?)
    requires db.tasks[id].startAt.None? && db.tasks[id].config.None? && q.includeTodos
    ensures InAgenda(db, q, WrapOneOff(db.tasks[id]))
  {
    assert db.tasks[id].id == id;
    hide Structure, Recurrences;
  }

  /**
   * A slot of the rule a row recurs by shows in every window it meets that no cap cuts,
   * unless it is skipped, overridden, or completed and such are not asked for.
   */
  lemma RecurringSlotIsShown(db: Db, q: Query, id: Id, c: Config, t: int)
    requires Structure(db) && IsAskedFor(db, q, id) && RecursBy(db, db.tasks[id], c) && db.tasks[id].startAt.Some?
    requires Member(SeriesOf(db.tasks[id], c), t)
    requires CapFree(db.tasks[id], c, ExceptionsOf(db.exceptions, id), q.from, q.to)
    requires t < q.to
    requires
      if db.tasks[id].endAt.Some? then t + (db.tasks[id].endAt.value - db.tasks[id].startAt.value) > q.from
      else t > q.from
    requires (id, t) in db.exceptions ==>
      !db.exceptions[(id, t)].isSkipped && (q.includeCompleted || db.exceptions[(id, t)].completedAt.None?)
    requires !HasChildAt(db, id, t)
    ensures InAgenda(db, q, BuildOccurrence(db.tasks[id], ExceptionsOf(db.exceptions, id), t))
  {
    var row, exceptions := db.tasks[id], ExceptionsOf(db.exceptions, id);
    var o := BuildOccurrence(row, exceptions, t);
    assert row.id == id;
    assert MeetsWindow(Duration(row), t, q.from, q.to) && !IsSkipped(exceptions, t);
    assert o.taskId == id && o.originalStart == Some(t) && (q.includeCompleted || o.completedAt.None?);
    assert !Suppressed(db, q.calendars, q.from, q.to, id, t);
    hide Structure, BuildOccurrence, HasChildAt, Suppressed, Member, CapFree, MeetsWindow, IsSkipped, ExceptionsOf,
      Expansion;
    CapFreeMembers(row, c, exceptions, q.from, q.to, o);
    assert EffectiveConfig(db.groups, row) == Some(c);
  }

  /** Whether a window shows an occurrence is decided by its slot, wherever an exception has moved it. */
  lemma SlotDecidesWindow(db: Db, q: Query, o: Occurrence)
    requires RowsValid(db) && InAgenda(db, q, o) && o.isRecurring
    ensures o.originalStart.Some? && MeetsWindow(Duration(db.tasks[o.taskId]), o.originalStart.value, q.from, q.to)
  {
    AgendaContents(db, q, o);
    var row := db.tasks[o.taskId];
    hide RowsValid, Expansion, ShowsRecurrence;
    assert o in Recurrences(db, row, q.from, q.to);
    assert row.startAt.Some? by { RecurrenceHasStart(db, row, o); }
    RecurrenceIsNamed(row, EffectiveConfig(db.groups, row).value, ExceptionsOf(db.exceptions, row.id), q.from, q.to, o);
  }

  lemma RecurrenceHasStart(db: Db, row: Task, o: Occurrence)
    requires ShowsRecurrence(db, row, o)
    ensures row.startAt.Some?
  {
  }

  /** The daily event, with its second day moved to the fortieth by an exception. */
  const MOVED_DAILY := Db(
    map[1 := DAILY_EVENT],
    map[(1, MILLIS_PER_DAY) := OccurrenceException(false, Some(40 * MILLIS_PER_DAY), None, None, None)],
    map[])

  lemma MovedDailyRows()
    ensures RowsValid(MOVED_DAILY) && forall id: Id :: id in MOVED_DAILY.tasks ==> id == 1
    ensures DAILY_EVENT.startAt == Some(0) && Duration(DAILY_EVENT) == Some(2 * HOUR)
  {
    assert ValidAxes(EVERY_DAY);
    hide ValidAxes;
  }

  /** Read around the fortieth day, the moved occurrence is missing. */
  lemma MovedSlotMissesItsWindow(q: Query, o: Occurrence)
    requires q.from == 40 * MILLIS_PER_DAY && InAgenda(MOVED_DAILY, q, o)
    ensures o.originalStart != Some(MILLIS_PER_DAY)
  {
    hide RowsValid, InAgenda, DAILY_EVENT, ShowsRecurrence, Duration;
    MovedDailyRows();
    AgendaContents(MOVED_DAILY, q, o);
    assert MOVED_DAILY.tasks[o.taskId] == DAILY_EVENT;
    if o.isRecurring {
      SlotDecidesWindow(MOVED_DAILY, q, o);
    }
  }
}
