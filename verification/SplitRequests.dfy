/**
 * Splits that change the new side: which axes of the rule a request overlays, and what
 * every agenda then shows of the new master.
 */
module SplitRequests {
  import opened Wrappers
  import opened RecurrenceRule
  import opened TaskRows
  import opened Series
  import opened SeriesLaws
  import opened SplitLaws
  import opened TaskStore
  import opened TaskInvariants
  import opened Agenda
  import opened OccurrenceLaws
  import opened EditLaws

  // --- the overlay of the rule ------------------------------------------------------------

  /** An axis the request names takes the requested value; one it does not name keeps the old rule's. */
  lemma OverlayTakesNamedAxes(c: Config, d: RuleDto)
    ensures
      var r := CloneWithOverrides(c, Some(d));
      && r.frequency == d.frequency
      && r.interval == (if d.interval.Some? then d.interval.value else c.interval)
      && r.byWeekday == (if d.byWeekday.Some? then d.byWeekday.value else c.byWeekday)
      && r.byMonthDay == (if d.byMonthDay.Some? then d.byMonthDay.value else c.byMonthDay)
      && r.byMonth == (if d.byMonth.Some? then d.byMonth.value else c.byMonth)
      && r.endType == (if d.endType.Some? then d.endType.value else c.endType)
      && r.endDate == (if d.endDate.Some? then d.endDate else c.endDate)
      && r.count == (if d.count.Some? then d.count else c.count)
      && r.bySetPos == c.bySetPos && r.monthlyAnchor == c.monthlyAnchor
    ensures CloneWithOverrides(c, None) == c
  {
  }

  /** Every axis that the request leaves out has its default value in the old rule, and the two selectors agree. */
  predicate OverlayCovers(c: Config, d: RuleDto) {
    && (d.interval.None? ==> c.interval == 1)
    && (d.byWeekday.None? ==> c.byWeekday == [])
    && (d.byMonthDay.None? ==> c.byMonthDay == [])
    && (d.byMonth.None? ==> c.byMonth == [])
    && (d.endType.None? ==> c.endType == Never)
    && (d.endDate.None? ==> c.endDate.None?)
    && (d.count.None? ==> c.count.None?)
    && c.bySetPos == d.bySetPos.Or([]) && c.monthlyAnchor == d.monthlyAnchor
  }

  /**
   * The overlay is the requested rule exactly when what the request leaves out was at
   * its default, and it asks for the ordinal and working-day selectors that were there:
   * those two the overlay cannot change.
   */
  lemma OverlayIsTheRequest(c: Config, d: RuleDto)
    ensures CloneWithOverrides(c, Some(d)) == ToConfig(d) <==> OverlayCovers(c, d)
  {
  }

  /** A daily rule split into "the second Friday of every month" goes on without the ordinal. */
  lemma OverlayDropsOrdinals()
    ensures
      var d := RuleDto(Monthly, None, Some([4]), None, None, Some([2]), None, None, None, None);
      && ToConfig(d).bySetPos == [2]
      && CloneWithOverrides(EVERY_DAY, Some(d)) == ToConfig(d).(bySetPos := [])
  {
  }

  /** A request that names every axis the overlay knows gets its own rule, whatever the old one was. */
  predicate NamesEveryAxis(d: RuleDto) {
    && d.interval.Some? && d.byWeekday.Some? && d.byMonthDay.Some? && d.byMonth.Some?
    && d.endType.Some? && d.endDate.Some? && d.count.Some?
  }

  lemma FullRequestIsTheRule(task: Task, c: Config, t: int, d: RuleDto)
    requires NamesEveryAxis(d) && c.bySetPos == d.bySetPos.Or([]) && c.monthlyAnchor == d.monthlyAnchor
    ensures ResolveSplitRecurrence(task, c, t, Some(d)) == ToConfig(d)
    ensures forall seed, day ::
      InSeries(ResolveSplitRecurrence(task, c, t, Some(d)), seed, day) <==> InSeries(ToConfig(d), seed, day)
  {
    OverlayIsTheRequest(c, d);
    hide InSeries, CountOccurrencesBefore;
  }

  /** A requested count is taken as it is; a counted rule otherwise goes on with what is left of its count. */
  lemma SplitCount(task: Task, c: Config, cut: int, dto: Option<RuleDto>)
    requires task.startAt.Some? && Duration(task).Or(0) >= 0 && Member(SeriesOf(task, c), cut)
    requires WithinSteps(c, SeedDay(SeriesOf(task, c)), LocalDay(task.offset, cut))
    ensures
      var r := ResolveSplitRecurrence(task, c, cut, dto);
      var k := Rank(c, SeedDay(SeriesOf(task, c)), LocalDay(task.offset, cut));
      && r.(count := None) == CloneWithOverrides(c, dto).(count := None)
      && (dto.Some? && dto.value.count.Some? ==> r.count == dto.value.count)
      && ((dto.None? || dto.value.count.None?) && IsCounted(c) ==>
           r.count == Some(c.count.value - if k <= MAX_OCCURRENCES_PER_WINDOW then k else MAX_OCCURRENCES_PER_WINDOW))
      && ((dto.None? || dto.value.count.None?) && !IsCounted(c) ==> r.count == c.count)
  {
    CountedBeforeIsRank(task, c, cut);
    assert IsCounted(c) ==> Rank(c, SeedDay(SeriesOf(task, c)), LocalDay(task.offset, cut)) < c.count.value;
    hide InSeries, WithinSteps, Expansion, LocalDay, SeedDay, Rank;
  }

  // --- the new master -----------------------------------------------------------------------

  /** A split at a later slot of a task with a rule of its own; any other is an edit of the task itself. */
  predicate CutsSeries(db: Db, id: Id, t: int) {
    IsLive(db, id) && db.tasks[id].config.Some? && db.tasks[id].startAt != Some(t)
  }

  function RequestedStart(t: int, ch: SplitChanges): int {
    if ch.startAt.Some? && ch.startAt.value.Some? then ch.startAt.value.value else t
  }

  /** The length of the new occurrences: as requested, or else as before. */
  function RequestedLength(task: Task, t: int, ch: SplitChanges): Option<int> {
    if ch.endAt.Some? then
      if ch.endAt.value.Some? then Some(ch.endAt.value.value - RequestedStart(t, ch)) else None
    else if task.startAt.Some? && task.endAt.Some? then Some(task.endAt.value - task.startAt.value)
    else None
  }

  /** The new master has what was requested, and the old master's where nothing was. */
  predicate IsAsRequested(task: Task, t: int, ch: SplitChanges, row: Task) {
    && row.startAt == Some(RequestedStart(t, ch))
    && (if RequestedLength(task, t, ch).Some? then
          row.endAt == Some(RequestedStart(t, ch) + RequestedLength(task, t, ch).value)
        else row.endAt == None)
    && row.title == (if ch.title.Some? then ch.title.value else task.title)
    && row.offset == (if ch.offset.Some? then ch.offset.value else task.offset)
    && row.groupId == (if ch.groupId.Some? then ch.groupId.value else task.groupId)
    && row.calendarId == task.calendarId
    && row.completedAt.None? && row.deletedAt.None? && row.parentTaskId.None? && row.detachedAt.None?
  }

  lemma NewMasterIsAsRequested(db: Db, id: Id, t: int, ch: SplitChanges, newId: Id, now: int)
    requires RowsValid(db) && CutsSeries(db, id, t) && newId !in db.tasks
    requires SplitSeries(db, id, t, ch, newId, now).Ok?
    ensures
      var db' := SplitSeries(db, id, t, ch, newId, now).value;
      && newId in db'.tasks && IsAsRequested(db.tasks[id], t, ch, db'.tasks[newId])
      && db'.tasks[newId].config == Some(ResolveSplitRecurrence(db.tasks[id], db.tasks[id].config.value, t,
        ch.recurrence))
      && db'.exceptions == CopiedExceptions(db.exceptions, id, newId, t)
  {
    hide EffectivelyGenerates, ResolveSplitRecurrence, CopiedExceptions, LocalDay;
    assert db.tasks[id].id == id;
  }

  /** The exceptions of the new master are the old one's from the cut on. */
  lemma NewMasterExceptions(db: Db, id: Id, t: int, newId: Id, s: int)
    requires ExceptionsKeyed(db) && newId !in db.tasks
    ensures
      ExceptionAt(ExceptionsOf(CopiedExceptions(db.exceptions, id, newId, t), newId), s)
        == if s >= t then ExceptionAt(ExceptionsOf(db.exceptions, id), s) else BLANK_EXCEPTION
  {
    assert (newId, s) !in db.exceptions;
    assert s >= t && (id, s) in db.exceptions ==> (newId, s) in CopiedExceptions(db.exceptions, id, newId, t);
  }

  /**
   * What any agenda shows of the new master: slots of the overlaid rule from the
   * requested start on, with the requested title and length - but for the exceptions of
   * the old series, which the slots from the cut on keep.
   */
  lemma SplitShowsRequest(db: Db, id: Id, t: int, ch: SplitChanges, newId: Id, now: int, q: Query, o: Occurrence)
    requires Structure(db) && CutsSeries(db, id, t) && newId !in db.tasks && ValidDto(ch.recurrence)
    requires SplitSeries(db, id, t, ch, newId, now).Ok?
    requires InAgenda(SplitSeries(db, id, t, ch, newId, now).value, q, o) && o.taskId == newId
    ensures o.originalStart.Some? && o.originalStart.value >= RequestedStart(t, ch)
    ensures
      var task, s := db.tasks[id], o.originalStart.value;
      var e := if s >= t then ExceptionAt(ExceptionsOf(db.exceptions, id), s) else BLANK_EXCEPTION;
      var rule := ResolveSplitRecurrence(task, task.config.value, t, ch.recurrence);
      && !e.isSkipped && o.completedAt == e.completedAt
      && Member(Series(RequestedStart(t, ch), if ch.offset.Some? then ch.offset.value else task.offset, rule), s)
      && o.title == (if e.overrideTitle.Some? then e.overrideTitle.value
                     else if ch.title.Some? then ch.title.value else task.title)
      && o.occurrenceStart == Some(if e.overrideStartAt.Some? then e.overrideStartAt.value else s)
      && (e.overrideEndAt.Some? ==> o.occurrenceEnd == e.overrideEndAt)
      && (e.overrideEndAt.None? ==>
           if RequestedLength(task, t, ch).Some? then
             o.occurrenceEnd == Some(o.occurrenceStart.value + RequestedLength(task, t, ch).value)
           else o.occurrenceEnd.None?)
  {
    hide SplitSeries, InAgenda, ResolveSplitRecurrence, Member, CopiedExceptions, ExceptionsOf, Structure,
      IsAsRequested;
    SplitKeeps(db, id, t, ch, newId, now);
    StructuredRows(db);
    var db' := SplitSeries(db, id, t, ch, newId, now).value;
    StructuredRows(db');
    NewMasterIsAsRequested(db, id, t, ch, newId, now);
    AgendaContents(db', q, o);
    RowShowsUnlessItRecurs(db', q, o);
    var row := db'.tasks[newId];
    RequestedFields(db.tasks[id], t, ch, row);
    assert RecursBy(db', row, row.config.value);
    assert row.id == newId;
    var s := o.originalStart.value;
    NewMasterExceptions(db, id, t, newId, s);
    assert Member(SeriesOf(row, row.config.value), s);
    MemberIsNotEarly(SeriesOf(row, row.config.value), s);
  }

  lemma RequestedFields(task: Task, t: int, ch: SplitChanges, row: Task)
    requires IsAsRequested(task, t, ch, row)
    ensures row.startAt == Some(RequestedStart(t, ch)) && row.parentTaskId.None?
    ensures row.title == if ch.title.Some? then ch.title.value else task.title
    ensures row.offset == if ch.offset.Some? then ch.offset.value else task.offset
    ensures
      if RequestedLength(task, t, ch).Some? then
        row.endAt.Some? && row.endAt.value - row.startAt.value == RequestedLength(task, t, ch).value
      else row.endAt.None?
  {
  }

  /** A series has no slot before its anchor. */
  lemma MemberIsNotEarly(s: Series, t: int)
    requires Member(s, t)
    ensures t >= s.startAt
  {
    assert SeedDay(s) <= LocalDay(s.offset, t);
    hide InSeries;
  }

  /**
   * A split at the anchor, or of a task without a rule of its own,
   * edits the task as requested and makes no new one.
   */
  lemma AnchorSplitEdits(db: Db, id: Id, t: int, ch: SplitChanges, newId: Id, now: int)
    requires RowsValid(db) && newId !in db.tasks && !CutsSeries(db, id, t)
    requires SplitSeries(db, id, t, ch, newId, now).Ok?
    ensures id in db.tasks && id in SplitSeries(db, id, t, ch, newId, now).value.tasks
    ensures SplitSeries(db, id, t, ch, newId, now).value.tasks.Keys == db.tasks.Keys
    ensures
      var task, row := db.tasks[id], SplitSeries(db, id, t, ch, newId, now).value.tasks[id];
      && row.title == (if ch.title.Some? then ch.title.value else task.title)
      && row.startAt == (if ch.startAt.Some? then ch.startAt.value else task.startAt)
      && row.endAt == (if ch.endAt.Some? then ch.endAt.value else task.endAt)
      && row.offset == (if ch.offset.Some? then ch.offset.value else task.offset)
      && row.groupId == (if ch.groupId.Some? then ch.groupId.value else task.groupId)
      && row.config == (if ch.recurrence.Some? then Some(ToConfig(ch.recurrence.value)) else task.config)
  {
    hide Update, ToConfig, TruncatedRow, SplitRow, Swept, CopiedExceptions;
    UpdatePatches(db, id, SplitAsUpdate(ch), now);
    UpdateKeepsKeys(db, id, SplitAsUpdate(ch), now);
  }

  lemma UpdateKeepsKeys(db: Db, id: Id, patch: UpdateInput, now: int)
    requires Update(db, id, patch, now).Ok?
    ensures Update(db, id, patch, now).value.tasks.Keys == db.tasks.Keys
  {
    hide SweptRow, PatchedRow, RuleInputsChanged, EffectiveConfig;
  }
}
