/**
 * The two reads of the store: the agenda of a window, merged from three kinds of
 * rows, and the conflict check, which takes a different path over the same rows.
 */
module Agenda {
  import opened Wrappers
  import opened Ranges
  import opened RecurrenceRule
  import opened TaskRows
  import opened Series
  import opened SeriesLaws
  import opened TaskStore
  import opened TaskInvariants

  /** What a window read asks for; `calendars` is the resolved calendar scope. */
  datatype Query = Query(
    calendars: set<Id>,
    from: int,
    to: int,
    groupId: Option<Id>,
    includeCompleted: bool,
    includeTodos: bool)

  function ExceptionsOf(exceptions: map<(Id, int), OccurrenceException>, id: Id): map<int, OccurrenceException> {
    map k | k in exceptions && k.0 == id :: k.1 := exceptions[k]
  }

  // --- which read a row feeds ---------------------------------------------------

  predicate GroupHasRule(groups: map<Id, Group>, row: Task) {
    row.groupId.Some? && row.groupId.value in groups && groups[row.groupId.value].config.Some?
  }

  /** The row recurs by its group's rule, so it must not surface as a one-off too. */
  predicate InheritsGroupRule(groups: map<Id, Group>, row: Task) {
    row.parentTaskId.None? && row.startAt.Some? && GroupHasRule(groups, row)
  }

  /** The span of a row meets the window; an end-less row is a point at its start. */
  predicate RowMeetsWindow(row: Task, from: int, to: int) {
    && row.startAt.Some? && row.startAt.value < to
    && (if row.endAt.Some? then row.endAt.value > from else row.startAt.value >= from)
  }

  predicate InScope(q: Query, row: Task) {
    && row.deletedAt.None? && row.calendarId in q.calendars
    && (q.groupId.Some? ==> row.groupId == q.groupId)
  }

  predicate FeedsOneOff(groups: map<Id, Group>, row: Task) {
    row.config.None? && row.startAt.Some? && !InheritsGroupRule(groups, row)
  }

  predicate FeedsTodo(row: Task) {
    row.config.None? && row.startAt.None?
  }

  predicate FeedsOwnRule(row: Task) {
    row.config.Some? && row.parentTaskId.None?
  }

  predicate FeedsGroupRule(groups: map<Id, Group>, row: Task) {
    row.config.None? && InheritsGroupRule(groups, row)
  }

  function WrapOneOff(row: Task): Occurrence {
    Occurrence(row.id, row.startAt, row.startAt, row.endAt, row.title, row.completedAt, false, false, row.parentTaskId,
      row.detachedAt.Some?)
  }

  // --- the agenda ---------------------------------------------------------------

  /** What the row with key `id` contributes before suppression and completion filtering. */
  ghost function Contribution(db: Db, q: Query, id: Id): seq<Occurrence>
    requires id in db.tasks
  {
    var row := db.tasks[id];
    if !InScope(q, row) then []
    else if FeedsOneOff(db.groups, row) then (if RowMeetsWindow(row, q.from, q.to) then [WrapOneOff(row)] else [])
    else if FeedsTodo(row) then (if q.includeTodos then [WrapOneOff(row)] else [])
    else Recurrences(db, row, q.from, q.to)
  }

  /** The occurrences of a recurring anchor, by its own rule or else its group's. */
  ghost function Recurrences(db: Db, row: Task, from: int, to: int): seq<Occurrence> {
    var c := EffectiveConfig(db.groups, row);
    if c.None? then [] else Expansion(row, c.value, ExceptionsOf(db.exceptions, row.id), from, to)
  }

  /** A live override child replaces slot `(p, t)`, whose original start lies in the window. */
  ghost predicate Suppressed(db: Db, calendars: set<Id>, from: int, to: int, p: Id, t: int) {
    from <= t < to && exists id: Id :: IsChildAt(db, id, p, t) && db.tasks[id].calendarId in calendars
  }

  ghost predicate Shown(db: Db, q: Query, o: Occurrence) {
    && !(o.originalStart.Some? && Suppressed(db, q.calendars, q.from, q.to, o.taskId, o.originalStart.value))
    && (q.includeCompleted || o.completedAt.None?)
  }

  ghost predicate InAgenda(db: Db, q: Query, o: Occurrence) {
    o.taskId in db.tasks && o in Contribution(db, q, o.taskId) && Shown(db, q, o)
  }

  /** A null start sorts last. */
  predicate StartsNoLater(a: Option<int>, b: Option<int>) {
    b.None? || (a.Some? && a.value <= b.value)
  }

  // --- laws of the agenda ---------------------------------------------------------

  lemma TimelessYieldsNothing(row: Task, c: Config, exceptions: map<int, OccurrenceException>, from: int, to: int)
    requires row.startAt.None?
    ensures Expansion(row, c, exceptions, from, to) == []
  {
  }

  lemma RecurrenceIsNamed(row: Task, c: Config, exceptions: map<int, OccurrenceException>, from: int, to: int,
                          o: Occurrence)
    requires row.startAt.Some? && o in Expansion(row, c, exceptions, from, to)
    ensures o.taskId == row.id && o.originalStart.Some?
    ensures o == BuildOccurrence(row, exceptions, o.originalStart.value)
    ensures o.originalStart.value < to && o.originalStart.value + Duration(row).Or(0) > from
    ensures !IsSkipped(exceptions, o.originalStart.value)
    ensures AtSeedTime(SeriesOf(row, c), o.originalStart.value) && Slot(SeriesOf(row, c), o.originalStart.value)
  {
    var i :| 0 <= i < |Expansion(row, c, exceptions, from, to)| && o == Expansion(row, c, exceptions, from, to)[i];
    ExpansionEntries(row, c, exceptions, from, to, i);
    var s := SeriesOf(row, c);
    StartOnDay(s, AnswerDays(s, Duration(row), exceptions, from, to)[i]);
    hide InSeries, WithinSteps, AnswerDays, LocalDay, Expansion;
  }

  /** The entries of one expansion have pairwise distinct original starts. */
  lemma ExpansionStartsDistinct(row: Task, c: Config, exceptions: map<int, OccurrenceException>, from: int, to: int,
                                i: nat, j: nat)
    requires i < j < |Expansion(row, c, exceptions, from, to)|
    ensures Expansion(row, c, exceptions, from, to)[i].originalStart
      != Expansion(row, c, exceptions, from, to)[j].originalStart
  {
    assert row.startAt.Some?;
    var s := SeriesOf(row, c);
    ExpansionEntries(row, c, exceptions, from, to, i);
    ExpansionEntries(row, c, exceptions, from, to, j);
    var days := AnswerDays(s, Duration(row), exceptions, from, to);
    ListMembers(WantedDays(s, Duration(row), exceptions, from, to), SeedDay(s), LocalDay(s.offset, to) + 1);
    StartOnOrder(s, days[i], days[j]);
    hide Wanted, Expansion, StartOn, AnswerDays;
  }

  /** How many of the four reads the row feeds. */
  function ReadsFed(groups: map<Id, Group>, row: Task): nat {
    (if FeedsOneOff(groups, row) then 1 else 0) + (if FeedsTodo(row) then 1 else 0)
    + (if FeedsOwnRule(row) then 1 else 0) + (if FeedsGroupRule(groups, row) then 1 else 0)
  }

  /**
   * Each live row of the store feeds exactly one of the four reads: wrapped as a
   * one-off, as a timeless todo, expanded by its own rule, or by its group's.
   */
  lemma ReadsPartitionRows(db: Db, id: Id)
    requires Structure(db) && IsLive(db, id)
    ensures ReadsFed(db.groups, db.tasks[id]) == 1
  {
    assert LinkValid(db, db.tasks[id]);
    hide Structure;
  }

  /** Two agenda entries of one task with one original start are the same entry. */
  lemma AgendaKeysDistinct(db: Db, q: Query, a: Occurrence, b: Occurrence)
    requires InAgenda(db, q, a) && InAgenda(db, q, b)
    requires a.taskId == b.taskId && a.originalStart == b.originalStart
    ensures a == b
  {
    hide Expansion, Shown, InScope, EffectiveConfig;
    var row := db.tasks[a.taskId];
    if row.startAt.Some? && a != b {
      var c := EffectiveConfig(db.groups, row);
      if c.Some? && a in Recurrences(db, row, q.from, q.to) && b in Recurrences(db, row, q.from, q.to) {
        RecurrenceIsNamed(row, c.value, ExceptionsOf(db.exceptions, row.id), q.from, q.to, a);
        RecurrenceIsNamed(row, c.value, ExceptionsOf(db.exceptions, row.id), q.from, q.to, b);
      }
    } else if row.startAt.None? && a != b {
      var c := EffectiveConfig(db.groups, row);
      if c.Some? {
        TimelessYieldsNothing(row, c.value, ExceptionsOf(db.exceptions, row.id), q.from, q.to);
      }
    }
  }

  /** An agenda entry shows slot `(p, t)` as its master's occurrence or as its override child. */
  predicate ShowsSlot(db: Db, o: Occurrence, p: Id, t: int) {
    (o.taskId == p && o.originalStart == Some(t)) || IsChildAt(db, o.taskId, p, t)
  }

  /**
   * No slot that starts inside the window shows twice: if its override child is on
   * the agenda, the generated occurrence - or former master - is not.
   */
  lemma SlotShowsOnce(db: Db, q: Query, a: Occurrence, b: Occurrence, p: Id, t: int)
    requires Structure(db) && q.from <= t < q.to
    requires InAgenda(db, q, a) && InAgenda(db, q, b) && ShowsSlot(db, a, p, t) && ShowsSlot(db, b, p, t)
    ensures a == b
  {
    hide Expansion, EffectiveConfig, RowsValid, SingleOwner, Recurrences;
    if IsChildAt(db, a.taskId, p, t) {
      ChildSuppresses(db, q, a, p, t);
      if IsChildAt(db, b.taskId, p, t) {
        assert LinkValid(db, db.tasks[a.taskId]);
      }
    } else if IsChildAt(db, b.taskId, p, t) {
      ChildSuppresses(db, q, b, p, t);
    } else {
      AgendaKeysDistinct(db, q, a, b);
    }
  }

  lemma ChildSuppresses(db: Db, q: Query, o: Occurrence, p: Id, t: int)
    requires q.from <= t < q.to && InAgenda(db, q, o) && IsChildAt(db, o.taskId, p, t)
    ensures Suppressed(db, q.calendars, q.from, q.to, p, t)
  {
    ContributorIsLive(db, q, o.taskId, o);
    hide Contribution;
  }

  lemma ContributorIsLive(db: Db, q: Query, id: Id, o: Occurrence)
    requires id in db.tasks && o in Contribution(db, q, id)
    ensures InScope(q, db.tasks[id])
  {
    hide Expansion, EffectiveConfig, Recurrences;
  }

  /**
   * Exactly how far suppression reaches: the occurrence generated for an overridden
   * slot still shows beside the override if and only if it began before the window
   * and is still running in it.
   */
  lemma SuppressionReach(db: Db, q: Query, o: Occurrence, child: Id)
    requires Structure(db) && o.taskId in db.tasks && db.tasks[o.taskId].startAt.Some? && InScope(q, db.tasks[o.taskId])
    requires o in Recurrences(db, db.tasks[o.taskId], q.from, q.to)
    requires o.originalStart.Some? && IsChildAt(db, child, o.taskId, o.originalStart.value)
    ensures InAgenda(db, q, o) <==> o.originalStart.value < q.from
  {
    hide Expansion;
    var row, t := db.tasks[o.taskId], o.originalStart.value;
    var c := EffectiveConfig(db.groups, row);
    RecurrenceIsNamed(row, c.value, ExceptionsOf(db.exceptions, row.id), q.from, q.to, o);
    assert (o.taskId, t) !in db.exceptions;
    assert LinkValid(db, db.tasks[child]);
    assert row.id == o.taskId;
    assert t !in ExceptionsOf(db.exceptions, row.id);
    assert o.completedAt.None?;
    assert FeedsOneOff(db.groups, row) ==> c.None?;
    assert o in Contribution(db, q, o.taskId);
    hide Structure, Contribution, Recurrences;
    assert Suppressed(db, q.calendars, q.from, q.to, o.taskId, t) <==> q.from <= t;
  }

  // --- the conflict check -----------------------------------------------------------

  /** A live, unfinished occurrence of a recurring anchor stands in the window. */
  ghost predicate HasLiveOccurrence(db: Db, calendar: Id, from: int, to: int, row: Task) {
    exists o :: o in Recurrences(db, row, from, to) && o.completedAt.None?
      && !(o.originalStart.Some? && Suppressed(db, {calendar}, from, to, row.id, o.originalStart.value))
  }

  ghost predicate Clashes(db: Db, calendar: Id, from: int, to: int, row: Task) {
    && row.deletedAt.None? && row.calendarId == calendar
    && ((row.config.None? && row.completedAt.None? && RowMeetsWindow(row, from, to))
        || (row.parentTaskId.None? && HasLiveOccurrence(db, calendar, from, to, row)))
  }

  /** The agenda a conflict check is compared with: one calendar, unfinished items only. */
  function ConflictQuery(calendar: Id, from: int, to: int): Query {
    Query({calendar}, from, to, None, false, false)
  }

  /** No missed conflict: every task with an unfinished timed entry on the agenda clashes. */
  lemma NoMissedConflict(db: Db, calendar: Id, from: int, to: int, o: Occurrence)
    requires Structure(db) && InAgenda(db, ConflictQuery(calendar, from, to), o)
    ensures Clashes(db, calendar, from, to, db.tasks[o.taskId])
  {
    hide Expansion;
    var q := ConflictQuery(calendar, from, to);
    var row := db.tasks[o.taskId];
    assert LinkValid(db, row) && row.id == o.taskId;
    hide Structure, LinkValid;
    if o in Recurrences(db, row, from, to) && !FeedsOneOff(db.groups, row) && !FeedsTodo(row) {
      assert o.completedAt.None? && !(o.originalStart.Some?
        && Suppressed(db, {calendar}, from, to, row.id, o.originalStart.value));
      assert HasLiveOccurrence(db, calendar, from, to, row);
      assert row.parentTaskId.None?;
    }
  }

  /**
   * A row the check reports though the agenda shows nothing of it: its own span
   * meets the window, but it recurs by its group's rule, or is a former master whose
   * anchor slot an override has replaced.
   */
  ghost predicate PhantomClash(db: Db, calendar: Id, from: int, to: int, row: Task) {
    && row.config.None? && row.completedAt.None? && RowMeetsWindow(row, from, to)
    && (InheritsGroupRule(db.groups, row) || Suppressed(db, {calendar}, from, to, row.id, row.startAt.value))
  }

  ghost predicate OnAgenda(db: Db, calendar: Id, from: int, to: int, id: Id) {
    exists o :: InAgenda(db, ConflictQuery(calendar, from, to), o) && o.taskId == id
  }

  /** The conflict check reports exactly the tasks on the agenda and the phantom rows. */
  lemma ConflictsAreAgendaAndPhantoms(db: Db, calendar: Id, from: int, to: int, id: Id)
    requires Structure(db) && IsLive(db, id) && db.tasks[id].calendarId == calendar
    ensures Clashes(db, calendar, from, to, db.tasks[id]) <==>
      OnAgenda(db, calendar, from, to, id) || PhantomClash(db, calendar, from, to, db.tasks[id])
  {
    var q, row := ConflictQuery(calendar, from, to), db.tasks[id];
    assert LinkValid(db, row) && row.id == id;
    hide Expansion, Structure, LinkValid;
    if OnAgenda(db, calendar, from, to, id) {
      var o :| InAgenda(db, q, o) && o.taskId == id;
      NoMissedConflict(db, calendar, from, to, o);
    }
    if Clashes(db, calendar, from, to, row) && !PhantomClash(db, calendar, from, to, row) {
      if row.config.None? && row.completedAt.None? && RowMeetsWindow(row, from, to) {
        assert InAgenda(db, q, WrapOneOff(row));
      } else {
        LiveOccurrenceIsOnAgenda(db, calendar, from, to, id);
      }
    }
  }

  lemma LiveOccurrenceIsOnAgenda(db: Db, calendar: Id, from: int, to: int, id: Id)
    requires Structure(db) && IsLive(db, id) && db.tasks[id].calendarId == calendar
    requires HasLiveOccurrence(db, calendar, from, to, db.tasks[id])
    ensures OnAgenda(db, calendar, from, to, id)
  {
    var q, row := ConflictQuery(calendar, from, to), db.tasks[id];
    assert row.id == id;
    hide Expansion, Structure;
    var o :| o in Recurrences(db, row, from, to) && o.completedAt.None?
      && !(o.originalStart.Some? && Suppressed(db, {calendar}, from, to, row.id, o.originalStart.value));
    var c := EffectiveConfig(db.groups, row).value;
    if row.startAt.Some? {
      RecurrenceIsNamed(row, c, ExceptionsOf(db.exceptions, id), from, to, o);
      assert o in Contribution(db, q, id);
      assert InAgenda(db, q, o);
    } else {
      TimelessYieldsNothing(row, c, ExceptionsOf(db.exceptions, id), from, to);
    }
  }

  // --- concrete stores ------------------------------------------------------------------

  const HOUR := 3_600_000

  /** A two-hour event that recurs every day from instant 0. */
  const DAILY_EVENT := Task(1, 1, None, "daily", Some(0), Some(2 * HOUR), 0, None, Some(EVERY_DAY), None, None, None,
    None)

  /** Its second day, overridden in place. */
  const SECOND_DAY := Task(2, 1, None, "moved", Some(MILLIS_PER_DAY), Some(MILLIS_PER_DAY + 2 * HOUR), 0, None, None,
    Some(1),
    Some(MILLIS_PER_DAY), None, None)

  const OVERRIDDEN_DAILY := Db(map[1 := DAILY_EVENT, 2 := SECOND_DAY], map[], map[])

  lemma OverriddenDailyIsSound()
    ensures Structure(OVERRIDDEN_DAILY) && IsChildAt(OVERRIDDEN_DAILY, 2, 1, MILLIS_PER_DAY)
  {
  }

  /** An early slot of a plain daily master without exceptions is among its recurrences. */
  lemma EarlySlotRecurs(db: Db, id: Id, k: nat, from: int, to: int)
    requires id in db.tasks && db.exceptions == map[]
    requires db.tasks[id].config == Some(EVERY_DAY) && db.tasks[id].parentTaskId.None? && db.tasks[id].startAt.Some?
    requires k < MAX_OCCURRENCES_PER_WINDOW
    requires MeetsWindow(Duration(db.tasks[id]), db.tasks[id].startAt.value + k * MILLIS_PER_DAY, from, to)
    ensures
      var o := BuildOccurrence(db.tasks[id], map[], db.tasks[id].startAt.value + k * MILLIS_PER_DAY);
      o in Recurrences(db, db.tasks[id], from, to)
  {
    hide Expansion, BuildOccurrence, MeetsWindow, Duration;
    assert ExceptionsOf(db.exceptions, db.tasks[id].id) == map[];
    EarlyDailySlotListed(db.tasks[id], map[], from, to, k);
  }

  /** A one-off that meets the window shows, unless something overrides it. */
  lemma OneOffShows(db: Db, q: Query, id: Id)
    requires id in db.tasks && db.tasks[id].id == id && InScope(q, db.tasks[id]) && db.tasks[id].completedAt.None?
    requires FeedsOneOff(db.groups, db.tasks[id]) && RowMeetsWindow(db.tasks[id], q.from, q.to)
    requires forall k: Id :: k in db.tasks ==> db.tasks[k].parentTaskId != Some(id)
    ensures InAgenda(db, q, WrapOneOff(db.tasks[id]))
  {
    hide Recurrences;
  }

  /** A read that begins in the middle of the overridden slot. */
  const MID_SLOT := Query({1}, MILLIS_PER_DAY + HOUR, MILLIS_PER_DAY + 3 * HOUR, None, true, false)

  lemma OverriddenSlotRecurs()
    ensures
      var o := BuildOccurrence(DAILY_EVENT, map[], MILLIS_PER_DAY);
      o.taskId == 1 && o.originalStart == Some(MILLIS_PER_DAY)
        && o in Recurrences(OVERRIDDEN_DAILY, DAILY_EVENT, MID_SLOT.from, MID_SLOT.to)
  {
    hide Recurrences;
    EarlySlotRecurs(OVERRIDDEN_DAILY, 1, 1, MID_SLOT.from, MID_SLOT.to);
  }

  lemma SecondDayShows()
    ensures InAgenda(OVERRIDDEN_DAILY, MID_SLOT, WrapOneOff(SECOND_DAY))
  {
    hide InAgenda;
    OneOffShows(OVERRIDDEN_DAILY, MID_SLOT, 2);
  }

  /** It shows both the slot and its override. */
  lemma OverriddenSlotShowsTwice()
    ensures Structure(OVERRIDDEN_DAILY) && IsChildAt(OVERRIDDEN_DAILY, 2, 1, MILLIS_PER_DAY)
    ensures InAgenda(OVERRIDDEN_DAILY, MID_SLOT, BuildOccurrence(DAILY_EVENT, map[], MILLIS_PER_DAY))
    ensures InAgenda(OVERRIDDEN_DAILY, MID_SLOT, WrapOneOff(SECOND_DAY))
  {
    hide InAgenda, Recurrences, Structure, BuildOccurrence, WrapOneOff;
    OverriddenDailyIsSound();
    OverriddenSlotRecurs();
    SuppressionReach(OVERRIDDEN_DAILY, MID_SLOT, BuildOccurrence(DAILY_EVENT, map[], MILLIS_PER_DAY), 2);
    SecondDayShows();
  }

  /** A one-hour event that recurred once, and the override that moved its first slot. */
  const FORMER_MASTER := Task(1, 1, None, "former", Some(0), Some(HOUR), 0, None, None, None, None, None, None)
  const MOVED_AWAY := Task(2, 1, None, "moved", Some(10 * HOUR), Some(11 * HOUR), 0, None, None, Some(1), Some(0),
    Some(0), None)
  const MOVED_MASTER := Db(map[1 := FORMER_MASTER, 2 := MOVED_AWAY], map[], map[])

  /** The former master's own hour is free on the agenda, and yet the check reports a clash with it. */
  lemma PhantomOfFormerMaster()
    ensures Structure(MOVED_MASTER)
    ensures Clashes(MOVED_MASTER, 1, 0, HOUR, FORMER_MASTER) && forall id: Id :: !OnAgenda(MOVED_MASTER, 1, 0, HOUR, id)
  {
    hide Expansion;
    assert IsChildAt(MOVED_MASTER, 2, 1, 0);
    assert Suppressed(MOVED_MASTER, {1}, 0, HOUR, 1, 0);
  }

  /** An hour-long row that recurs daily by its group's rule; its first day was overridden and then deleted. */
  const GROUPED := Task(1, 1, Some(5), "grouped", Some(0), Some(HOUR), 0, None, None, None, None, None, None)
  const DELETED_DAY :=
    Task(2, 1, Some(5), "grouped", Some(0), Some(HOUR), 0, None, None, Some(1), Some(0), None, Some(0))
  const DAILY_GROUP := Group(1, Some(EVERY_DAY))
  const SKIPPED_GROUPED := Db(
    map[1 := GROUPED, 2 := DELETED_DAY],
    map[(1, 0) := OccurrenceException(true, None, None, None, None)],
    map[5 := DAILY_GROUP])

  lemma FirstSlotOnly(s: Series, t: int)
    requires s.startAt == s.offset == 0 && Slot(s, t) && t < HOUR
    ensures t == 0
  {
    assert SeedDay(s) <= LocalDay(s.offset, t);
    hide InSeries, WithinSteps;
  }

  /** Nothing of a daily row shows in the first hour once its first day is skipped. */
  lemma FirstDaySkipped(db: Db, row: Task, o: Occurrence)
    requires row.startAt == Some(0) && row.offset == 0 && EffectiveConfig(db.groups, row) == Some(EVERY_DAY)
    requires IsSkipped(ExceptionsOf(db.exceptions, row.id), 0)
    ensures o !in Recurrences(db, row, 0, HOUR)
  {
    hide Expansion, BuildOccurrence, Slot, IsSkipped, AtSeedTime, ExceptionsOf, EffectiveConfig;
    if o in Recurrences(db, row, 0, HOUR) {
      RecurrenceIsNamed(row, EVERY_DAY, ExceptionsOf(db.exceptions, row.id), 0, HOUR, o);
      FirstSlotOnly(SeriesOf(row, EVERY_DAY), o.originalStart.value);
      assert false;
    }
  }

  lemma FirstDayIsSkipped()
    ensures IsSkipped(ExceptionsOf(SKIPPED_GROUPED.exceptions, GROUPED.id), 0)
    ensures EffectiveConfig(SKIPPED_GROUPED.groups, GROUPED) == Some(EVERY_DAY)
  {
    hide EVERY_DAY;
    assert (1, 0) in SKIPPED_GROUPED.exceptions;
    assert 0 in ExceptionsOf(SKIPPED_GROUPED.exceptions, 1);
  }

  lemma SkippedDayIsFree(o: Occurrence)
    ensures o !in Recurrences(SKIPPED_GROUPED, GROUPED, 0, HOUR)
  {
    hide Recurrences, IsSkipped, ExceptionsOf, EffectiveConfig;
    FirstDayIsSkipped();
    FirstDaySkipped(SKIPPED_GROUPED, GROUPED, o);
  }

  lemma SkippedGroupedIsSound()
    ensures Structure(SKIPPED_GROUPED)
  {
    assert ValidAxes(EVERY_DAY);
    assert RowsValid(SKIPPED_GROUPED) by {
      hide ValidAxes, EVERY_DAY;
    }
    hide RowsValid, ValidAxes, EVERY_DAY;
    assert forall id: Id, p: Id, t: int :: !IsChildAt(SKIPPED_GROUPED, id, p, t);
  }

  /** The skipped hour is free on the agenda, and yet the row's own span clashes. */
  lemma PhantomOfGroupRule()
    ensures Structure(SKIPPED_GROUPED)
    ensures Clashes(SKIPPED_GROUPED, 1, 0, HOUR, GROUPED) && forall id: Id :: !OnAgenda(SKIPPED_GROUPED, 1, 0, HOUR, id)
  {
    hide Recurrences, Structure;
    SkippedGroupedIsSound();
    forall o ensures o !in Recurrences(SKIPPED_GROUPED, GROUPED, 0, HOUR) {
      SkippedDayIsFree(o);
    }
  }
}
