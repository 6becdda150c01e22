/**
 * What a slot shows once it is overridden: an exception's changes, or a child row that
 * takes over what the slot showed before and is then edited on its own.
 */
module OverrideContents {
  import opened Wrappers
  import opened Ranges
  import opened RecurrenceRule
  import opened TaskRows
  import opened Series
  import opened SeriesLaws
  import opened SplitLaws
  import opened TaskStore
  import opened TaskInvariants
  import opened Agenda
  import opened OccurrenceLaws
  import opened EditLaws
  import opened OverrideLaws

  // --- exceptions ---------------------------------------------------------------------------

  /** A named change takes effect, null included; an exception keeps what is not named. */
  lemma ChangesTakeEffect(e: OccurrenceException, ch: OverrideChanges)
    ensures
      var r := ApplyChanges(e, ch);
      && r.overrideStartAt == (if ch.overrideStartAt.Some? then ch.overrideStartAt.value else e.overrideStartAt)
      && r.overrideEndAt == (if ch.overrideEndAt.Some? then ch.overrideEndAt.value else e.overrideEndAt)
      && r.overrideTitle == (if ch.overrideTitle.Some? then ch.overrideTitle.value else e.overrideTitle)
      && r.isSkipped == (if ch.isSkipped.Some? then ch.isSkipped.value else e.isSkipped)
      && r.completedAt == (if ch.completedAt.Some? then ch.completedAt.value else e.completedAt)
  {
  }

  /** After a change to one occurrence every agenda shows the slot with it, or not at all once it is skipped. */
  lemma OverrideShows(db: Db, id: Id, t: int, ch: OverrideChanges, now: int, q: Query, o: Occurrence)
    requires Structure(db) && ApplyOccurrenceOverride(db, id, t, ch, now).Ok? && db.tasks[id].config.Some?
    requires InAgenda(ApplyOccurrenceOverride(db, id, t, ch, now).value, q, o)
    requires o.taskId == id && o.originalStart == Some(t)
    ensures ch.isSkipped != Some(true)
    ensures ch.overrideTitle.Some? && ch.overrideTitle.value.Some? ==> o.title == ch.overrideTitle.value.value
    ensures ch.overrideTitle == Some(None) ==> o.title == db.tasks[id].title
    ensures ch.overrideStartAt.Some? && ch.overrideStartAt.value.Some? ==> o.occurrenceStart == ch.overrideStartAt.value
    ensures ch.overrideStartAt == Some(None) ==> o.occurrenceStart == Some(t)
    ensures ch.overrideEndAt.Some? && ch.overrideEndAt.value.Some? ==> o.occurrenceEnd == ch.overrideEndAt.value
    ensures ch.completedAt.Some? ==> o.completedAt == ch.completedAt.value
  {
    var db' := ApplyOccurrenceOverride(db, id, t, ch, now).value;
    hide Structure, InAgenda;
    OverrideKeeps(db, id, t, ch, now);
    StructuredRows(db');
    MastersOnlyRecur(db, id);
    hide HasChildAt, IsGenerated, IsOverrideMutation;
    AgendaContents(db', q, o);
    RowShowsUnlessItRecurs(db', q, o);
    assert RecursBy(db', db'.tasks[id], db'.tasks[id].config.value);
    RowHasItsKey(db', id);
    hide RowsValid, Member;
    SlotHasException(db'.exceptions, id, t);
  }

  /** On a task without a rule of its own the change falls on the row. */
  lemma CollapsedOverridePatches(db: Db, id: Id, t: int, ch: OverrideChanges, now: int)
    requires RowsValid(db) && ApplyOccurrenceOverride(db, id, t, ch, now).Ok?
    requires db.tasks[id].config.None? && ch.isSkipped != Some(true)
    ensures id in ApplyOccurrenceOverride(db, id, t, ch, now).value.tasks
    ensures
      var task, row := db.tasks[id], ApplyOccurrenceOverride(db, id, t, ch, now).value.tasks[id];
      && row.title == (if ch.overrideTitle.Some? && ch.overrideTitle.value.Some? then ch.overrideTitle.value.value
        else task.title)
      && row.startAt == (if ch.overrideStartAt.Some? then ch.overrideStartAt.value else task.startAt)
      && row.endAt == (if ch.overrideEndAt.Some? then ch.overrideEndAt.value else task.endAt)
      && (ch.completedAt.Some? ==> (row.completedAt.Some? <==> ch.completedAt.value.Some?))
      && (ch.completedAt.None? ==> row.completedAt == task.completedAt)
  {
    hide Update;
    UpdatePatches(db, id, CollapsedInput(ch), now);
  }

  // --- override children ------------------------------------------------------------------------

  /** A child takes over each thing that the slot's exception sets; the rest is as it was. */
  lemma AbsorbedTakesOver(child: Task, parent: Task, e: OccurrenceException)
    ensures
      var row := Absorbed(child, parent, e);
      && row.startAt == (if e.overrideStartAt.Some? then e.overrideStartAt else child.startAt)
      && row.title == (if e.overrideTitle.Some? then e.overrideTitle.value else child.title)
      && row.completedAt == (if e.completedAt.Some? then e.completedAt else child.completedAt)
      && (e.overrideEndAt.Some? ==> row.endAt == e.overrideEndAt)
      && (e.overrideEndAt.None? && e.overrideStartAt.Some? && parent.startAt.Some? && parent.endAt.Some? ==>
           row.endAt.Some?
           && row.endAt.value - e.overrideStartAt.value == parent.endAt.value - parent.startAt.value)
      && (e.overrideEndAt.None? && (e.overrideStartAt.None? || parent.startAt.None? || parent.endAt.None?) ==>
           row.endAt == child.endAt)
      && row == child.(startAt := row.startAt, endAt := row.endAt, title := row.title, completedAt := row.completedAt)
  {
  }

  /** What a reader sees of an entry, whichever slot it stands for. */
  datatype Face = Face(start: Option<int>, end: Option<int>, title: string, completedAt: Option<int>)

  function FaceOf(o: Occurrence): Face {
    Face(o.occurrenceStart, o.occurrenceEnd, o.title, o.completedAt)
  }

  /** The slot as its series shows it. */
  function SlotEntry(db: Db, p: Id, t: int): Occurrence
    requires p in db.tasks
  {
    BuildOccurrence(db.tasks[p], ExceptionsOf(db.exceptions, p), t)
  }

  /**
   * A fresh child shows exactly what the slot showed - its moved start, its end, its
   * title and its completion - and stands in the series' calendar, group and zone.
   */
  lemma FirstChildShowsSlot(db: Db, p: Id, t: int, newId: Id)
    requires p in db.tasks
    ensures FaceOf(WrapOneOff(FirstChild(db, p, t, newId))) == FaceOf(SlotEntry(db, p, t))
    ensures
      var child, parent := FirstChild(db, p, t, newId), db.tasks[p];
      && child.id == newId && child.calendarId == parent.calendarId && child.groupId == parent.groupId
      && child.offset == parent.offset && child.config.None? && child.deletedAt == parent.deletedAt
      && child.parentTaskId == Some(parent.id) && child.originalStartAt == Some(t) && child.detachedAt.None?
  {
    SlotOfExceptions(db.exceptions, p, t);
    hide ExceptionsOf;
  }

  /**
   * A first override with a patch: the child shows what the patch names, and for the rest
   * what the slot showed before.
   */
  lemma PatchedOverrideShows(db: Db, p: Id, t: int, patch: UpdateInput, newId: Id, now: int, q: Query, o: Occurrence)
    requires Structure(db) && newId !in db.tasks && !HasChildAt(db, p, t) && ValidRecurrence(patch)
    requires CreateOrUpdateOverride(db, p, t, patch, newId, now).Ok?
    requires InAgenda(CreateOrUpdateOverride(db, p, t, patch, newId, now).value, q, o) && o.taskId == newId
    ensures p in db.tasks && !o.isRecurring
    ensures
      var was := SlotEntry(db, p, t);
      && o.title == (if patch.title.Some? then patch.title.value else was.title)
      && o.occurrenceStart == (if patch.startAt.Some? then patch.startAt.value else was.occurrenceStart)
      && o.occurrenceEnd == (if patch.endAt.Some? then patch.endAt.value else was.occurrenceEnd)
      && o.completedAt == was.completedAt
  {
    var db' := CreateOrUpdateOverride(db, p, t, patch, newId, now).value;
    var parent := db.tasks[p];
    assert parent.id == p;
    var owned := Owned(db, parent, t, ChildRow(parent, newId, t));
    assert owned.tasks[newId] == FirstChild(db, p, t, newId);
    assert db' == Update(owned, newId, patch, now).value;
    CreateOverrideKeeps(db, p, t, patch, newId, now);
    OwnedKeeps(db, parent, t, ChildRow(parent, newId, t));
    hide Structure, InAgenda, CreateOrUpdateOverride, Update, Owned, HasChildAt, EffectivelyGenerates, FirstChild,
      SlotEntry;
    StructuredRows(db');
    StructuredRows(owned);
    UpdatePatches(owned, newId, patch, now);
    FirstChildShowsSlot(db, p, t, newId);
    AgendaContents(db', q, o);
    hide RowsValid, Member;
  }

  /** A slot that has a child already: the request is an edit of that child, and nothing else changes. */
  lemma RepeatedOverrideEdits(db: Db, p: Id, t: int, patch: UpdateInput, newId: Id, now: int)
    requires Structure(db) && IsLive(db, p) && db.tasks[p].parentTaskId.None? && HasChildAt(db, p, t)
    ensures CreateOrUpdateOverride(db, p, t, patch, newId, now) == Update(db, ChildAt(db, p, t), patch, now)
  {
    hide Update;
    var parent, child := db.tasks[p], ChildAt(db, p, t);
    assert parent.id == p && db.tasks[child].id == child && (p, t) !in db.exceptions;
    hide Structure, HasChildAt, ChildAt;
    assert db.tasks[child := db.tasks[child]] == db.tasks;
    assert Owned(db, parent, t, db.tasks[child]) == db;
  }

  // --- the agendas before and after a first override ------------------------------------------------

  ghost predicate SeenIn(db: Db, q: Query, f: Face) {
    exists o :: InAgenda(db, q, o) && FaceOf(o) == f
  }

  /** An entry of the slot that is overridden, before or after. */
  predicate OfSlot(o: Occurrence, p: Id, t: int, newId: Id) {
    o.taskId == newId || (o.taskId == p && o.originalStart == Some(t))
  }

  predicate Unskipped(db: Db, p: Id, t: int) {
    (p, t) in db.exceptions ==> !db.exceptions[(p, t)].isSkipped
  }

  /** Taking away the exception of an unskipped slot leaves the other slots of its series as they were. */
  lemma OtherSlotsStay(task: Task, c: Config, ea: map<int, OccurrenceException>, eb: map<int, OccurrenceException>,
                       t: int, from: int, to: int, o: Occurrence)
    requires forall s :: s != t ==> (s in ea <==> s in eb) && (s in ea ==> ea[s] == eb[s])
    requires !IsSkipped(ea, t) && !IsSkipped(eb, t) && o.originalStart != Some(t)
    ensures o in Expansion(task, c, ea, from, to) <==> o in Expansion(task, c, eb, from, to)
  {
    if task.startAt.Some? {
      var s := SeriesOf(task, c);
      var wa, wb := WantedDays(s, Duration(task), ea, from, to), WantedDays(s, Duration(task), eb, from, to);
      forall x ensures IsSkipped(ea, x) == IsSkipped(eb, x) {}
      hide InSeries, WithinSteps, StartOn, LocalDay, SeedDay, IsSkipped;
      forall d ensures wa(d) == wb(d) {
        assert IsSkipped(ea, StartOn(s, d)) == IsSkipped(eb, StartOn(s, d));
      }
      hide Wanted;
      CountAgrees(wa, wb, SeedDay(s), LocalDay(s.offset, to) + 1);
      var days := FirstN(AnswerDays(s, Duration(task), ea, from, to), MAX_OCCURRENCES_PER_WINDOW);
      hide AnswerDays, List, Count, BuildAll, WantedDays;
      BuiltElsewhere(task, s, ea, eb, days, t, o);
    }
  }

  lemma BuiltElsewhere(task: Task, s: Series, ea: map<int, OccurrenceException>, eb: map<int, OccurrenceException>,
                       days: seq<int>, t: int, o: Occurrence)
    requires forall x :: x != t ==> (x in ea <==> x in eb) && (x in ea ==> ea[x] == eb[x])
    requires o.originalStart != Some(t)
    ensures o in BuildAll(task, s, ea, days) <==> o in BuildAll(task, s, eb, days)
  {
    hide StartOn;
    forall i | 0 <= i < |days|
      ensures BuildAll(task, s, ea, days)[i] == BuildAll(task, s, eb, days)[i] || StartOn(s, days[i]) == t
      ensures StartOn(s, days[i]) == t ==>
        BuildAll(task, s, ea, days)[i].originalStart == Some(t) == BuildAll(task, s, eb, days)[i].originalStart
    {
    }
    if o in BuildAll(task, s, ea, days) {
      var i :| 0 <= i < |days| && BuildAll(task, s, ea, days)[i] == o;
      assert BuildAll(task, s, eb, days)[i] == o;
    }
    if o in BuildAll(task, s, eb, days) {
      var i :| 0 <= i < |days| && BuildAll(task, s, eb, days)[i] == o;
      assert BuildAll(task, s, ea, days)[i] == o;
    }
  }

  /** The store once the slot has a child of its own. */
  ghost function TakenOver(db: Db, p: Id, t: int, newId: Id, now: int): Db
    requires Overridable(db, p, t, newId, now)
  {
    AfterOverride(db, p, t, newId, now).value
  }

  lemma TakenOverTables(db: Db, p: Id, t: int, newId: Id, now: int)
    requires Overridable(db, p, t, newId, now)
    ensures p in db.tasks && newId !in db.tasks && p != newId
    ensures TakenOver(db, p, t, newId, now)
      == Db(db.tasks[newId := FirstChild(db, p, t, newId)], db.exceptions - {(p, t)}, db.groups)
    ensures FirstChild(db, p, t, newId).parentTaskId == Some(p)
    ensures FirstChild(db, p, t, newId).originalStartAt == Some(t)
  {
    OverriddenTables(db, p, t, newId, now);
  }

  /** The effective rule of an overridable slot generates it, within the engine's reach. */
  lemma OverridableSlot(db: Db, p: Id, t: int, newId: Id, now: int)
    requires Overridable(db, p, t, newId, now)
    ensures IsLive(db, p) && db.tasks[p].id == p && db.tasks[p].parentTaskId.None? && db.tasks[p].startAt.Some?
    ensures
      var c := EffectiveConfig(db.groups, db.tasks[p]);
      c.Some? && Slot(SeriesOf(db.tasks[p], c.value), t)
  {
    hide TakenOver, IsGenerated, Member, WithinSteps;
    OverridableParent(db, p, t, newId, now);
    ProbeSeesSlot(db.groups, db.tasks[p], t);
  }

  /** Suppression after the override: as before, and of the slot itself when it starts in the window. */
  lemma SuppressionAfterOverride(db: Db, p: Id, t: int, newId: Id, now: int, q: Query, k: Id, s: int)
    requires Overridable(db, p, t, newId, now)
    ensures
      var db' := TakenOver(db, p, t, newId, now);
      var child := FirstChild(db, p, t, newId);
      Suppressed(db', q.calendars, q.from, q.to, k, s) <==>
        Suppressed(db, q.calendars, q.from, q.to, k, s)
        || (k == p && s == t && q.from <= t < q.to && child.calendarId in q.calendars)
    ensures !Suppressed(db, q.calendars, q.from, q.to, newId, s)
    ensures p != newId
  {
    hide TakenOver, Overridable, Structure, FirstChild, SlotEntry, EffectivelyGenerates, FaceOf, HasChildAt;
    TakenOverTables(db, p, t, newId, now);
    FirstChildShowsSlot(db, p, t, newId);
    OverridableParent(db, p, t, newId, now);
    NewIdHasNoChild(db, p, t, newId, now, s);
    hide RowsValid;
    var db' := TakenOver(db, p, t, newId, now);
    forall j: Id ensures IsChildAt(db', j, k, s) <==> IsChildAt(db, j, k, s) || (j == newId && k == p && s == t) {
    }
    assert db'.tasks[newId].calendarId == FirstChild(db, p, t, newId).calendarId;
    hide IsChildAt;
  }

  lemma NewIdHasNoChild(db: Db, p: Id, t: int, newId: Id, now: int, s: int)
    requires Overridable(db, p, t, newId, now)
    ensures forall j: Id :: !IsChildAt(db, j, newId, s)
  {
    hide AfterOverride;
    forall j: Id ensures !IsChildAt(db, j, newId, s) {
      assert j in db.tasks ==> LinkValid(db, db.tasks[j]);
    }
  }

  /** The exceptions of the series after the override: all but the slot's. */
  lemma ExceptionsAfterOverride(db: Db, p: Id, t: int, k: Id)
    ensures
      var ea, eb := ExceptionsOf(db.exceptions, k), ExceptionsOf(db.exceptions - {(p, t)}, k);
      && (k != p ==> eb == ea)
      && (forall s :: k == p && s != t ==> (s in ea <==> s in eb) && (s in ea ==> ea[s] == eb[s]))
      && (k == p ==> t !in eb)
  {
    var ea, eb := ExceptionsOf(db.exceptions, k), ExceptionsOf(db.exceptions - {(p, t)}, k);
    forall s
      ensures (s in eb <==> (k, s) in db.exceptions && (k, s) != (p, t)) && (s in eb ==> eb[s] == db.exceptions[(k, s)])
    {
    }
  }

  /** When a recurring row's occurrence is on the agenda. */
  lemma RecurringEntry(db: Db, q: Query, o: Occurrence)
    requires RowsValid(db) && o.taskId in db.tasks && o.originalStart.Some?
    requires db.tasks[o.taskId].startAt.Some? && EffectiveConfig(db.groups, db.tasks[o.taskId]).Some?
    ensures
      var row := db.tasks[o.taskId];
      InAgenda(db, q, o) <==>
        && o in Expansion(row, EffectiveConfig(db.groups, row).value, ExceptionsOf(db.exceptions, o.taskId), q.from,
          q.to)
        && InScope(q, row) && !Suppressed(db, q.calendars, q.from, q.to, o.taskId, o.originalStart.value)
        && (q.includeCompleted || o.completedAt.None?)
  {
    assert db.tasks[o.taskId].id == o.taskId;
    hide RowsValid, Expansion, Suppressed, ExceptionsOf, InScope;
  }

  /** Every entry but those of the slot is on the agenda exactly when it was. */
  lemma OthersShowAlike(db: Db, p: Id, t: int, newId: Id, now: int, q: Query, o: Occurrence)
    requires Overridable(db, p, t, newId, now) && Unskipped(db, p, t) && !OfSlot(o, p, t, newId)
    ensures InAgenda(TakenOver(db, p, t, newId, now), q, o) <==> InAgenda(db, q, o)
  {
    hide TakenOver, Overridable, Structure, FirstChild, EffectivelyGenerates, HasChildAt, InAgenda, Slot;
    TakenOverTables(db, p, t, newId, now);
    OverridableParent(db, p, t, newId, now);
    if o.taskId !in db.tasks {
      AbsentRowShowsNothing(db, q, o);
      AbsentRowShowsNothing(TakenOver(db, p, t, newId, now), q, o);
    } else if o.taskId == p {
      OtherSlotsShowAlike(db, p, t, newId, now, q, o);
    } else {
      OtherTasksShowAlike(db, p, t, newId, now, q, o);
    }
  }

  lemma OtherSlotsShowAlike(db: Db, p: Id, t: int, newId: Id, now: int, q: Query, o: Occurrence)
    requires Overridable(db, p, t, newId, now) && Unskipped(db, p, t) && o.taskId == p && o.originalStart != Some(t)
    ensures InAgenda(TakenOver(db, p, t, newId, now), q, o) <==> InAgenda(db, q, o)
  {
    hide TakenOver, Overridable, Structure, FirstChild, EffectivelyGenerates, HasChildAt, InAgenda, Slot, Expansion,
      EffectiveConfig, Suppressed, InScope, ExceptionsOf;
    TakenOverTables(db, p, t, newId, now);
    OverridableParent(db, p, t, newId, now);
    OverridableSlot(db, p, t, newId, now);
    var db' := TakenOver(db, p, t, newId, now);
    AfterOverrideIsSound(db, p, t, newId, now);
    var row, ea, eb := db.tasks[p], ExceptionsOf(db.exceptions, p), ExceptionsOf(db'.exceptions, p);
    assert db'.tasks[p] == row && db'.groups == db.groups;
    SlotOfExceptions(db.exceptions, p, t);
    ExceptionsAfterOverride(db, p, t, p);
    OtherSlotsStay(row, EffectiveConfig(db.groups, row).value, ea, eb, t, q.from, q.to, o);
    if o.originalStart.Some? {
      SuppressionAfterOverride(db, p, t, newId, now, q, p, o.originalStart.value);
      RecurringEntry(db, q, o);
      RecurringEntry(db', q, o);
    } else {
      SlotlessRecursNot(db, q, o);
      SlotlessRecursNot(db', q, o);
    }
  }

  /** A recurring row shows nothing without an original start. */
  lemma SlotlessRecursNot(db: Db, q: Query, o: Occurrence)
    requires RowsValid(db) && o.taskId in db.tasks && o.originalStart.None?
    requires db.tasks[o.taskId].startAt.Some?
    ensures !InAgenda(db, q, o)
  {
    if InAgenda(db, q, o) {
      AgendaContents(db, q, o);
    }
  }

  lemma AfterOverrideIsSound(db: Db, p: Id, t: int, newId: Id, now: int)
    requires Overridable(db, p, t, newId, now)
    ensures RowsValid(TakenOver(db, p, t, newId, now))
  {
    CreateOverrideKeeps(db, p, t, NO_PATCH, newId, now);
  }

  lemma OtherTasksShowAlike(db: Db, p: Id, t: int, newId: Id, now: int, q: Query, o: Occurrence)
    requires Overridable(db, p, t, newId, now) && o.taskId in db.tasks && o.taskId != p
    ensures InAgenda(TakenOver(db, p, t, newId, now), q, o) <==> InAgenda(db, q, o)
  {
    hide TakenOver, Overridable, Structure, FirstChild, EffectivelyGenerates, HasChildAt, Slot, EffectiveConfig,
      Expansion, Suppressed, InScope, ExceptionsOf, FeedsOneOff, FeedsTodo, RowMeetsWindow;
    TakenOverTables(db, p, t, newId, now);
    OverridableParent(db, p, t, newId, now);
    var db' := TakenOver(db, p, t, newId, now);
    RowHasItsKey(db, o.taskId);
    hide RowsValid;
    ExceptionsAfterOverride(db, p, t, o.taskId);
    assert newId != o.taskId && db'.tasks[o.taskId] == db.tasks[o.taskId] && db'.groups == db.groups;
    if o.originalStart.Some? {
      SuppressionAfterOverride(db, p, t, newId, now, q, o.taskId, o.originalStart.value);
    }
  }

  /** The entry of the new child. */
  lemma ChildShows(db: Db, p: Id, t: int, newId: Id, now: int, q: Query, o: Occurrence)
    requires Overridable(db, p, t, newId, now) && o.taskId == newId
    ensures !InAgenda(db, q, o)
    ensures
      var child := FirstChild(db, p, t, newId);
      InAgenda(TakenOver(db, p, t, newId, now), q, o) <==>
        && o == WrapOneOff(child) && InScope(q, db.tasks[p]) && RowMeetsWindow(child, q.from, q.to)
        && (q.includeCompleted || child.completedAt.None?)
  {
    TakenOverTables(db, p, t, newId, now);
    FirstChildShowsSlot(db, p, t, newId);
    var child := FirstChild(db, p, t, newId);
    assert child.startAt.Some? by { ChildHasStart(db, p, t, newId); }
    SuppressionAfterOverride(db, p, t, newId, now, q, newId, child.startAt.value);
    hide TakenOver, Overridable, Structure, FirstChild, SlotEntry, EffectivelyGenerates, FaceOf, Recurrences,
      Suppressed;
  }

  lemma ChildHasStart(db: Db, p: Id, t: int, newId: Id)
    requires p in db.tasks
    ensures FirstChild(db, p, t, newId).startAt.Some?
  {
  }

  /** The slot is listed by its series exactly when it meets the window, unless the cap cuts the read. */
  lemma SlotIsListed(db: Db, p: Id, t: int, newId: Id, now: int, exceptions: map<int, OccurrenceException>,
                     from: int, to: int, o: Occurrence)
    requires Overridable(db, p, t, newId, now) && !IsSkipped(exceptions, t) && o.originalStart == Some(t)
    ensures IsLive(db, p) && db.tasks[p].startAt.Some? && EffectiveConfig(db.groups, db.tasks[p]).Some?
    ensures
      var row, c := db.tasks[p], EffectiveConfig(db.groups, db.tasks[p]).value;
      && (o in Expansion(row, c, exceptions, from, to) ==>
           o == BuildOccurrence(row, exceptions, t) && MeetsWindow(Duration(row), t, from, to))
      && (Uncapped(row, c, exceptions, from, to) && MeetsWindow(Duration(row), t, from, to) ==>
           BuildOccurrence(row, exceptions, t) in Expansion(row, c, exceptions, from, to))
  {
    OverridableSlot(db, p, t, newId, now);
    hide Overridable, TakenOver, Expansion, BuildOccurrence, InSeries, WithinSteps, Uncapped, EffectiveConfig;
    var row, c := db.tasks[p], EffectiveConfig(db.groups, db.tasks[p]).value;
    if o in Expansion(row, c, exceptions, from, to) {
      hide StartOn;
      RecurrenceIsNamed(row, c, exceptions, from, to, o);
    }
    if Uncapped(row, c, exceptions, from, to) && MeetsWindow(Duration(row), t, from, to) {
      UncappedMembers(row, c, exceptions, from, to, BuildOccurrence(row, exceptions, t));
      assert Wanted(SeriesOf(row, c), Duration(row), exceptions, from, to, LocalDay(row.offset, t));
    }
  }

  /** The entry of the slot while its series shows it. */
  lemma SlotShows(db: Db, p: Id, t: int, newId: Id, now: int, q: Query, o: Occurrence)
    requires Overridable(db, p, t, newId, now) && Unskipped(db, p, t)
    requires o.taskId == p && o.originalStart == Some(t)
    ensures IsLive(db, p) && db.tasks[p].startAt.Some? && EffectiveConfig(db.groups, db.tasks[p]).Some?
    ensures InAgenda(db, q, o) ==>
      && o == SlotEntry(db, p, t) && InScope(q, db.tasks[p]) && MeetsWindow(Duration(db.tasks[p]), t, q.from, q.to)
      && (q.includeCompleted || o.completedAt.None?)
    ensures
      Uncapped(db.tasks[p], EffectiveConfig(db.groups, db.tasks[p]).value, ExceptionsOf(db.exceptions, p), q.from, q.to)
      && o == SlotEntry(db, p, t) && InScope(q, db.tasks[p]) && MeetsWindow(Duration(db.tasks[p]), t, q.from, q.to)
      && (q.includeCompleted || o.completedAt.None?)
      ==> InAgenda(db, q, o)
  {
    hide TakenOver, Overridable, Structure, EffectivelyGenerates, InAgenda, Slot, Expansion, EffectiveConfig,
      Suppressed, InScope, BuildOccurrence, Uncapped, ExceptionsOf, MeetsWindow, HasChildAt;
    OverridableParent(db, p, t, newId, now);
    OverridableSlot(db, p, t, newId, now);
    NoChildNoSuppression(db, q, p, t);
    SlotOfExceptions(db.exceptions, p, t);
    SlotIsListed(db, p, t, newId, now, ExceptionsOf(db.exceptions, p), q.from, q.to, o);
    RecurringEntry(db, q, o);
  }

  /**
   * What is left of the slot's own entry after the override: as a slot without exception,
   * if it began before the window.
   */
  lemma SlotAfterOverride(db: Db, p: Id, t: int, newId: Id, now: int, q: Query, o: Occurrence)
    requires Overridable(db, p, t, newId, now) && o.taskId == p && o.originalStart == Some(t)
    requires InAgenda(TakenOver(db, p, t, newId, now), q, o)
    ensures t < q.from && p in db.tasks && db.tasks[p].startAt.Some? && EffectiveConfig(db.groups, db.tasks[p]).Some?
    ensures o == BuildOccurrence(db.tasks[p], map[], t) && InScope(q, db.tasks[p])
    ensures MeetsWindow(Duration(db.tasks[p]), t, q.from, q.to) && (q.includeCompleted || o.completedAt.None?)
  {
    hide TakenOver, Overridable, Structure, EffectivelyGenerates, InAgenda, Slot, Expansion, EffectiveConfig,
      Suppressed, BuildOccurrence, Uncapped, ExceptionsOf, HasChildAt, FirstChild, SlotEntry, FaceOf;
    var db' := TakenOver(db, p, t, newId, now);
    TakenOverTables(db, p, t, newId, now);
    OverridableParent(db, p, t, newId, now);
    OverridableSlot(db, p, t, newId, now);
    AfterOverrideIsSound(db, p, t, newId, now);
    FirstChildShowsSlot(db, p, t, newId);
    SuppressionAfterOverride(db, p, t, newId, now, q, p, t);
    ExceptionsAfterOverride(db, p, t, p);
    var exceptions := ExceptionsOf(db'.exceptions, p);
    SlotIsListed(db, p, t, newId, now, exceptions, q.from, q.to, o);
    BareSlot(db.tasks[p], exceptions, t);
    RecurringEntry(db', q, o);
  }

  lemma BareSlot(task: Task, exceptions: map<int, OccurrenceException>, t: int)
    requires t !in exceptions
    ensures BuildOccurrence(task, exceptions, t) == BuildOccurrence(task, map[], t) && !IsSkipped(exceptions, t)
  {
  }

  /**
   * The read shows the child when it shows the slot: no cap cuts it, the child's row
   * meets the window exactly when the slot does, and there is no exception whose slot
   * began before the window.
   */
  ghost predicate ReadsAlike(db: Db, p: Id, t: int, newId: Id, q: Query) {
    && p in db.tasks && db.tasks[p].startAt.Some? && EffectiveConfig(db.groups, db.tasks[p]).Some?
    && Uncapped(db.tasks[p], EffectiveConfig(db.groups, db.tasks[p]).value, ExceptionsOf(db.exceptions, p), q.from,
      q.to)
    && (RowMeetsWindow(FirstChild(db, p, t, newId), q.from, q.to)
      <==> MeetsWindow(Duration(db.tasks[p]), t, q.from, q.to))
    && (q.from <= t || (p, t) !in db.exceptions)
  }

  lemma SlotEntryIsNamed(db: Db, p: Id, t: int)
    requires p in db.tasks && db.tasks[p].id == p
    ensures SlotEntry(db, p, t).taskId == p && SlotEntry(db, p, t).originalStart == Some(t)
    ensures (p, t) !in db.exceptions ==> SlotEntry(db, p, t) == BuildOccurrence(db.tasks[p], map[], t)
  {
    SlotOfExceptions(db.exceptions, p, t);
    hide ExceptionsOf;
  }

  lemma SlotIsShownByChild(db: Db, p: Id, t: int, newId: Id, now: int, q: Query, o: Occurrence)
    requires Overridable(db, p, t, newId, now) && Unskipped(db, p, t) && ReadsAlike(db, p, t, newId, q)
    requires InAgenda(db, q, o)
    ensures SeenIn(TakenOver(db, p, t, newId, now), q, FaceOf(o))
  {
    hide Overridable, TakenOver, FirstChild, SlotEntry, InAgenda, InScope, MeetsWindow, RowMeetsWindow, Uncapped,
      EffectiveConfig, ExceptionsOf, Unskipped;
    if !OfSlot(o, p, t, newId) {
      OthersShowAlike(db, p, t, newId, now, q, o);
    } else if o.taskId == newId {
      ChildShows(db, p, t, newId, now, q, o);
    } else {
      var child := WrapOneOff(FirstChild(db, p, t, newId));
      FirstChildShowsSlot(db, p, t, newId);
      SlotShows(db, p, t, newId, now, q, o);
      ChildShows(db, p, t, newId, now, q, child);
      assert InAgenda(TakenOver(db, p, t, newId, now), q, child) && FaceOf(child) == FaceOf(o);
    }
  }

  lemma ChildShowsTheSlot(db: Db, p: Id, t: int, newId: Id, now: int, q: Query, o: Occurrence)
    requires Overridable(db, p, t, newId, now) && Unskipped(db, p, t) && ReadsAlike(db, p, t, newId, q)
    requires InAgenda(TakenOver(db, p, t, newId, now), q, o)
    ensures SeenIn(db, q, FaceOf(o))
  {
    OverridableParent(db, p, t, newId, now);
    hide Overridable, TakenOver, FirstChild, SlotEntry, InAgenda, InScope, MeetsWindow, RowMeetsWindow, Uncapped,
      EffectiveConfig, ExceptionsOf, Unskipped, BuildOccurrence, RowsValid, EffectivelyGenerates, HasChildAt;
    if !OfSlot(o, p, t, newId) {
      OthersShowAlike(db, p, t, newId, now, q, o);
    } else {
      var slot := SlotEntry(db, p, t);
      SlotEntryIsNamed(db, p, t);
      SlotShows(db, p, t, newId, now, q, slot);
      if o.taskId == newId {
        FirstChildShowsSlot(db, p, t, newId);
        ChildShows(db, p, t, newId, now, q, o);
      } else {
        SlotAfterOverride(db, p, t, newId, now, q, o);
      }
      assert InAgenda(db, q, slot) && FaceOf(slot) == FaceOf(o);
    }
  }

  /**
   * Overriding a slot without a patch leaves every agenda showing the same starts, ends,
   * titles and completions as before.
   */
  lemma OverrideKeepsAgenda(db: Db, p: Id, t: int, newId: Id, now: int, q: Query)
    requires Overridable(db, p, t, newId, now) && Unskipped(db, p, t) && ReadsAlike(db, p, t, newId, q)
    ensures forall f :: SeenIn(TakenOver(db, p, t, newId, now), q, f) <==> SeenIn(db, q, f)
  {
    hide Overridable, TakenOver, InAgenda, ReadsAlike, Unskipped, FaceOf;
    forall f ensures SeenIn(TakenOver(db, p, t, newId, now), q, f) <==> SeenIn(db, q, f) {
      if o :| InAgenda(db, q, o) && FaceOf(o) == f {
        SlotIsShownByChild(db, p, t, newId, now, q, o);
      }
      if o :| InAgenda(TakenOver(db, p, t, newId, now), q, o) && FaceOf(o) == f {
        ChildShowsTheSlot(db, p, t, newId, now, q, o);
      }
    }
  }

  /**
   * For a slot that is not moved, the child meets a window exactly when the slot does,
   * but for an end-less one at its lower bound.
   */
  lemma UnmovedMeetsAlike(db: Db, p: Id, t: int, newId: Id, from: int, to: int)
    requires p in db.tasks
    requires (p, t) in db.exceptions ==>
      db.exceptions[(p, t)].overrideStartAt.None? && db.exceptions[(p, t)].overrideEndAt.None?
    ensures
      (RowMeetsWindow(FirstChild(db, p, t, newId), from, to) <==> MeetsWindow(Duration(db.tasks[p]), t, from, to))
      <==> !(Duration(db.tasks[p]).None? && t == from < to)
  {
  }
}
