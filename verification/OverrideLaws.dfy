/**
 * What creating, reverting and removing an override does to every agenda: a
 * revert undoes a creation exactly when the slot had nothing else to lose, and a
 * removed slot stays gone until it is overridden or un-skipped again.
 */
module OverrideLaws {
  import opened Wrappers
  import opened Ranges
  import opened RecurrenceRule
  import opened TaskRows
  import opened Series
  import opened SeriesLaws
  import opened TaskStore
  import opened TaskInvariants
  import opened Agenda

  // --- override, then revert ------------------------------------------------------

  /** The slot has no exception, or one that records a completion and nothing else. */
  predicate CompletionOnly(db: Db, p: Id, t: int) {
    (p, t) in db.exceptions ==>
      db.exceptions[(p, t)] == BLANK_EXCEPTION.(completedAt := db.exceptions[(p, t)].completedAt)
      && db.exceptions[(p, t)].completedAt.Some?
  }

  /** The slot has no exception, or a completed one whose overrides change nothing. */
  predicate NothingToLose(db: Db, p: Id, t: int)
    requires p in db.tasks
  {
    (p, t) in db.exceptions ==>
      var parent, e := db.tasks[p], db.exceptions[(p, t)];
      && !e.isSkipped && e.completedAt.Some?
      && e.overrideStartAt.Or(t) == t
      && (e.overrideEndAt.Some? ==> Duration(parent) == Some(e.overrideEndAt.value - t))
      && e.overrideTitle.Or(parent.title) == parent.title
  }

  ghost function AfterOverride(db: Db, p: Id, t: int, newId: Id, now: int): Result<Db, Error> {
    CreateOrUpdateOverride(db, p, t, NO_PATCH, newId, now)
  }

  /** An override without a patch of its own, on a slot that has no child yet. */
  ghost predicate Overridable(db: Db, p: Id, t: int, newId: Id, now: int) {
    && Structure(db) && newId !in db.tasks && !HasChildAt(db, p, t)
    && AfterOverride(db, p, t, newId, now).Ok?
  }

  ghost function Reverted(db: Db, p: Id, t: int, newId: Id, now: int, later: int): Db
    requires Overridable(db, p, t, newId, now)
  {
    OverriddenTables(db, p, t, newId, now);
    Remove(AfterOverride(db, p, t, newId, now).value, newId, RevertSlot, later).value
  }

  function FirstChild(db: Db, p: Id, t: int, newId: Id): Task
    requires p in db.tasks
  {
    var parent := db.tasks[p];
    if (p, t) in db.exceptions then Absorbed(ChildRow(parent, newId, t), parent, db.exceptions[(p, t)])
      else ChildRow(parent, newId, t)
  }

  lemma NoPatchIsIdentity(db: Db, id: Id, now: int)
    requires id in db.tasks && Update(db, id, NO_PATCH, now).Ok? && db.tasks[id].parentTaskId.Some?
    ensures Update(db, id, NO_PATCH, now).value == db
  {
    hide Swept;
    assert PatchedRow(db.tasks[id], NO_PATCH) == db.tasks[id];
    assert db.tasks[id := db.tasks[id]] == db.tasks;
  }

  /** An empty patch leaves the parent's snapshot with the old exception folded in. */
  lemma OverriddenTables(db: Db, p: Id, t: int, newId: Id, now: int)
    requires Overridable(db, p, t, newId, now)
    ensures
      var db' := AfterOverride(db, p, t, newId, now).value;
      && IsLive(db, p) && db.tasks[p].parentTaskId.None?
      && EffectivelyGenerates(db.tasks[p], EffectiveConfig(db.groups, db.tasks[p]), t)
      && db' == Db(db.tasks[newId := FirstChild(db, p, t, newId)], db.exceptions - {(p, t)}, db.groups)
      && Remove(db', newId, RevertSlot, now).Ok?
      && FirstChild(db, p, t, newId).parentTaskId == Some(p) && FirstChild(db, p, t, newId).originalStartAt == Some(t)
  {
    hide EffectivelyGenerates, EffectiveConfig, Update, HasChildAt;
    var parent := db.tasks[p];
    assert parent.id == p;
    var owned := Owned(db, parent, t, ChildRow(parent, newId, t));
    assert owned.tasks[newId] == FirstChild(db, p, t, newId);
    hide Structure;
    NoPatchIsIdentity(owned, newId, now);
  }

  /** What a revert leaves: the child's tombstone, and at most a completion on the slot. */
  lemma RevertedTables(db: Db, p: Id, t: int, newId: Id, now: int, later: int)
    requires Overridable(db, p, t, newId, now)
    ensures
      var db' := Reverted(db, p, t, newId, now, later);
      var done := FirstChild(db, p, t, newId).completedAt;
      && db'.groups == db.groups
      && db'.tasks == db.tasks[newId := FirstChild(db, p, t, newId).(deletedAt := Some(later))]
      && db'.exceptions == (if done.None? then db.exceptions - {(p, t)}
                            else db.exceptions[(p, t) := BLANK_EXCEPTION.(completedAt := done)])
      && done == (if (p, t) in db.exceptions then db.exceptions[(p, t)].completedAt else None)
  {
    OverridableParent(db, p, t, newId, now);
    hide AfterOverride, Overridable, Structure, HasChildAt, FirstChild, Remove, EffectivelyGenerates, EffectiveConfig;
    OverriddenTables(db, p, t, newId, now);
    var child := FirstChild(db, p, t, newId);
    FirstChildDone(db, p, t, newId);
    var overridden := AfterOverride(db, p, t, newId, now).value;
    RevertOfChild(overridden, newId, p, t, later);
    assert db.tasks[newId := child][newId := child.(deletedAt := Some(later))]
      == db.tasks[newId := child.(deletedAt := Some(later))];
    var done := BLANK_EXCEPTION.(completedAt := child.completedAt);
    assert (db.exceptions - {(p, t)})[(p, t) := done] == db.exceptions[(p, t) := done];
  }

  lemma FirstChildDone(db: Db, p: Id, t: int, newId: Id)
    requires p in db.tasks
    ensures FirstChild(db, p, t, newId).completedAt == if (p, t) in db.exceptions then db.exceptions[(p, t)].completedAt
      else None
    ensures FirstChild(db, p, t, newId).deletedAt == db.tasks[p].deletedAt
  {
  }

  /** Reverting the child of a slot without an exception: its tombstone, and its completion if it has one. */
  lemma RevertOfChild(db: Db, id: Id, p: Id, t: int, now: int)
    requires IsChildAt(db, id, p, t) && (p, t) !in db.exceptions
    ensures
      var child := db.tasks[id];
      Remove(db, id, RevertSlot, now) == Ok(Db(
        db.tasks[id := child.(deletedAt := Some(now))],
        if child.completedAt.None? then db.exceptions
          else db.exceptions[(p, t) := BLANK_EXCEPTION.(completedAt := child.completedAt)],
        db.groups))
  {
  }

  /** A tombstone of a fresh row shows on no agenda and suppresses nothing. */
  lemma TombstoneIsInvisible(db: Db, row: Task, q: Query, o: Occurrence)
    requires row.id !in db.tasks && row.deletedAt.Some?
    ensures InAgenda(db.(tasks := db.tasks[row.id := row]), q, o) <==> InAgenda(db, q, o)
  {
    hide Recurrences, FeedsOneOff, FeedsTodo, RowMeetsWindow;
    var db' := db.(tasks := db.tasks[row.id := row]);
    forall p: Id, t: int
      ensures Suppressed(db', q.calendars, q.from, q.to, p, t) <==> Suppressed(db, q.calendars, q.from, q.to, p, t)
    {
      forall id: Id ensures IsChildAt(db', id, p, t) <==> IsChildAt(db, id, p, t) {}
    }
    hide Suppressed;
    if o.taskId in db.tasks {
      SameRecurrences(db, db', db.tasks[o.taskId], q.from, q.to);
    }
  }

  lemma SameRecurrences(db: Db, db': Db, row: Task, from: int, to: int)
    requires db.exceptions == db'.exceptions && db.groups == db'.groups
    ensures Recurrences(db, row, from, to) == Recurrences(db', row, from, to)
  {
  }

  /** The query that shows exactly what stands at one instant of one calendar. */
  function Spotlight(calendar: Id, t: int): Query {
    Query({calendar}, t - 1, t + 1, None, true, false)
  }

  /** Exceptions that skip the same slots and build the same occurrences give the same expansion. */
  lemma SameEffectSameExpansion(task: Task, c: Config, ea: map<int, OccurrenceException>,
                                eb: map<int, OccurrenceException>, from: int, to: int)
    requires forall t ::
      IsSkipped(ea, t) == IsSkipped(eb, t) && BuildOccurrence(task, ea, t) == BuildOccurrence(task, eb, t)
    ensures Expansion(task, c, ea, from, to) == Expansion(task, c, eb, from, to)
  {
    if task.startAt.Some? {
      var s := SeriesOf(task, c);
      var wa, wb := WantedDays(s, Duration(task), ea, from, to), WantedDays(s, Duration(task), eb, from, to);
      hide IsSkipped, BuildOccurrence, StartOn, InSeries, WithinSteps, LocalDay, SeedDay;
      forall d ensures wa(d) == wb(d) {
        assert IsSkipped(ea, StartOn(s, d)) == IsSkipped(eb, StartOn(s, d));
      }
      hide Wanted;
      CountAgrees(wa, wb, SeedDay(s), LocalDay(s.offset, to) + 1);
    }
  }

  /** With the rows unchanged, an agenda only depends on what each row's rule yields. */
  lemma AgendaFollowsRecurrences(db: Db, db': Db, q: Query, o: Occurrence)
    requires db'.tasks == db.tasks && db'.groups == db.groups
    requires o.taskId in db.tasks ==>
      Recurrences(db', db.tasks[o.taskId], q.from, q.to) == Recurrences(db, db.tasks[o.taskId], q.from, q.to)
    ensures InAgenda(db', q, o) <==> InAgenda(db, q, o)
  {
    hide Recurrences, FeedsOneOff, FeedsTodo, RowMeetsWindow;
    forall id: Id, p: Id, t: int ensures IsChildAt(db', id, p, t) <==> IsChildAt(db, id, p, t) {}
  }

  function Blanked(db: Db, p: Id, t: int): Db
    requires (p, t) in db.exceptions
  {
    db.(exceptions := db.exceptions[(p, t) := BLANK_EXCEPTION.(completedAt := db.exceptions[(p, t)].completedAt)])
  }

  lemma BlankedSlotEffect(db: Db, p: Id, t: int, row: Task, x: int)
    requires p in db.tasks && NothingToLose(db, p, t) && (p, t) in db.exceptions && (row.id == p ==> row == db.tasks[p])
    ensures
      var ea, eb := ExceptionsOf(db.exceptions, row.id), ExceptionsOf(Blanked(db, p, t).exceptions, row.id);
      IsSkipped(ea, x) == IsSkipped(eb, x) && BuildOccurrence(row, ea, x) == BuildOccurrence(row, eb, x)
  {
    var ea, eb := ExceptionsOf(db.exceptions, row.id), ExceptionsOf(Blanked(db, p, t).exceptions, row.id);
    SlotOfExceptions(db.exceptions, row.id, x);
    SlotOfExceptions(Blanked(db, p, t).exceptions, row.id, x);
    if row.id == p && x == t {
      var e := db.exceptions[(p, t)];
      assert !e.isSkipped && e.overrideStartAt.Or(t) == t && e.overrideTitle.Or(row.title) == row.title;
      assert e.overrideEndAt.Some? ==> Duration(row) == Some(e.overrideEndAt.value - t);
      hide ExceptionsOf, IsSkipped, BuildOccurrence;
      BlankBuildsAlike(row, ea, eb, t, e);
    } else {
      hide ExceptionsOf, IsSkipped, BuildOccurrence;
      SameEntryBuildsAlike(row, ea, eb, x);
    }
  }

  lemma SameEntryBuildsAlike(row: Task, ea: map<int, OccurrenceException>, eb: map<int, OccurrenceException>, x: int)
    requires (x in ea <==> x in eb) && (x in ea ==> ea[x] == eb[x])
    ensures IsSkipped(ea, x) == IsSkipped(eb, x) && BuildOccurrence(row, ea, x) == BuildOccurrence(row, eb, x)
  {
  }

  /** An exception that overrides nothing builds the occurrence that its completion alone does. */
  lemma BlankBuildsAlike(row: Task, ea: map<int, OccurrenceException>, eb: map<int, OccurrenceException>, t: int,
                         e: OccurrenceException)
    requires t in ea && ea[t] == e && t in eb && eb[t] == BLANK_EXCEPTION.(completedAt := e.completedAt)
    requires !e.isSkipped && e.overrideStartAt.Or(t) == t && e.overrideTitle.Or(row.title) == row.title
    requires e.overrideEndAt.Some? ==> Duration(row) == Some(e.overrideEndAt.value - t)
    ensures IsSkipped(ea, t) == IsSkipped(eb, t) && BuildOccurrence(row, ea, t) == BuildOccurrence(row, eb, t)
  {
  }

  lemma SlotOfExceptions(exceptions: map<(Id, int), OccurrenceException>, id: Id, x: int)
    ensures x in ExceptionsOf(exceptions, id) <==> (id, x) in exceptions
    ensures (id, x) in exceptions ==> ExceptionsOf(exceptions, id)[x] == exceptions[(id, x)]
  {
  }

  /** Changing slot `(p, t)` to a mere completion is invisible when there was nothing to lose. */
  lemma BlankedSlotLooksTheSame(db: Db, p: Id, t: int, q: Query, o: Occurrence)
    requires RowsValid(db) && p in db.tasks && NothingToLose(db, p, t) && (p, t) in db.exceptions
    ensures InAgenda(Blanked(db, p, t), q, o) <==> InAgenda(db, q, o)
  {
    var db' := Blanked(db, p, t);
    hide InAgenda;
    if o.taskId in db.tasks {
      var row := db.tasks[o.taskId];
      hide IsSkipped, BuildOccurrence, NothingToLose, Expansion, Blanked, ExceptionsOf, EffectiveConfig;
      var ea, eb := ExceptionsOf(db.exceptions, row.id), ExceptionsOf(db'.exceptions, row.id);
      forall x
        ensures IsSkipped(ea, x) == IsSkipped(eb, x) && BuildOccurrence(row, ea, x) == BuildOccurrence(row, eb, x)
      {
        BlankedSlotEffect(db, p, t, row, x);
      }
      var c := EffectiveConfig(db.groups, row);
      if c.Some? {
        SameEffectSameExpansion(row, c.value, ea, eb, q.from, q.to);
      }
    }
    AgendaFollowsRecurrences(db, db', q, o);
  }

  /**
   * Override round trip: creating an override without a patch and then reverting it
   * restores every agenda if and only if the slot had no exception before, or a
   * completed one that overrode nothing; it restores the exception itself if and only
   * if that held a completion alone.
   */
  lemma RevertUndoesOverride(db: Db, p: Id, t: int, newId: Id, now: int, later: int)
    requires Overridable(db, p, t, newId, now)
    ensures Reverted(db, p, t, newId, now, later).exceptions == db.exceptions <==> CompletionOnly(db, p, t)
    ensures IsLive(db, p)
    ensures
      (forall q, o :: InAgenda(Reverted(db, p, t, newId, now, later), q, o) <==> InAgenda(db, q, o))
      <==> NothingToLose(db, p, t)
  {
    RevertedTables(db, p, t, newId, now, later);
    OverridableParent(db, p, t, newId, now);
    hide Overridable, AfterOverride, Reverted, InAgenda, HasChildAt, EffectivelyGenerates, NothingToLose;
    var db' := Reverted(db, p, t, newId, now, later);
    var grave := FirstChild(db, p, t, newId).(deletedAt := Some(later));
    assert grave.id == newId by { FirstChildId(db, p, t, newId); }
    var bare := db.(exceptions := db'.exceptions);
    assert db' == bare.(tasks := bare.tasks[newId := grave]);
    RestoredExceptions(db, p, t, db'.exceptions);
    hide FirstChild, CompletionOnly;
    if NothingToLose(db, p, t) {
      forall q, o ensures InAgenda(db', q, o) <==> InAgenda(db, q, o) {
        TombstoneIsInvisible(bare, grave, q, o);
        AgendaAfterRevert(db, p, t, db'.exceptions, q, o);
      }
    } else {
      RevertBlanksSlot(db, p, t, newId, now, later);
    }
  }

  /** When there was something to lose, the slot looks as its completion alone leaves it, which it did not before. */
  lemma RevertBlanksSlot(db: Db, p: Id, t: int, newId: Id, now: int, later: int)
    requires Overridable(db, p, t, newId, now) && p in db.tasks && !NothingToLose(db, p, t)
    ensures
      var q := Spotlight(db.tasks[p].calendarId, t);
      var o := BuildOccurrence(db.tasks[p], ExceptionsOf(Reverted(db, p, t, newId, now, later).exceptions, p), t);
      InAgenda(Reverted(db, p, t, newId, now, later), q, o) && !InAgenda(db, q, o)
  {
    RevertedTables(db, p, t, newId, now, later);
    OverridableParent(db, p, t, newId, now);
    FirstChildId(db, p, t, newId);
    hide Overridable, AfterOverride, Reverted, InAgenda, HasChildAt, EffectivelyGenerates, NothingToLose, FirstChild;
    var db' := Reverted(db, p, t, newId, now, later);
    var grave := FirstChild(db, p, t, newId).(deletedAt := Some(later));
    var bare := db.(exceptions := db'.exceptions);
    assert db' == bare.(tasks := bare.tasks[newId := grave]);
    var q, o := Spotlight(db.tasks[p].calendarId, t), BuildOccurrence(db.tasks[p], ExceptionsOf(db'.exceptions, p), t);
    SlotIsShownAfterRevert(db, p, t, db'.exceptions);
    TombstoneIsInvisible(bare, grave, q, o);
    LostSlotDiffers(db, p, t, db'.exceptions);
  }

  /** The exceptions a revert leaves behind. */
  ghost predicate LeftByRevert(db: Db, p: Id, t: int, exceptions': map<(Id, int), OccurrenceException>) {
    var done := if (p, t) in db.exceptions then db.exceptions[(p, t)].completedAt else None;
    exceptions' == if done.None? then db.exceptions - {(p, t)}
      else db.exceptions[(p, t) := BLANK_EXCEPTION.(completedAt := done)]
  }

  lemma RestoredExceptions(db: Db, p: Id, t: int, exceptions': map<(Id, int), OccurrenceException>)
    requires LeftByRevert(db, p, t, exceptions')
    ensures exceptions' == db.exceptions <==> CompletionOnly(db, p, t)
  {
    if (p, t) in db.exceptions {
      assert exceptions' == db.exceptions ==> (p, t) in exceptions';
    }
  }

  lemma AgendaAfterRevert(db: Db, p: Id, t: int, exceptions': map<(Id, int), OccurrenceException>, q: Query,
                          o: Occurrence)
    requires RowsValid(db) && p in db.tasks && NothingToLose(db, p, t) && LeftByRevert(db, p, t, exceptions')
    ensures InAgenda(db.(exceptions := exceptions'), q, o) <==> InAgenda(db, q, o)
  {
    hide InAgenda;
    if (p, t) in db.exceptions {
      BlankedSlotLooksTheSame(db, p, t, q, o);
    } else {
      assert exceptions' == db.exceptions;
      assert db.(exceptions := exceptions') == db;
    }
  }

  lemma SlotIsShownAfterRevert(db: Db, p: Id, t: int, exceptions': map<(Id, int), OccurrenceException>)
    requires IsLive(db, p) && db.tasks[p].parentTaskId.None? && db.tasks[p].id == p && !HasChildAt(db, p, t)
    requires EffectivelyGenerates(db.tasks[p], EffectiveConfig(db.groups, db.tasks[p]), t)
    requires LeftByRevert(db, p, t, exceptions')
    ensures InAgenda(db.(exceptions := exceptions'), Spotlight(db.tasks[p].calendarId, t),
      BuildOccurrence(db.tasks[p], ExceptionsOf(exceptions', p), t))
  {
    var bare := db.(exceptions := exceptions');
    assert !HasChildAt(bare, p, t) by {
      forall id: Id ensures !IsChildAt(bare, id, p, t) {
        assert !IsChildAt(db, id, p, t);
      }
    }
    hide InAgenda, HasChildAt, EffectivelyGenerates, EffectiveConfig;
    SlotIsShown(bare, p, t);
  }

  lemma FirstChildId(db: Db, p: Id, t: int, newId: Id)
    requires p in db.tasks
    ensures FirstChild(db, p, t, newId).id == newId
  {
  }

  lemma OverridableParent(db: Db, p: Id, t: int, newId: Id, now: int)
    requires Overridable(db, p, t, newId, now)
    ensures IsLive(db, p) && db.tasks[p].parentTaskId.None?
    ensures db.tasks[p].id == p && newId !in db.tasks && !HasChildAt(db, p, t)
    ensures RowsValid(db)
    ensures EffectivelyGenerates(db.tasks[p], EffectiveConfig(db.groups, db.tasks[p]), t)
  {
    hide AfterOverride, EffectivelyGenerates;
    OverriddenTables(db, p, t, newId, now);
  }

  /** An unskipped generated slot without a child shows in its own spotlight. */
  lemma SlotIsShown(db: Db, p: Id, t: int)
    requires IsLive(db, p) && db.tasks[p].parentTaskId.None? && db.tasks[p].id == p && !HasChildAt(db, p, t)
    requires EffectivelyGenerates(db.tasks[p], EffectiveConfig(db.groups, db.tasks[p]), t)
    requires (p, t) in db.exceptions ==> !db.exceptions[(p, t)].isSkipped
    ensures InAgenda(db, Spotlight(db.tasks[p].calendarId, t),
      BuildOccurrence(db.tasks[p], ExceptionsOf(db.exceptions, p), t))
  {
    var parent := db.tasks[p];
    var c := EffectiveConfig(db.groups, parent).value;
    var exceptions := ExceptionsOf(db.exceptions, p);
    var q, o := Spotlight(parent.calendarId, t), BuildOccurrence(parent, exceptions, t);
    assert !IsSkipped(exceptions, t);
    ProbeSurvivesExceptions(parent, c, exceptions, t);
    assert o in Recurrences(db, parent, q.from, q.to);
    hide Expansion, HasChildAt, EffectivelyGenerates, BuildOccurrence;
    BuiltOccurrenceIsNamed(parent, exceptions, t);
    assert parent.startAt.Some?;
    assert o in Contribution(db, q, p);
    assert !Suppressed(db, q.calendars, q.from, q.to, p, t) by {
      NoChildNoSuppression(db, q, p, t);
    }
  }

  lemma BuiltOccurrenceIsNamed(task: Task, exceptions: map<int, OccurrenceException>, t: int)
    ensures BuildOccurrence(task, exceptions, t).taskId == task.id
    ensures BuildOccurrence(task, exceptions, t).originalStart == Some(t)
  {
  }

  lemma NoChildNoSuppression(db: Db, q: Query, p: Id, t: int)
    requires !HasChildAt(db, p, t)
    ensures !Suppressed(db, q.calendars, q.from, q.to, p, t)
  {
  }

  lemma SkipsThinOut(s: Series, length: Option<int>, exceptions: map<int, OccurrenceException>, from: int, to: int,
                     d: int)
    ensures Wanted(s, length, exceptions, from, to, d)
      <==> Wanted(s, length, map[], from, to, d) && !IsSkipped(exceptions, StartOn(s, d))
  {
    hide InSeries, WithinSteps, StartOn;
  }

  /** Exceptions can only thin out what crowds the probe's bracket. */
  lemma ProbeSurvivesExceptions(task: Task, c: Config, exceptions: map<int, OccurrenceException>, t: int)
    requires IsGenerated(task, c, t) && !IsSkipped(exceptions, t)
    ensures task.startAt.Some? && BuildOccurrence(task, exceptions, t) in Expansion(task, c, exceptions, t - 1, t + 1)
  {
    assert task.startAt.Some?;
    var s, length := SeriesOf(task, c), Duration(task);
    var d := LocalDay(s.offset, t);
    hide Wanted, Member, WithinSteps, IsGenerated, Expansion, BuildOccurrence, Count, LocalDay, SeedDay, StartOn,
      IsSkipped, HasStart;
    StartIsWanted(task, c, map[], t - 1, t + 1, t);
    var plain, thinned := WantedDays(s, length, map[], t - 1, t + 1), WantedDays(s, length, exceptions, t - 1, t + 1);
    forall x ensures thinned(x) <==> plain(x) && !IsSkipped(exceptions, StartOn(s, x)) {
      SkipsThinOut(s, length, exceptions, t - 1, t + 1, x);
    }
    CountWeakens(thinned, plain, SeedDay(s), d);
    WantedDayListed(task, c, exceptions, t - 1, t + 1, d);
  }

  /** An exception with something to lose makes its slot look different once it is gone. */
  lemma LostSlotDiffers(db: Db, p: Id, t: int, exceptions': map<(Id, int), OccurrenceException>)
    requires p in db.tasks && db.tasks[p].id == p && db.tasks[p].parentTaskId.None? && !NothingToLose(db, p, t)
    requires EffectivelyGenerates(db.tasks[p], EffectiveConfig(db.groups, db.tasks[p]), t)
    requires LeftByRevert(db, p, t, exceptions')
    ensures !InAgenda(db, Spotlight(db.tasks[p].calendarId, t),
      BuildOccurrence(db.tasks[p], ExceptionsOf(exceptions', p), t))
  {
    var parent := db.tasks[p];
    var q := Spotlight(parent.calendarId, t);
    var o := BuildOccurrence(parent, ExceptionsOf(exceptions', p), t);
    var e := db.exceptions[(p, t)];
    assert parent.startAt.Some?;
    assert ExceptionsOf(db.exceptions, p)[t] == e;
    assert e.isSkipped || o != BuildOccurrence(parent, ExceptionsOf(db.exceptions, p), t) by {
      if e.completedAt.None? {
        assert t !in ExceptionsOf(exceptions', p);
      } else {
        assert ExceptionsOf(exceptions', p)[t] == BLANK_EXCEPTION.(completedAt := e.completedAt);
      }
    }
    hide Shown, Expansion, EffectivelyGenerates, InScope, NothingToLose, LeftByRevert;
    if o in Contribution(db, q, p) {
      assert o.isRecurring && o.originalStart == Some(t);
      RecurrenceIsNamed(parent, EffectiveConfig(db.groups, parent).value, ExceptionsOf(db.exceptions, p), q.from, q.to,
        o);
    }
  }

  /** The daily event with a title of its own on its second day. */
  const RENAMED_SLOT := OccurrenceException(false, None, None, Some("renamed"), None)
  const RENAMED_DAILY := Db(map[1 := DAILY_EVENT], map[(1, MILLIS_PER_DAY) := RENAMED_SLOT], map[])

  lemma RenamedIsOverridable()
    ensures Overridable(RENAMED_DAILY, 1, MILLIS_PER_DAY, 2, 0)
    ensures IsGenerated(DAILY_EVENT, EVERY_DAY, MILLIS_PER_DAY)
  {
    SecondDayIsGenerated();
    RenamedIsSound();
    RenamedIsOwned();
    hide IsGenerated, Swept, Structure, HasChildAt, Update, Owned, ChildRow;
    EmptyPatchPasses(Owned(RENAMED_DAILY, DAILY_EVENT, MILLIS_PER_DAY, ChildRow(DAILY_EVENT, 2, MILLIS_PER_DAY)), 2);
  }

  lemma SecondDayIsGenerated()
    ensures IsGenerated(DAILY_EVENT, EVERY_DAY, MILLIS_PER_DAY)
  {
    hide IsGenerated;
    DailyProbe(DAILY_EVENT, EVERY_DAY, 1);
  }

  lemma RenamedIsOwned()
    ensures
      var owned := Owned(RENAMED_DAILY, DAILY_EVENT, MILLIS_PER_DAY, ChildRow(DAILY_EVENT, 2, MILLIS_PER_DAY));
      IsLive(owned, 2) && !EndsBeforeStart(owned.tasks[2].startAt, owned.tasks[2].endAt)
    ensures ChildRow(DAILY_EVENT, 2, MILLIS_PER_DAY).id == 2
  {
  }

  lemma EmptyPatchPasses(db: Db, id: Id)
    requires IsLive(db, id) && !EndsBeforeStart(db.tasks[id].startAt, db.tasks[id].endAt)
    ensures Update(db, id, NO_PATCH, 0).Ok?
  {
    hide Swept;
  }

  lemma RenamedIsSound()
    ensures Structure(RENAMED_DAILY) && !HasChildAt(RENAMED_DAILY, 1, MILLIS_PER_DAY)
  {
  }

  /** Overriding the renamed slot and reverting it brings the series' own title back. */
  lemma RevertLosesTitle()
    ensures Overridable(RENAMED_DAILY, 1, MILLIS_PER_DAY, 2, 0)
    ensures
      var q := Spotlight(1, MILLIS_PER_DAY);
      && InAgenda(Reverted(RENAMED_DAILY, 1, MILLIS_PER_DAY, 2, 0, 1), q,
        BuildOccurrence(DAILY_EVENT, map[], MILLIS_PER_DAY))
      && !InAgenda(RENAMED_DAILY, q, BuildOccurrence(DAILY_EVENT, map[], MILLIS_PER_DAY))
  {
    hide Overridable, InAgenda, Reverted, BuildOccurrence;
    RenamedIsOverridable();
    assert !NothingToLose(RENAMED_DAILY, 1, MILLIS_PER_DAY);
    RevertBlanksSlot(RENAMED_DAILY, 1, MILLIS_PER_DAY, 2, 0, 1);
    NoExceptionIsLeft();
  }

  lemma NoExceptionIsLeft()
    requires Overridable(RENAMED_DAILY, 1, MILLIS_PER_DAY, 2, 0)
    ensures ExceptionsOf(Reverted(RENAMED_DAILY, 1, MILLIS_PER_DAY, 2, 0, 1).exceptions, 1) == map[]
  {
    hide Overridable, Reverted, FirstChild;
    RevertedTables(RENAMED_DAILY, 1, MILLIS_PER_DAY, 2, 0, 1);
  }

  // --- a removed slot stays gone -------------------------------------------------

  /** The operations that give slot `(p, t)` back: overriding it, or un-skipping it. */
  predicate Reopens(op: Op, p: Id, t: int) {
    match op
    case DoCreateOverride(id, s, _, _, _) => id == p && s == t
    case DoOverride(id, s, changes, _) => id == p && s == t && changes.isSkipped == Some(false)
    case _ => false
  }

  predicate StaysSkipped(db: Db, p: Id, t: int) {
    p in db.tasks && (p, t) in db.exceptions && db.exceptions[(p, t)].isSkipped
  }

  lemma UpsertKeepsSkip(db: Db, p: Id, t: int, id: Id, s: int, ch: OverrideChanges)
    requires StaysSkipped(db, p, t) && !(id == p && s == t && ch.isSkipped == Some(false))
    ensures (p, t) in Upserted(db.exceptions, id, s, ch) && Upserted(db.exceptions, id, s, ch)[(p, t)].isSkipped
  {
  }

  lemma UpdateKeepsTables(db: Db, id: Id, patch: UpdateInput, now: int)
    requires Update(db, id, patch, now).Ok?
    ensures var db' := Update(db, id, patch, now).value;
      db'.tasks.Keys == db.tasks.Keys && db'.exceptions == db.exceptions
  {
    hide SweptRow, PatchedRow, RuleInputsChanged, EffectiveConfig;
  }

  /** No operation takes a row out of the table. */
  lemma StepKeepsRows(before: Db, op: Op, after: Db)
    requires Step(before, op, after)
    ensures before.tasks.Keys <= after.tasks.Keys
  {
    hide SweptRow, HasChildAt, Update, PatchedRow, EffectivelyGenerates, SplitRow, TruncatedRow, IsGenerated, IsChildOf,
      Upserted, CheckGroup, EffectiveConfig, ToConfig, ValidDto, ValidRecurrence, ChildRow, Absorbed;
    forall db, id: Id, patch, now: int | Update(db, id, patch, now).Ok?
      ensures Update(db, id, patch, now).value.tasks.Keys == db.tasks.Keys
    {
      UpdateKeepsTables(db, id, patch, now);
    }
  }

  lemma CompletionKeepsExceptions(db: Db, id: Id, completed: bool, now: int)
    ensures SetCompleted(db, id, completed, now).Ok? ==>
      SetCompleted(db, id, completed, now).value.exceptions == db.exceptions
  {
  }

  lemma RemoveKeepsSkip(db: Db, id: Id, mode: DeleteMode, now: int, p: Id, t: int)
    requires StaysSkipped(db, p, t) && Remove(db, id, mode, now).Ok?
    ensures var e := Remove(db, id, mode, now).value.exceptions; (p, t) in e && e[(p, t)].isSkipped
  {
    hide Tombstoned;
  }

  lemma OverrideKeepsSkip(db: Db, id: Id, s: int, ch: OverrideChanges, now: int, p: Id, t: int)
    requires StaysSkipped(db, p, t) && ApplyOccurrenceOverride(db, id, s, ch, now).Ok?
    requires !(id == p && s == t && ch.isSkipped == Some(false))
    ensures var e := ApplyOccurrenceOverride(db, id, s, ch, now).value.exceptions; (p, t) in e && e[(p, t)].isSkipped
  {
    hide Update, SetCompleted, Remove, HasChildAt, IsGenerated, Upserted;
    UpsertKeepsSkip(db, p, t, id, s, ch);
    if Remove(db, id, RemoveSlot, now).Ok? {
      RemoveKeepsSkip(db, id, RemoveSlot, now, p, t);
    }
    var updated := Update(db, id, CollapsedInput(ch), now);
    if updated.Ok? {
      UpdateKeepsTables(db, id, CollapsedInput(ch), now);
      if ch.completedAt.Some? {
        CompletionKeepsExceptions(updated.value, id, ch.completedAt.value.Some?, now);
      }
    }
  }

  lemma SplitKeepsSkip(db: Db, id: Id, s: int, split: SplitChanges, newId: Id, now: int, p: Id, t: int)
    requires StaysSkipped(db, p, t) && newId !in db.tasks && SplitSeries(db, id, s, split, newId, now).Ok?
    ensures var e := SplitSeries(db, id, s, split, newId, now).value.exceptions; (p, t) in e && e[(p, t)].isSkipped
  {
    hide Update, Swept, SplitRow, TruncatedRow, CheckGroup;
    if Update(db, id, SplitAsUpdate(split), now).Ok? {
      UpdateKeepsTables(db, id, SplitAsUpdate(split), now);
    }
  }

  lemma EndKeepsSkip(db: Db, id: Id, s: int, now: int, p: Id, t: int)
    requires StaysSkipped(db, p, t) && EndSeriesAt(db, id, s, now).Ok?
    ensures var e := EndSeriesAt(db, id, s, now).value.exceptions; (p, t) in e && e[(p, t)].isSkipped
  {
    hide Remove, Swept, TruncatedRow;
    if Remove(db, id, RemoveSlot, now).Ok? {
      RemoveKeepsSkip(db, id, RemoveSlot, now, p, t);
    }
  }

  lemma CompleteKeepsSkip(db: Db, id: Id, s: int, completed: bool, now: int, p: Id, t: int)
    requires StaysSkipped(db, p, t) && SetOccurrenceCompleted(db, id, s, completed, now).Ok?
    ensures var e := SetOccurrenceCompleted(db, id, s, completed, now).value.exceptions;
      (p, t) in e && e[(p, t)].isSkipped
  {
    hide HasChildAt;
  }

  lemma CreateOverrideKeepsSkip(db: Db, id: Id, s: int, patch: UpdateInput, newId: Id, now: int, p: Id, t: int)
    requires RowsValid(db) && StaysSkipped(db, p, t)
    requires CreateOrUpdateOverride(db, id, s, patch, newId, now).Ok? && !(id == p && s == t)
    ensures var e := CreateOrUpdateOverride(db, id, s, patch, newId, now).value.exceptions;
      (p, t) in e && e[(p, t)].isSkipped
  {
    hide Update, HasChildAt, EffectivelyGenerates, ChildRow, Absorbed;
    var parent := db.tasks[id];
    assert parent.id == id;
    if HasChildAt(db, id, s) {
      var child := ChildAt(db, id, s);
      UpdateKeepsTables(Owned(db, parent, s, db.tasks[child]), child, patch, now);
    } else {
      UpdateKeepsTables(Owned(db, parent, s, ChildRow(parent, newId, s)), newId, patch, now);
    }
  }

  /** Edits, splits, truncations, completions and other slots' overrides leave a skip in place. */
  lemma StepKeepsSkip(before: Db, op: Op, after: Db, p: Id, t: int)
    requires RowsValid(before) && Step(before, op, after) && StaysSkipped(before, p, t) && !Reopens(op, p, t)
    ensures StaysSkipped(after, p, t)
  {
    StepKeepsRows(before, op, after);
    hide Create, Update, SetCompleted, SetOccurrenceCompleted, ApplyOccurrenceOverride, CreateOrUpdateOverride,
      SplitSeries, EndSeriesAt, Remove, ValidDto, ValidRecurrence, RowsValid;
    if Apply(before, op).Ok? {
      match op
      case DoCreate(newId, input) => CreateKeepsExceptions(before, newId, input);
      case DoUpdate(id, patch, now) => UpdateKeepsTables(before, id, patch, now);
      case DoSetCompleted(id, completed, now) => CompletionKeepsExceptions(before, id, completed, now);
      case DoSetOccurrenceCompleted(id, s, completed, now) => CompleteKeepsSkip(before, id, s, completed, now, p, t);
      case DoOverride(id, s, changes, now) => OverrideKeepsSkip(before, id, s, changes, now, p, t);
      case DoCreateOverride(id, s, patch, newId, now) =>
        CreateOverrideKeepsSkip(before, id, s, patch, newId, now, p, t);
      case DoSplit(id, s, split, newId, now) => SplitKeepsSkip(before, id, s, split, newId, now, p, t);
      case DoEnd(id, s, now) => EndKeepsSkip(before, id, s, now, p, t);
      case DoRemove(id, mode, now) => RemoveKeepsSkip(before, id, mode, now, p, t);
    }
  }

  lemma CreateKeepsExceptions(db: Db, newId: Id, input: CreateInput)
    ensures Create(db, newId, input).Ok? ==> Create(db, newId, input).value.exceptions == db.exceptions
  {
    hide ToConfig;
  }

  lemma SkippedSlotIsAbsent(db: Db, p: Id, t: int, q: Query, o: Occurrence)
    requires RowsValid(db) && StaysSkipped(db, p, t)
    requires InAgenda(db, q, o) && o.isRecurring
    ensures !(o.taskId == p && o.originalStart == Some(t))
  {
    hide Expansion, Shown, InScope, EffectiveConfig;
    var row := db.tasks[o.taskId];
    var c := EffectiveConfig(db.groups, row).value;
    var exceptions := ExceptionsOf(db.exceptions, row.id);
    if row.startAt.Some? {
      RecurrenceIsNamed(row, c, exceptions, q.from, q.to, o);
    } else {
      TimelessYieldsNothing(row, c, exceptions, q.from, q.to);
    }
  }

  /** A split at or before the slot hands a copy of its skip to the new master. */
  lemma SplitCopiesSkip(db: Db, id: Id, s: int, split: SplitChanges, newId: Id, now: int, t: int)
    requires StaysSkipped(db, id, t) && newId !in db.tasks && SplitSeries(db, id, s, split, newId, now).Ok? && s <= t
    requires newId in SplitSeries(db, id, s, split, newId, now).value.tasks
    ensures StaysSkipped(SplitSeries(db, id, s, split, newId, now).value, newId, t)
  {
    hide Update, Swept, SplitRow, TruncatedRow, CheckGroup;
    if Update(db, id, SplitAsUpdate(split), now).Ok? {
      UpdateKeepsTables(db, id, SplitAsUpdate(split), now);
    }
  }

  /** The operation splits an owner of slot `t` at or before `t`, into a new master with this id. */
  predicate Succeeds(before: Db, op: Op, after: Db, owners: set<Id>, t: int, heir: Id) {
    op.DoSplit? && op.newId == heir && op.id in owners && op.t <= t && heir !in before.tasks && heir in after.tasks
  }

  /** The masters that slot `t` of `p` has passed to in the first `i` steps of a run, `p` included. */
  function Owners(states: seq<Db>, ops: seq<Op>, p: Id, t: int, i: nat): (owners: set<Id>)
    requires i < |states| && i <= |ops|
  {
    if i == 0 then {p}
    else
      var earlier, op := Owners(states, ops, p, t, i - 1), ops[i - 1];
      if op.DoSplit? && Succeeds(states[i - 1], op, states[i], earlier, t, op.newId) then earlier + {op.newId}
        else earlier
  }

  lemma StepKeepsOwnersSkips(before: Db, op: Op, after: Db, owners: set<Id>, t: int)
    requires RowsValid(before) && Step(before, op, after)
    requires forall w: Id :: w in owners ==> StaysSkipped(before, w, t) && !Reopens(op, w, t)
    ensures forall w: Id :: w in owners || Succeeds(before, op, after, owners, t, w) ==> StaysSkipped(after, w, t)
  {
    forall w: Id | w in owners || Succeeds(before, op, after, owners, t, w) ensures StaysSkipped(after, w, t) {
      if w in owners {
        hide Step;
        StepKeepsSkip(before, op, after, w, t);
      } else {
        hide StaysSkipped, SplitSeries;
        SplitCopiesSkip(before, op.id, op.t, op.split, op.newId, op.now, t);
      }
    }
  }

  /** No operation before step `i` reopens slot `t` of a master that owns it by then. */
  ghost predicate NeverReopened(states: seq<Db>, ops: seq<Op>, p: Id, t: int, i: nat)
    requires i < |states| && i <= |ops|
  {
    forall j, w: Id :: 1 <= j < i && w in Owners(states, ops, p, t, j) ==> !Reopens(ops[j], w, t)
  }

  lemma FirstOwners(states: seq<Db>, ops: seq<Op>, p: Id, t: int)
    requires |states| > 1 && |ops| > 0 && !ops[0].DoSplit?
    ensures Owners(states, ops, p, t, 1) == {p}
  {
    assert Owners(states, ops, p, t, 0) == {p};
  }

  lemma LaterOwners(states: seq<Db>, ops: seq<Op>, p: Id, t: int, i: nat, w: Id)
    requires 0 < i < |states| && i <= |ops| && w in Owners(states, ops, p, t, i)
    ensures w in Owners(states, ops, p, t, i - 1)
      || Succeeds(states[i - 1], ops[i - 1], states[i], Owners(states, ops, p, t, i - 1), t, w)
  {
  }

  lemma RemovalSkips(before: Db, op: Op, after: Db, child: Id, p: Id, t: int, now: int)
    requires Structure(before) && IsChildAt(before, child, p, t)
    requires op == DoRemove(child, RemoveSlot, now) && Step(before, op, after)
    ensures StaysSkipped(after, p, t)
  {
    assert LinkValid(before, before.tasks[child]);
    hide Structure;
  }

  lemma {:induction false} OwnersStaySkipped(states: seq<Db>, ops: seq<Op>, child: Id, now: int, p: Id, t: int, i: nat)
    requires IsRun(states, ops) && Structure(states[0]) && 1 <= i <= |ops|
    requires IsChildAt(states[0], child, p, t) && ops[0] == DoRemove(child, RemoveSlot, now)
    requires NeverReopened(states, ops, p, t, i)
    ensures forall w: Id :: w in Owners(states, ops, p, t, i) ==> StaysSkipped(states[i], w, t)
  {
    hide Structure, Step, StaysSkipped, Reopens, Owners, Succeeds;
    if i == 1 {
      FirstOwners(states, ops, p, t);
      RemovalSkips(states[0], ops[0], states[1], child, p, t, now);
    } else {
      forall w: Id | w in Owners(states, ops, p, t, i)
        ensures w in Owners(states, ops, p, t, i - 1)
          || Succeeds(states[i - 1], ops[i - 1], states[i], Owners(states, ops, p, t, i - 1), t, w)
      {
        LaterOwners(states, ops, p, t, i, w);
      }
      OwnersStaySkipped(states, ops, child, now, p, t, i - 1);
      RunsKeepStructure(states, ops, i - 1);
      StructuredRows(states[i - 1]);
      StepKeepsOwnersSkips(states[i - 1], ops[i - 1], states[i], Owners(states, ops, p, t, i - 1), t);
    }
  }

  /**
   * Deleting an override deletes its occurrence for good: through every later rule
   * edit, split, truncation and completion no agenda shows a recurring occurrence at
   * the slot, neither of the series nor of any new master that a split at or before
   * the slot has handed it to, until an owner's slot is overridden or un-skipped again.
   */
  lemma RemovedSlotStaysGone(states: seq<Db>, ops: seq<Op>, child: Id, now: int, p: Id, t: int, i: nat)
    requires IsRun(states, ops) && Structure(states[0]) && 1 <= i <= |ops|
    requires IsChildAt(states[0], child, p, t) && ops[0] == DoRemove(child, RemoveSlot, now)
    requires NeverReopened(states, ops, p, t, i)
    ensures p in Owners(states, ops, p, t, i)
    ensures forall w: Id :: w in Owners(states, ops, p, t, i) ==> StaysSkipped(states[i], w, t)
    ensures forall q, o :: InAgenda(states[i], q, o) && o.isRecurring && o.taskId in Owners(states, ops, p, t, i) ==>
      o.originalStart != Some(t)
  {
    hide Structure, InAgenda, Step, StaysSkipped, NeverReopened;
    OwnersStaySkipped(states, ops, child, now, p, t, i);
    StillAnOwner(states, ops, p, t, i);
    RunsKeepStructure(states, ops, i);
    StructuredRows(states[i]);
    forall q, o | InAgenda(states[i], q, o) && o.isRecurring && o.taskId in Owners(states, ops, p, t, i)
      ensures o.originalStart != Some(t)
    {
      SkippedSlotIsAbsent(states[i], o.taskId, t, q, o);
    }
  }

  lemma {:induction false} StillAnOwner(states: seq<Db>, ops: seq<Op>, p: Id, t: int, i: nat)
    requires i < |states| && i <= |ops|
    ensures p in Owners(states, ops, p, t, i)
  {
    if i > 0 {
      StillAnOwner(states, ops, p, t, i - 1);
    }
  }
}
