/**
 * Splitting and truncating at the level of the store: what readers of any agenda
 * see before and after the transaction.
 */
module SplitAgenda {
  import opened Wrappers
  import opened Ranges
  import opened RecurrenceRule
  import opened TaskRows
  import opened Series
  import opened SeriesLaws
  import opened SplitLaws
  import opened TaskStore
  import opened TaskInvariants
  import opened Agenda

  /** `v` is what a reader of the agenda sees of one of the tasks `ids`. */
  ghost predicate Seen(db: Db, q: Query, ids: set<Id>, v: View) {
    exists o :: InAgenda(db, q, o) && o.taskId in ids && ViewOf(o) == v
  }

  /** No override child sits at or past `t`. */
  ghost predicate NoChildFrom(db: Db, id: Id, t: int) {
    forall k: Id, s: int :: IsChildAt(db, k, id, s) ==> s < t
  }

  /** The number of occurrences a COUNT split must count is within the cap. */
  ghost predicate Countable(task: Task, c: Config, t: int)
    requires task.startAt.Some?
  {
    c.endType == AfterCount && c.count.Some? ==>
      Rank(c, SeedDay(SeriesOf(task, c)), LocalDay(task.offset, t)) <= MAX_OCCURRENCES_PER_WINDOW
  }

  /** A split without changes, at a generated slot past the anchor, with no override child ahead. */
  ghost predicate PlainSplit(db: Db, id: Id, t: int, newId: Id) {
    && Structure(db) && IsLive(db, id) && newId !in db.tasks
    && db.tasks[id].config.Some? && db.tasks[id].startAt.Some? && db.tasks[id].startAt.value != t
    && IsGenerated(db.tasks[id], db.tasks[id].config.value, t)
    && NoChildFrom(db, id, t)
    && Countable(db.tasks[id], db.tasks[id].config.value, t)
  }

  function ExceptionsAfterSplit(db: Db, id: Id, t: int, newId: Id): map<(Id, int), OccurrenceException> {
    CopiedExceptions(db.exceptions, id, newId, t)
  }

  ghost function AfterSplit(db: Db, id: Id, t: int, newId: Id, now: int): Db
    requires PlainSplit(db, id, t, newId)
  {
    SplitSeries(db, id, t, NO_SPLIT_CHANGES, newId, now).value
  }

  // --- the tables after a split -----------------------------------------------------

  /** Two rows that differ at most in whether an override child is flagged as detached. */
  predicate SameUpToFlag(a: Task, b: Task) {
    a == b || (a.parentTaskId.Some? && b == a.(detachedAt := b.detachedAt))
  }

  lemma SweepFlagsOnly(tasks: map<Id, Task>, parent: Task, c: Option<Config>, now: int)
    ensures forall k: Id :: k in tasks ==> SameUpToFlag(tasks[k], Swept(tasks, parent, c, now)[k])
    ensures Swept(tasks, parent, c, now).Keys == tasks.Keys
  {
    hide EffectivelyGenerates;
  }

  /** The successor of a split without changes. */
  ghost predicate Continues(db: Db, task: Task, row: Task, t: int)
    requires task.config.Some? && task.startAt.Some?
  {
    && ContinuesAt(row, task, t)
    && row.config == Some(ContinuedAfter(task.config.value, CountedBefore(task, task.config.value, t)))
    && row.calendarId == task.calendarId && row.groupId == task.groupId
    && row.parentTaskId.None? && row.deletedAt.None? && row.completedAt.None?
  }

  lemma SuccessorRow(db: Db, task: Task, t: int, newId: Id)
    requires task.config.Some? && task.startAt.Some?
    ensures Continues(db, task, SplitRow(task, task.config.value, t, NO_SPLIT_CHANGES, newId), t)
    ensures SplitRow(task, task.config.value, t, NO_SPLIT_CHANGES, newId).id == newId
  {
    hide Expansion;
  }

  lemma PlainSplitResult(db: Db, id: Id, t: int, newId: Id, now: int)
    requires PlainSplit(db, id, t, newId)
    ensures
      var task := db.tasks[id];
      var cut, row := TruncatedRow(task, t), SplitRow(task, task.config.value, t, NO_SPLIT_CHANGES, newId);
      SplitSeries(db, id, t, NO_SPLIT_CHANGES, newId, now) ==
        Ok(Db(Swept(db.tasks[id := cut], cut, cut.config, now)[newId := row],
          CopiedExceptions(db.exceptions, id, newId, t), db.groups))
  {
    hide IsGenerated, Countable, NoChildFrom, Structure, Swept, TruncatedRow, SplitRow, CopiedExceptions, CheckGroup;
    SplitInStages(db, id, t, NO_SPLIT_CHANGES, newId, now);
  }

  lemma SplitsMaster(db: Db, id: Id, t: int, newId: Id)
    requires PlainSplit(db, id, t, newId)
    ensures id in db.tasks && newId !in db.tasks
    ensures
      var task := db.tasks[id];
      task.id == id && task.parentTaskId.None? && task.config.Some? && task.startAt.Some?
  {
    MastersOnlyRecur(db, id);
  }

  lemma AfterSplitIsResult(db: Db, id: Id, t: int, newId: Id, now: int)
    requires PlainSplit(db, id, t, newId)
    ensures AfterSplit(db, id, t, newId, now) == SplitSeries(db, id, t, NO_SPLIT_CHANGES, newId, now).value
  {
    hide PlainSplit, SplitSeries;
  }

  lemma SplitTables(db: Db, id: Id, t: int, newId: Id, now: int)
    requires PlainSplit(db, id, t, newId)
    ensures SplitSeries(db, id, t, NO_SPLIT_CHANGES, newId, now).Ok?
    ensures
      var db' := AfterSplit(db, id, t, newId, now);
      && db'.groups == db.groups && db'.exceptions == ExceptionsAfterSplit(db, id, t, newId)
      && db'.tasks.Keys == db.tasks.Keys + {newId}
      && db'.tasks[id] == TruncatedRow(db.tasks[id], t)
      && (forall k: Id :: k in db.tasks && k != id ==> SameUpToFlag(db.tasks[k], db'.tasks[k]))
      && Continues(db, db.tasks[id], db'.tasks[newId], t) && db'.tasks[newId].id == newId
  {
    hide PlainSplit, AfterSplit, SplitSeries, Swept, TruncatedRow, SplitRow, CopiedExceptions, Continues, SameUpToFlag,
      SameLinks;
    SplitsMaster(db, id, t, newId);
    var task := db.tasks[id];
    PlainSplitResult(db, id, t, newId, now);
    assert AfterSplit(db, id, t, newId, now) == SplitSeries(db, id, t, NO_SPLIT_CHANGES, newId, now).value by {
      AfterSplitIsResult(db, id, t, newId, now);
    }
    CutRowStays(task, t);
    var cut, row := TruncatedRow(task, t), SplitRow(task, task.config.value, t, NO_SPLIT_CHANGES, newId);
    SuccessorRow(db, task, t, newId);
    SweepFlagsOnly(db.tasks[id := cut], cut, cut.config, now);
    assert cut.parentTaskId.None? by { CutIsMaster(task, cut); }
    FlaggedTables(db.tasks, id, cut, newId, row, Swept(db.tasks[id := cut], cut, cut.config, now));
  }

  lemma CutIsMaster(task: Task, cut: Task)
    requires SameLinks(task, cut) && task.parentTaskId.None?
    ensures cut.parentTaskId.None?
  {
  }

  /** A table in which one master is replaced, flags are swept and a row is added. */
  lemma FlaggedTables(tasks: map<Id, Task>, id: Id, cut: Task, newId: Id, row: Task, swept: map<Id, Task>)
    requires id in tasks && newId !in tasks && cut.parentTaskId.None? && swept.Keys == tasks.Keys
    requires forall k: Id :: k in tasks ==> SameUpToFlag(tasks[id := cut][k], swept[k])
    ensures swept[newId := row].Keys == tasks.Keys + {newId} && swept[newId := row][id] == cut
    ensures forall k: Id :: k in tasks && k != id ==> SameUpToFlag(tasks[k], swept[newId := row][k])
  {
    assert SameUpToFlag(tasks[id := cut][id], swept[id]);
  }

  lemma CutRowStays(task: Task, t: int)
    requires task.config.Some?
    ensures SameLinks(task, TruncatedRow(task, t))
  {
    hide LocalDay;
  }

  // --- suppression is untouched ------------------------------------------------------

  /** Live children, slots and calendars are as before; the new master has no children. */
  lemma ChildrenAfterSplit(db: Db, id: Id, t: int, newId: Id, now: int, k: Id, p: Id, s: int)
    requires PlainSplit(db, id, t, newId)
    ensures
      var db' := AfterSplit(db, id, t, newId, now);
      && (IsChildAt(db', k, p, s) <==> IsChildAt(db, k, p, s))
      && (IsChildAt(db', k, p, s) ==> p != newId && db'.tasks[k].calendarId == db.tasks[k].calendarId)
      && (IsChildAt(db, k, id, s) ==> s < t)
  {
    assert k in db.tasks ==> LinkValid(db, db.tasks[k]);
    assert IsChildAt(db, k, id, s) ==> s < t;
    assert id in db.tasks && newId !in db.tasks;
    LinksAfterSplit(db, id, t, newId, now, k);
    hide AfterSplit, PlainSplit;
  }

  /** Every row keeps its links, and the new master is no child. */
  lemma LinksAfterSplit(db: Db, id: Id, t: int, newId: Id, now: int, k: Id)
    requires PlainSplit(db, id, t, newId)
    ensures
      var tasks := AfterSplit(db, id, t, newId, now).tasks;
      && tasks.Keys == db.tasks.Keys + {newId} && tasks[newId].parentTaskId.None?
      && (k in db.tasks ==> SameLinks(db.tasks[k], tasks[k]))
  {
    CutRowStays(db.tasks[id], t);
    assert id in db.tasks && newId !in db.tasks;
    hide AfterSplit, PlainSplit, TruncatedRow, ContinuesAt, ExceptionsAfterSplit;
    SplitTables(db, id, t, newId, now);
  }

  lemma SuppressionAfterSplit(db: Db, id: Id, t: int, newId: Id, now: int, q: Query, p: Id, s: int)
    requires PlainSplit(db, id, t, newId)
    ensures
      var db' := AfterSplit(db, id, t, newId, now);
      && (Suppressed(db', q.calendars, q.from, q.to, p, s) <==> Suppressed(db, q.calendars, q.from, q.to, p, s))
      && !Suppressed(db', q.calendars, q.from, q.to, newId, s)
      && (t <= s ==> !Suppressed(db, q.calendars, q.from, q.to, id, s))
  {
    hide AfterSplit, PlainSplit;
    var db' := AfterSplit(db, id, t, newId, now);
    forall k: Id, p': Id ensures IsChildAt(db', k, p', s) <==> IsChildAt(db, k, p', s)
      ensures IsChildAt(db', k, p', s) ==> p' != newId && db'.tasks[k].calendarId == db.tasks[k].calendarId
      ensures IsChildAt(db, k, id, s) ==> s < t
    {
      ChildrenAfterSplit(db, id, t, newId, now, k, p', s);
    }
    hide IsChildAt;
  }

  // --- every other task shows the same -------------------------------------------------

  predicate Holds(os: seq<Occurrence>, k: Id, v: View) {
    exists o :: o in os && o.taskId == k && ViewOf(o) == v
  }

  /** Every entry of `a` has a counterpart in `b` with the same view. */
  ghost predicate Covered(a: seq<Occurrence>, b: seq<Occurrence>) {
    forall o :: o in a ==> Holds(b, o.taskId, ViewOf(o))
  }

  lemma OtherTaskCovered(db: Db, db': Db, q: Query, k: Id)
    requires k in db.tasks && k in db'.tasks && SameUpToFlag(db.tasks[k], db'.tasks[k])
    requires db.groups == db'.groups
    requires ExceptionsOf(db'.exceptions, db.tasks[k].id) == ExceptionsOf(db.exceptions, db.tasks[k].id)
    ensures Covered(Contribution(db, q, k), Contribution(db', q, k))
    ensures Covered(Contribution(db', q, k), Contribution(db, q, k))
  {
    hide Expansion;
    if db.tasks[k] == db'.tasks[k] {
      assert Contribution(db, q, k) == Contribution(db', q, k);
    } else {
      var a, b := Contribution(db, q, k), Contribution(db', q, k);
      var x, y := WrapOneOff(db.tasks[k]), WrapOneOff(db'.tasks[k]);
      assert ViewOf(x) == ViewOf(y) && x.taskId == y.taskId;
      assert (a == [] && b == []) || (a == [x] && b == [y]);
      hide Contribution;
      assert a == [x] ==> x in a && y in b;
    }
  }

  /** The entries of task `k` are shown or not alike in both stores. */
  ghost predicate ShownAlike(db: Db, db': Db, q: Query, k: Id) {
    forall o: Occurrence, o': Occurrence :: o.taskId == k && o'.taskId == k && ViewOf(o) == ViewOf(o') ==>
      Shown(db', q, o') == Shown(db, q, o)
  }

  lemma CoveredIsSeen(db: Db, db': Db, q: Query, k: Id, v: View)
    requires k in db.tasks && k in db'.tasks
    requires Covered(Contribution(db, q, k), Contribution(db', q, k)) && ShownAlike(db, db', q, k)
    requires Seen(db, q, {k}, v)
    ensures Seen(db', q, {k}, v)
  {
    hide Contribution, Shown;
    var o :| InAgenda(db, q, o) && o.taskId == k && ViewOf(o) == v;
    assert Holds(Contribution(db', q, k), k, v);
    var o' :| o' in Contribution(db', q, k) && o'.taskId == k && ViewOf(o') == v;
    assert InAgenda(db', q, o');
  }

  lemma ShownAlikeAfterSplit(db: Db, id: Id, t: int, newId: Id, now: int, q: Query, k: Id)
    requires PlainSplit(db, id, t, newId) && k in db.tasks
    ensures ShownAlike(db, AfterSplit(db, id, t, newId, now), q, k)
  {
    hide AfterSplit, PlainSplit, Suppressed;
    var db' := AfterSplit(db, id, t, newId, now);
    forall o: Occurrence, o': Occurrence | o.taskId == k && o'.taskId == k && ViewOf(o) == ViewOf(o')
      ensures Shown(db', q, o') == Shown(db, q, o)
    {
      if o.originalStart.Some? {
        SuppressionAfterSplit(db, id, t, newId, now, q, k, o.originalStart.value);
      }
    }
  }

  lemma OtherExceptions(db: Db, id: Id, t: int, newId: Id, k: Id)
    requires k != newId
    ensures ExceptionsOf(ExceptionsAfterSplit(db, id, t, newId), k) == ExceptionsOf(db.exceptions, k)
  {
  }

  lemma OtherTasksUnchanged(db: Db, id: Id, t: int, newId: Id, now: int, q: Query, k: Id, v: View)
    requires PlainSplit(db, id, t, newId) && k in db.tasks && k != id
    ensures Seen(AfterSplit(db, id, t, newId, now), q, {k}, v) <==> Seen(db, q, {k}, v)
  {
    assert db.tasks[k].id == k && newId != k;
    hide AfterSplit, PlainSplit, ExceptionsAfterSplit, Contribution, ExceptionsOf, Seen, Covered, ShownAlike, Shown,
      SameUpToFlag, Continues, TruncatedRow;
    SplitTables(db, id, t, newId, now);
    var db' := AfterSplit(db, id, t, newId, now);
    OtherExceptions(db, id, t, newId, k);
    OtherTaskCovered(db, db', q, k);
    ShownAlikeAfterSplit(db, id, t, newId, now, q, k);
    ShownAlikeIsSymmetric(db, db', q, k);
    if Seen(db, q, {k}, v) {
      CoveredIsSeen(db, db', q, k, v);
    }
    if Seen(db', q, {k}, v) {
      CoveredIsSeen(db', db, q, k, v);
    }
  }

  lemma ShownAlikeIsSymmetric(db: Db, db': Db, q: Query, k: Id)
    requires ShownAlike(db, db', q, k)
    ensures ShownAlike(db', db, q, k)
  {
  }

  // --- the split task ---------------------------------------------------------------------

  /** A rule's occurrences do not depend on the rule the row itself stores. */
  lemma ExpansionIgnoresOwnRule(task: Task, stored: Option<Config>, c: Config,
                                exceptions: map<int, OccurrenceException>, from: int, to: int)
    ensures Expansion(task.(config := stored), c, exceptions, from, to) == Expansion(task, c, exceptions, from, to)
  {
    var task' := task.(config := stored);
    forall t ensures BuildOccurrence(task', exceptions, t) == BuildOccurrence(task, exceptions, t) {}
    assert Duration(task') == Duration(task);
    hide BuildOccurrence, AnswerDays, Duration, StartOn;
  }

  lemma CopiedRows(db: Db, id: Id, t: int, newId: Id)
    requires ExceptionsKeyed(db) && id != newId && newId !in db.tasks
    ensures CopiedFrom(ExceptionsOf(ExceptionsAfterSplit(db, id, t, newId), newId), ExceptionsOf(db.exceptions, id), t)
  {
    var exceptions' := ExceptionsAfterSplit(db, id, t, newId);
    var here, copy := ExceptionsOf(db.exceptions, id), ExceptionsOf(exceptions', newId);
    forall s: int | t <= s ensures (s in copy <==> s in here) && (s in copy ==> copy[s] == here[s]) {
      assert s in copy <==> (newId, s) in exceptions';
      assert s in here <==> (id, s) in db.exceptions;
    }
  }

  /** The three expansions: the original's shows what the two sides' show, one after the other. */
  lemma SplitExpansions(db: Db, id: Id, t: int, newId: Id, now: int, from: int, to: int)
    requires PlainSplit(db, id, t, newId)
    requires CapFree(db.tasks[id], db.tasks[id].config.value, ExceptionsOf(db.exceptions, id), from, to)
    ensures
      var db' := AfterSplit(db, id, t, newId, now);
      Views(Recurrences(db, db.tasks[id], from, to))
      == Views(Recurrences(db', db'.tasks[id], from, to)) + Views(Recurrences(db', db'.tasks[newId], from, to))
  {
    SplitTables(db, id, t, newId, now);
    MastersOnlyRecur(db, id);
    var db' := AfterSplit(db, id, t, newId, now);
    var task := db.tasks[id];
    assert task.id == id;
    var c, seed, day := task.config.value, SeedDay(SeriesOf(task, task.config.value)), LocalDay(task.offset, t);
    CopiedRows(db, id, t, newId);
    OtherExceptions(db, id, t, newId, id);
    var exceptions, copy := ExceptionsOf(db.exceptions, id), ExceptionsOf(db'.exceptions, newId);
    hide AfterSplit, ExceptionsAfterSplit, ExceptionsOf, Structure, NoChildFrom, CapFree, Member, WithinSteps, Rank,
      Views, LocalDay, IsGenerated, Expansion, CountedBefore, Duration, CopiedFrom;
    ProbeIsExact(task, c, t);
    CountedBeforeIsRank(task, c, t);
    var cut := TruncatedRow(task, t);
    var successor := db'.tasks[newId];
    ExpansionIgnoresOwnRule(task, cut.config, cut.config.value, exceptions, from, to);
    assert successor.config.value == ContinuedAfter(c, Rank(c, seed, day));
    SplitPreservesViews(task, c, exceptions, successor, copy, t, Rank(c, seed, day), from, to);
  }

  lemma InViews(os: seq<Occurrence>, v: View)
    ensures v in Views(os) <==> exists o :: o in os && ViewOf(o) == v
  {
    if v in Views(os) {
      var i :| 0 <= i < |os| && Views(os)[i] == v;
      assert os[i] in os;
    }
    if o :| o in os && ViewOf(o) == v {
      var i :| 0 <= i < |os| && os[i] == o;
      assert Views(os)[i] == v;
    }
  }

  /** The successor starts no occurrence before the cut. */
  lemma SuccessorStartsLate(task: Task, c: Config, exceptions: map<int, OccurrenceException>, from: int, to: int,
                            o: Occurrence)
    requires task.startAt.Some? && o in Expansion(task, c, exceptions, from, to)
    ensures o.originalStart.Some? && task.startAt.value <= o.originalStart.value && o.taskId == task.id
  {
    RecurrenceIsNamed(task, c, exceptions, from, to, o);
    assert SeedDay(SeriesOf(task, c)) <= LocalDay(task.offset, o.originalStart.value);
  }

  /** Being shown only depends on the task, the slot and the completion. */
  ghost predicate ViewShown(db: Db, q: Query, id: Id, v: View) {
    && !(v.originalStart.Some? && Suppressed(db, q.calendars, q.from, q.to, id, v.originalStart.value))
    && (q.includeCompleted || v.completedAt.None?)
  }

  /** A master with its own rule shows what its rule yields, less what is suppressed or completed. */
  lemma SeenOfMaster(db: Db, q: Query, id: Id, v: View)
    requires IsLive(db, id) && db.tasks[id].id == id && db.tasks[id].config.Some? && db.tasks[id].parentTaskId.None?
    requires db.tasks[id].startAt.Some?
    ensures Seen(db, q, {id}, v) <==>
      InScope(q, db.tasks[id]) && v in Views(Recurrences(db, db.tasks[id], q.from, q.to)) && ViewShown(db, q, id, v)
  {
    var row := db.tasks[id];
    var os := Recurrences(db, row, q.from, q.to);
    InViews(os, v);
    forall o | o in os ensures o.taskId == id {
      SuccessorStartsLate(row, row.config.value, ExceptionsOf(db.exceptions, id), q.from, q.to, o);
    }
    hide Recurrences, Suppressed, Views;
    if InScope(q, row) && ViewShown(db, q, id, v) {
      if o :| o in os && ViewOf(o) == v {
        assert InAgenda(db, q, o);
      }
    }
  }

  /**
   * Splitting preserves meaning for every reader: whatever the window, group filter
   * or completion filter, the agenda shows of the split series exactly what the old
   * and the new series show after it, and of every other task what it showed before.
   */
  lemma SplitPreservesAgendas(db: Db, id: Id, t: int, newId: Id, now: int, q: Query, k: Id, v: View)
    requires PlainSplit(db, id, t, newId) && k in db.tasks
    requires CapFree(db.tasks[id], db.tasks[id].config.value, ExceptionsOf(db.exceptions, id), q.from, q.to)
    ensures SplitSeries(db, id, t, NO_SPLIT_CHANGES, newId, now).Ok?
    ensures Seen(AfterSplit(db, id, t, newId, now), q, if k == id then {id, newId} else {k}, v) <==> Seen(db, q, {k}, v)
  {
    SplitTables(db, id, t, newId, now);
    hide CapFree, AfterSplit, SplitSeries;
    if k != id {
      OtherTasksUnchanged(db, id, t, newId, now, q, k, v);
    } else {
      SplitTaskUnchanged(db, id, t, newId, now, q, v);
    }
  }

  /** The new side of a split shows its views exactly as the original task did. */
  lemma NewSideShown(db: Db, id: Id, t: int, newId: Id, now: int, q: Query, v: View)
    requires PlainSplit(db, id, t, newId)
    ensures
      var db' := AfterSplit(db, id, t, newId, now);
      && ViewShown(db', q, id, v) == ViewShown(db, q, id, v)
      && (v in Views(Recurrences(db', db'.tasks[newId], q.from, q.to)) ==>
        ViewShown(db', q, newId, v) == ViewShown(db, q, id, v))
  {
    SplitTables(db, id, t, newId, now);
    assert id in db.tasks;
    var db' := AfterSplit(db, id, t, newId, now);
    var row := db'.tasks[newId];
    var os := Recurrences(db', row, q.from, q.to);
    InViews(os, v);
    hide PlainSplit, AfterSplit, Views, Suppressed, TruncatedRow, SameUpToFlag;
    if v in Views(os) {
      var o :| o in os && ViewOf(o) == v;
      SuccessorStartsLate(row, row.config.value, ExceptionsOf(db'.exceptions, newId), q.from, q.to, o);
    }
    if v.originalStart.Some? {
      SuppressionAfterSplit(db, id, t, newId, now, q, id, v.originalStart.value);
    }
  }

  lemma SplitTaskUnchanged(db: Db, id: Id, t: int, newId: Id, now: int, q: Query, v: View)
    requires PlainSplit(db, id, t, newId)
    requires CapFree(db.tasks[id], db.tasks[id].config.value, ExceptionsOf(db.exceptions, id), q.from, q.to)
    ensures Seen(AfterSplit(db, id, t, newId, now), q, {id, newId}, v) <==> Seen(db, q, {id}, v)
  {
    hide CapFree, AfterSplit, Recurrences, Views, Seen, ViewShown, IsGenerated, NoChildFrom, Countable, LinksValid,
      SingleOwner, OneChildPerSlot;
    SplitTables(db, id, t, newId, now);
    MastersOnlyRecur(db, id);
    var db' := AfterSplit(db, id, t, newId, now);
    assert db.tasks[id].id == id;
    SplitExpansions(db, id, t, newId, now, q.from, q.to);
    SeenEither(db', q, id, newId, v);
    NewSideShown(db, id, t, newId, now, q, v);
    SeenOfMaster(db, q, id, v);
    SeenOfMaster(db', q, id, v);
    SeenOfMaster(db', q, newId, v);
  }

  lemma SeenEither(db: Db, q: Query, a: Id, b: Id, v: View)
    ensures Seen(db, q, {a, b}, v) <==> Seen(db, q, {a}, v) || Seen(db, q, {b}, v)
  {
    hide InAgenda;
  }

  // --- truncation -------------------------------------------------------------------------

  lemma TruncationIsUncapped(task: Task, c: Config, exceptions: map<int, OccurrenceException>, t: int, from: int,
                             to: int)
    requires task.startAt.Some? && Member(SeriesOf(task, c), t) && Uncapped(task, c, exceptions, from, to)
    ensures Uncapped(task, EndedBefore(c, LocalDay(task.offset, t)), exceptions, from, to)
  {
    hide Member, Wanted, LocalDay, SeedDay, EndedBefore, Duration;
    var s, cut := SeriesOf(task, c), SeriesOf(task, EndedBefore(c, LocalDay(task.offset, t)));
    var wide, narrow := WantedDays(s, Duration(task), exceptions, from, to),
      WantedDays(cut, Duration(task), exceptions, from, to);
    forall d ensures narrow(d) ==> wide(d) {
      OldSideWants(s, Duration(task), exceptions, from, to, t, d);
    }
    assert SeedDay(cut) == SeedDay(s) by { SameSeedDay(s, cut); }
    CountWeakens(narrow, wide, SeedDay(s), LocalDay(s.offset, to) + 1);
  }

  lemma SameSeedDay(a: Series, b: Series)
    requires a.startAt == b.startAt && a.offset == b.offset
    ensures SeedDay(a) == SeedDay(b)
  {
  }

  lemma TruncatedExpansion(task: Task, c: Config, exceptions: map<int, OccurrenceException>, t: int, from: int, to: int,
                           o: Occurrence)
    requires task.startAt.Some? && Member(SeriesOf(task, c), t) && Uncapped(task, c, exceptions, from, to)
    ensures o in Expansion(task, EndedBefore(c, LocalDay(task.offset, t)), exceptions, from, to) <==>
      o in Expansion(task, c, exceptions, from, to) && o.originalStart.Some? && o.originalStart.value < t
  {
    var s := SeriesOf(task, c);
    var cut := SeriesOf(task, EndedBefore(c, LocalDay(task.offset, t)));
    MemberDay(s, t);
    hide Expansion, Uncapped, Member, Wanted, LocalDay, EndedBefore, Duration, StartOn;
    TruncationIsUncapped(task, c, exceptions, t, from, to);
    UncappedMembers(task, c, exceptions, from, to, o);
    UncappedMembers(task, cut.config, exceptions, from, to, o);
    SameSeed(s, cut);
    forall d ensures Wanted(cut, Duration(task), exceptions, from, to, d)
      <==> Wanted(s, Duration(task), exceptions, from, to, d) && StartOn(s, d) < t
      ensures BuildOccurrence(task, exceptions, StartOn(s, d)).originalStart == Some(StartOn(s, d))
    {
      OldSideWants(s, Duration(task), exceptions, from, to, t, d);
      StartOnOrder(s, d, LocalDay(s.offset, t));
    }
    hide BuildOccurrence;
  }

  /**
   * Ending a series at one of its slots leaves, in every window, exactly the
   * occurrences that start before it, for NEVER, UNTIL and COUNT rules alike.
   */
  lemma EndKeepsExactlyThePast(db: Db, id: Id, t: int, now: int, from: int, to: int, o: Occurrence)
    requires Structure(db) && IsLive(db, id)
    requires db.tasks[id].config.Some? && db.tasks[id].startAt.Some? && db.tasks[id].startAt.value != t
    requires IsGenerated(db.tasks[id], db.tasks[id].config.value, t)
    requires Uncapped(db.tasks[id], db.tasks[id].config.value, ExceptionsOf(db.exceptions, id), from, to)
    ensures EndSeriesAt(db, id, t, now).Ok?
    ensures
      var db' := EndSeriesAt(db, id, t, now).value;
      && id in db'.tasks
      && (o in Recurrences(db', db'.tasks[id], from, to) <==>
           o in Recurrences(db, db.tasks[id], from, to) && o.originalStart.Some? && o.originalStart.value < t)
  {
    hide Uncapped, Expansion, IsGenerated, OneChildPerSlot, SingleOwner, ExceptionsKeyed, LocalDay, Swept, Member;
    var task := db.tasks[id];
    var c := task.config.value;
    assert task.id == id;
    MastersOnlyRecur(db, id);
    var cut := TruncatedRow(task, t);
    SweepFlagsOnly(db.tasks[id := cut], cut, cut.config, now);
    ProbeIsExact(task, c, t);
    var exceptions := ExceptionsOf(db.exceptions, id);
    ExpansionIgnoresOwnRule(task, cut.config, cut.config.value, exceptions, from, to);
    TruncatedExpansion(task, c, exceptions, t, from, to, o);
  }
}
