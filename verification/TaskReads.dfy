/**
 * The reads of the task service, query by query, over one snapshot of the tables:
 * the agenda of a window and the conflict check.
 */
module TaskReads {
  import opened Wrappers
  import opened RecurrenceRule
  import opened TaskRows
  import opened Series
  import opened SeriesLaws
  import opened TaskStore
  import opened TaskInvariants
  import opened Agenda
  import opened AgendaOrdering
  import Engine = Expansion

  /** A query over the live rows. */
  method FindAll(db: Db, where: Task -> bool) returns (rows: seq<Task>)
    requires RowsValid(db)
    ensures DistinctBy(rows, RowId)
    ensures forall row :: row in rows <==>
      row.id in db.tasks && db.tasks[row.id] == row && row.deletedAt.None? && where(row)
  {
    rows := [];
    var rest := db.tasks.Keys;
    while rest != {}
      invariant rest <= db.tasks.Keys && DistinctBy(rows, RowId)
      invariant forall row :: row in rows <==>
        row.id in db.tasks && row.id !in rest && db.tasks[row.id] == row && row.deletedAt.None? && where(row)
      decreases |rest|
    {
      var k: Id :| k in rest;
      rest := rest - {k};
      var row := db.tasks[k];
      if row.deletedAt.None? && where(row) {
        assert forall other :: other in rows ==> other.id != k;
        rows := rows + [row];
      }
    }
  }

  predicate InCalendars(q: Query, row: Task) {
    row.calendarId in q.calendars && (q.groupId.Some? ==> row.groupId == q.groupId)
  }

  // --- one-offs -----------------------------------------------------------------------

  /** An entry the one-off read returns: a wrapped row that meets the window, or a wanted todo. */
  predicate OneOffEntry(db: Db, q: Query, o: Occurrence) {
    && o.taskId in db.tasks
    && var row := db.tasks[o.taskId];
       && InScope(q, row) && o == WrapOneOff(row)
       && ((FeedsOneOff(db.groups, row) && RowMeetsWindow(row, q.from, q.to)) || (q.includeTodos && FeedsTodo(row)))
  }

  method WrapAll(rows: seq<Task>) returns (os: seq<Occurrence>)
    requires DistinctBy(rows, RowId)
    ensures |os| == |rows| && forall i :: 0 <= i < |rows| ==> os[i] == WrapOneOff(rows[i])
    ensures DistinctBy(os, SlotKey)
    ensures forall o :: o in os <==> exists row :: row in rows && o == WrapOneOff(row)
  {
    os := [];
    for i := 0 to |rows|
      invariant |os| == i && forall j :: 0 <= j < i ==> os[j] == WrapOneOff(rows[j])
    {
      os := os + [WrapOneOff(rows[i])];
    }
    forall row | row in rows ensures WrapOneOff(row) in os {
      var j :| 0 <= j < |rows| && rows[j] == row;
      assert os[j] in os;
    }
  }

  lemma JoinDistinct<T, K(!new)>(a: seq<T>, b: seq<T>, key: T -> K)
    requires DistinctBy(a, key) && DistinctBy(b, key)
    requires forall x, y :: x in a && y in b ==> key(x) != key(y)
    ensures DistinctBy(a + b, key)
  {
    forall i, j | 0 <= i < j < |a + b| ensures key((a + b)[i]) != key((a + b)[j]) {
      if i < |a| && |a| <= j {
        assert a[i] in a && b[j - |a|] in b;
      }
    }
  }

  method ReadOneOffOccurrences(db: Db, q: Query) returns (os: seq<Occurrence>)
    requires RowsValid(db)
    ensures DistinctBy(os, SlotKey)
    ensures forall o :: o in os <==> OneOffEntry(db, q, o)
  {
    var timedWithEnd := FindAll(db, (row: Task) =>
      InCalendars(q, row) && row.config.None? && row.startAt.Some? && row.startAt.value < q.to
      && row.endAt.Some? && row.endAt.value > q.from && !InheritsGroupRule(db.groups, row));
    var timedNoEnd := FindAll(db, (row: Task) =>
      InCalendars(q, row) && row.config.None? && row.startAt.Some? && q.from <= row.startAt.value < q.to
      && row.endAt.None? && !InheritsGroupRule(db.groups, row));
    JoinDistinct(timedWithEnd, timedNoEnd, RowId);
    var rows := timedWithEnd + timedNoEnd;
    if q.includeTodos {
      var todos := FindAll(db, (row: Task) => InCalendars(q, row) && row.config.None? && row.startAt.None?);
      JoinDistinct(rows, todos, RowId);
      rows := rows + todos;
    }
    os := WrapAll(rows);
  }

  // --- recurring anchors -----------------------------------------------------------------

  method FindExceptions(db: Db, id: Id) returns (exceptions: map<int, OccurrenceException>)
    ensures exceptions == ExceptionsOf(db.exceptions, id)
  {
    exceptions := map k | k in db.exceptions && k.0 == id :: k.1 := db.exceptions[k];
  }

  /** What the anchors contribute: each expands by its effective rule. */
  ghost predicate AnchorEntry(db: Db, anchors: seq<Task>, from: int, to: int, o: Occurrence) {
    exists row :: row in anchors && o.taskId == row.id && o in Recurrences(db, row, from, to)
  }

  method ExpandAnchors(db: Db, anchors: seq<Task>, from: int, to: int) returns (os: seq<Occurrence>)
    requires RowsValid(db) && DistinctBy(anchors, RowId)
    requires forall row :: row in anchors ==> row.config.Some? ==> ValidAxes(row.config.value)
    ensures DistinctBy(os, SlotKey)
    ensures forall o :: o in os <==> AnchorEntry(db, anchors, from, to, o)
  {
    hide ValidAxes, Expansion;
    os := [];
    for i := 0 to |anchors|
      invariant DistinctBy(os, SlotKey)
      invariant forall o :: o in os <==> AnchorEntry(db, anchors[..i], from, to, o)
    {
      var row := anchors[i];
      assert anchors[..i + 1] == anchors[..i] + [row];
      var c := EffectiveConfig(db.groups, row);
      var more := [];
      if c.Some? {
        var exceptions := FindExceptions(db, row.id);
        more := Engine.ExpandOccurrences(row, c.value, exceptions, from, to);
      }
      RecurrencesDistinct(db, row, from, to);
      OneMoreAnchor(db, anchors, i, from, to);
      assert DistinctBy(os + more, SlotKey) by {
        JoinDistinct(os, more, SlotKey);
      }
      os := os + more;
    }
    assert anchors[..|anchors|] == anchors;
  }

  lemma RecurrencesDistinct(db: Db, row: Task, from: int, to: int)
    ensures DistinctBy(Recurrences(db, row, from, to), SlotKey)
    ensures forall o :: o in Recurrences(db, row, from, to) ==> o.taskId == row.id
  {
    var c := EffectiveConfig(db.groups, row);
    if c.Some? {
      var exceptions := ExceptionsOf(db.exceptions, row.id);
      if row.startAt.None? {
        TimelessYieldsNothing(row, c.value, exceptions, from, to);
      } else {
        hide Expansion;
        var os := Expansion(row, c.value, exceptions, from, to);
        forall i, j | 0 <= i < j < |os| ensures SlotKey(os[i]) != SlotKey(os[j]) {
          ExpansionStartsDistinct(row, c.value, exceptions, from, to, i, j);
        }
        forall o | o in os ensures o.taskId == row.id {
          RecurrenceIsNamed(row, c.value, exceptions, from, to, o);
        }
      }
    }
  }

  lemma OneMoreAnchor(db: Db, anchors: seq<Task>, i: nat, from: int, to: int)
    requires i < |anchors| && DistinctBy(anchors, RowId)
    requires forall o :: o in Recurrences(db, anchors[i], from, to) ==> o.taskId == anchors[i].id
    ensures forall o :: AnchorEntry(db, anchors[..i + 1], from, to, o) <==>
      AnchorEntry(db, anchors[..i], from, to, o) || o in Recurrences(db, anchors[i], from, to)
    ensures forall o :: AnchorEntry(db, anchors[..i], from, to, o) ==> o.taskId != anchors[i].id
  {
    hide Recurrences;
    assert anchors[..i + 1] == anchors[..i] + [anchors[i]];
    forall o | AnchorEntry(db, anchors[..i], from, to, o) ensures o.taskId != anchors[i].id {
      var row :| row in anchors[..i] && o.taskId == row.id && o in Recurrences(db, row, from, to);
      var j :| 0 <= j < i && anchors[j] == row;
      assert RowId(anchors[j]) != RowId(anchors[i]);
    }
    forall o | o in Recurrences(db, anchors[i], from, to) ensures AnchorEntry(db, anchors[..i + 1], from, to, o) {
      assert anchors[i] in anchors[..i + 1];
    }
  }

  /** An entry the recurring read returns. */
  ghost predicate RecurringEntry(db: Db, q: Query, o: Occurrence) {
    && o.taskId in db.tasks
    && var row := db.tasks[o.taskId];
       && InScope(q, row) && !FeedsOneOff(db.groups, row) && !FeedsTodo(row)
       && o in Recurrences(db, row, q.from, q.to)
  }

  /** The anchor scans of a window read: own rules first, then rows of groups. */
  method FindAnchors(db: Db, q: Query) returns (anchors: seq<Task>)
    requires Structure(db)
    ensures DistinctBy(anchors, RowId)
    ensures forall row :: row in anchors <==>
      && row.id in db.tasks && db.tasks[row.id] == row && InScope(q, row) && row.parentTaskId.None?
      && (row.config.Some? || row.groupId.Some?)
  {
    hide LinksValid, OneChildPerSlot, SingleOwner, ExceptionsKeyed, ValidAxes;
    var ownRuleAnchors := FindAll(db, (row: Task) => InCalendars(q, row) && row.config.Some? && row.parentTaskId.None?);
    var groupAnchors := FindAll(db, (row: Task) =>
      InCalendars(q, row) && row.config.None? && row.groupId.Some? && row.parentTaskId.None?);
    JoinDistinct(ownRuleAnchors, groupAnchors, RowId);
    anchors := ownRuleAnchors + groupAnchors;
  }

  method ReadRecurringOccurrences(db: Db, q: Query) returns (os: seq<Occurrence>)
    requires Structure(db)
    ensures DistinctBy(os, SlotKey)
    ensures forall o :: o in os <==> RecurringEntry(db, q, o)
  {
    var anchors := FindAnchors(db, q);
    forall row | row in anchors ensures row.config.Some? ==> ValidAxes(row.config.value) {
      assert db.tasks[row.id] == row;
    }
    os := ExpandAnchors(db, anchors, q.from, q.to);
    forall o ensures AnchorEntry(db, anchors, q.from, q.to, o) <==> RecurringEntry(db, q, o) {
      AnchorsAreRecurring(db, q, anchors, o);
    }
  }

  lemma AnchorsAreRecurring(db: Db, q: Query, anchors: seq<Task>, o: Occurrence)
    requires Structure(db)
    requires forall row :: row in anchors <==>
      && row.id in db.tasks && db.tasks[row.id] == row && InScope(q, row) && row.parentTaskId.None?
      && (row.config.Some? || row.groupId.Some?)
    ensures AnchorEntry(db, anchors, q.from, q.to, o) <==> RecurringEntry(db, q, o)
  {
    hide Expansion, InScope, LinksValid, OneChildPerSlot, SingleOwner, ExceptionsKeyed, ValidAxes;
    if AnchorEntry(db, anchors, q.from, q.to, o) {
      var row :| row in anchors && o.taskId == row.id && o in Recurrences(db, row, q.from, q.to);
      if row.startAt.None? {
        TimelessYieldsNothing(row, EffectiveConfig(db.groups, row).value, ExceptionsOf(db.exceptions, row.id), q.from,
          q.to);
      }
    }
    if RecurringEntry(db, q, o) {
      assert db.tasks[o.taskId].id == o.taskId;
      assert db.tasks[o.taskId] in anchors;
    }
  }

  /** The slots live override children replace inside the window. */
  method BuildOverrideSuppressionSet(db: Db, calendars: set<Id>, from: int, to: int) returns (slots: set<(Id, int)>)
    requires RowsValid(db)
    ensures forall p: Id, t: int :: (p, t) in slots <==> Suppressed(db, calendars, from, to, p, t)
  {
    var children := FindAll(db, (row: Task) =>
      row.calendarId in calendars && row.parentTaskId.Some? && row.originalStartAt.Some?
        && from <= row.originalStartAt.value < to);
    slots := {};
    for i := 0 to |children|
      invariant forall p: Id, t: int :: (p, t) in slots <==>
        exists row :: row in children[..i] && row.parentTaskId == Some(p) && row.originalStartAt == Some(t)
    {
      assert children[..i + 1] == children[..i] + [children[i]];
      assert children[i] in children[..i + 1];
      assert children[i] in children;
      slots := slots + {(children[i].parentTaskId.value, children[i].originalStartAt.value)};
    }
    assert children[..|children|] == children;
    forall p: Id, t: int ensures (p, t) in slots <==> Suppressed(db, calendars, from, to, p, t) {
      if id: Id :| IsChildAt(db, id, p, t) && db.tasks[id].calendarId in calendars && from <= t < to {
        assert db.tasks[id] in children;
      }
      if (p, t) in slots {
        var row :| row in children && row.parentTaskId == Some(p) && row.originalStartAt == Some(t);
        assert IsChildAt(db, row.id, p, t);
      }
    }
  }

  // --- the merged agenda -------------------------------------------------------------------

  lemma AgendaIsBothReads(db: Db, q: Query, o: Occurrence)
    requires Structure(db)
    ensures InAgenda(db, q, o) <==> (OneOffEntry(db, q, o) || RecurringEntry(db, q, o)) && Shown(db, q, o)
  {
    assert o.taskId in db.tasks ==> db.tasks[o.taskId].id == o.taskId;
    hide Structure, Shown, Recurrences, InScope, RowMeetsWindow;
  }

  /**
   * The agenda read: refused on an empty window; otherwise exactly the agenda's
   * entries, no two of one task and slot, ordered by start with timeless ones last.
   */
  method FindOccurrencesInRange(db: Db, q: Query) returns (r: Result<seq<Occurrence>, Error>)
    requires Structure(db)
    ensures r.Ok? <==> q.from < q.to
    ensures r.Refused? ==> r.error == BadRequest
    ensures r.Ok? ==> OrderedBy(r.value, EntryStart) && DistinctBy(r.value, SlotKey)
    ensures r.Ok? ==> forall o :: o in r.value <==> InAgenda(db, q, o)
  {
    if q.from >= q.to {
      return Refused(BadRequest);
    }
    var oneOffs := ReadOneOffOccurrences(db, q);
    var recurring := ReadRecurringOccurrences(db, q);
    var suppressed := BuildOverrideSuppressionSet(db, q.calendars, q.from, q.to);
    assert DistinctBy(oneOffs + recurring, SlotKey) by {
      hide Recurrences, InScope, RowMeetsWindow, Structure;
      JoinDistinct(oneOffs, recurring, SlotKey);
    }
    hide OneOffEntry, RecurringEntry, Structure, Suppressed;
    var shown := FilterShown(db, q, oneOffs + recurring, suppressed);
    var sorted := SortByStart(shown, EntryStart, SlotKey);
    forall o ensures o in sorted <==> InAgenda(db, q, o) {
      AgendaIsBothReads(db, q, o);
    }
    return Ok(sorted);
  }

  method FilterShown(db: Db, q: Query, merged: seq<Occurrence>, suppressed: set<(Id, int)>)
    returns (shown: seq<Occurrence>)
    requires DistinctBy(merged, SlotKey)
    requires forall p: Id, t: int :: (p, t) in suppressed <==> Suppressed(db, q.calendars, q.from, q.to, p, t)
    ensures DistinctBy(shown, SlotKey)
    ensures forall o :: o in shown <==> o in merged && Shown(db, q, o)
  {
    hide Suppressed;
    shown := [];
    for i := 0 to |merged|
      invariant DistinctBy(shown, SlotKey)
      invariant forall o :: o in shown <==> o in merged[..i] && Shown(db, q, o)
    {
      var o := merged[i];
      assert merged[..i + 1] == merged[..i] + [o];
      var hidden := o.originalStart.Some? && (o.taskId, o.originalStart.value) in suppressed;
      assert !hidden && (q.includeCompleted || o.completedAt.None?) <==> Shown(db, q, o);
      if !hidden && (q.includeCompleted || o.completedAt.None?) {
        forall j | 0 <= j < |shown| ensures SlotKey(shown[j]) != SlotKey(o) {
          assert shown[j] in merged[..i];
          var k :| 0 <= k < i && merged[k] == shown[j];
          assert SlotKey(merged[k]) != SlotKey(merged[i]);
        }
        shown := shown + [o];
      }
    }
    assert merged[..|merged|] == merged;
  }

  // --- the conflict check --------------------------------------------------------------------

  method AnchorClashes(db: Db, calendar: Id, from: int, to: int, anchor: Task, suppressed: set<(Id, int)>)
    returns (clashes: bool)
    requires RowsValid(db) && anchor.id in db.tasks && db.tasks[anchor.id] == anchor
    requires forall p: Id, t: int :: (p, t) in suppressed <==> Suppressed(db, {calendar}, from, to, p, t)
    ensures clashes <==> HasLiveOccurrence(db, calendar, from, to, anchor)
  {
    hide Suppressed, ValidAxes, Expansion;
    var c := EffectiveConfig(db.groups, anchor);
    if c.None? {
      return false;
    }
    var exceptions := FindExceptions(db, anchor.id);
    var occurrences := Engine.ExpandOccurrences(anchor, c.value, exceptions, from, to);
    for i := 0 to |occurrences|
      invariant forall o :: o in occurrences[..i] ==>
        !(o.completedAt.None? && !(o.originalStart.Some? && (anchor.id, o.originalStart.value) in suppressed))
    {
      var o := occurrences[i];
      assert occurrences[..i + 1] == occurrences[..i] + [o];
      if o.completedAt.None? && !(o.originalStart.Some? && (anchor.id, o.originalStart.value) in suppressed) {
        assert o in Recurrences(db, anchor, from, to);
        return true;
      }
    }
    assert occurrences[..|occurrences|] == occurrences;
    return false;
  }

  predicate Excluded(exclude: Option<Id>, row: Task) {
    exclude == Some(row.id)
  }

  method FindClashingRecurringAnchors(db: Db, calendar: Id, from: int, to: int, exclude: Option<Id>)
    returns (clashing: seq<Task>)
    requires Structure(db)
    ensures forall row :: row in clashing <==>
      && row.id in db.tasks && db.tasks[row.id] == row && row.deletedAt.None? && row.calendarId == calendar
        && !Excluded(exclude, row)
      && row.parentTaskId.None? && HasLiveOccurrence(db, calendar, from, to, row)
  {
    hide LinksValid, OneChildPerSlot, SingleOwner, ExceptionsKeyed, ValidAxes, HasLiveOccurrence;
    var ownRuleAnchors := FindAll(db, (row: Task) =>
      row.calendarId == calendar && row.config.Some? && row.parentTaskId.None? && !Excluded(exclude, row));
    var groupAnchors := FindAll(db, (row: Task) =>
      row.calendarId == calendar && row.config.None? && row.groupId.Some? && row.parentTaskId.None?
        && !Excluded(exclude, row));
    var suppressed := BuildOverrideSuppressionSet(db, {calendar}, from, to);
    var anchors := ownRuleAnchors + groupAnchors;
    clashing := [];
    for i := 0 to |anchors|
      invariant forall row :: row in clashing <==> row in anchors[..i] && HasLiveOccurrence(db, calendar, from, to, row)
    {
      assert anchors[..i + 1] == anchors[..i] + [anchors[i]];
      assert anchors[i] in anchors;
      var clashes := AnchorClashes(db, calendar, from, to, anchors[i], suppressed);
      if clashes {
        clashing := clashing + [anchors[i]];
      }
    }
    assert anchors[..|anchors|] == anchors;
    forall row: Task | row.parentTaskId.None? && HasLiveOccurrence(db, calendar, from, to, row)
      ensures row.config.Some? || row.groupId.Some?
    {
      OnlyRulesRecur(db, calendar, from, to, row);
    }
  }

  lemma OnlyRulesRecur(db: Db, calendar: Id, from: int, to: int, row: Task)
    requires HasLiveOccurrence(db, calendar, from, to, row)
    ensures row.config.Some? || row.groupId.Some?
  {
    hide Expansion, Suppressed;
  }

  predicate OneOffClash(calendar: Id, from: int, to: int, row: Task) {
    row.calendarId == calendar && row.config.None? && row.completedAt.None? && RowMeetsWindow(row, from, to)
  }

  method FindClashingOneOffs(db: Db, calendar: Id, from: int, to: int, exclude: Option<Id>) returns (rows: seq<Task>)
    requires RowsValid(db)
    ensures forall row :: row in rows <==>
      row.id in db.tasks && db.tasks[row.id] == row && row.deletedAt.None? && OneOffClash(calendar, from, to, row)
        && !Excluded(exclude, row)
  {
    var timedClashes := FindAll(db, (row: Task) =>
      row.calendarId == calendar && row.config.None? && row.completedAt.None? && row.startAt.Some?
        && row.startAt.value < to
      && row.endAt.Some? && row.endAt.value > from && !Excluded(exclude, row));
    var noEndClashes := FindAll(db, (row: Task) =>
      row.calendarId == calendar && row.config.None? && row.completedAt.None? && row.startAt.Some?
        && from <= row.startAt.value < to
      && row.endAt.None? && !Excluded(exclude, row));
    rows := timedClashes + noEndClashes;
  }

  /**
   * The conflict check: exactly the rows that clash, the excluded one aside, each
   * once, ordered by start.
   */
  method FindOverlapping(db: Db, calendar: Id, from: int, to: int, exclude: Option<Id>) returns (rows: seq<Task>)
    requires Structure(db)
    ensures forall row :: row in rows <==>
      row.id in db.tasks && db.tasks[row.id] == row && Clashes(db, calendar, from, to, row) && exclude != Some(row.id)
    ensures DistinctBy(rows, RowId) && OrderedBy(rows, RowStart)
  {
    StructureGivesRows(db);
    hide Structure, HasLiveOccurrence, RowMeetsWindow, RowsValid;
    var oneOffClashes := FindClashingOneOffs(db, calendar, from, to, exclude);
    var recurringClashes := FindClashingRecurringAnchors(db, calendar, from, to, exclude);
    var all := oneOffClashes + recurringClashes;
    assert forall row: Task :: row in all <==>
      row.id in db.tasks && db.tasks[row.id] == row && Clashes(db, calendar, from, to, row) && !Excluded(exclude, row);
    hide Clashes, DistinctBy;
    var unique := DedupeById(all);
    forall row | row in all ensures row in unique {
      var kept :| kept in unique && kept.id == row.id;
      assert kept in all;
    }
    rows := SortByStart(unique, RowStart, RowId);
  }

  lemma StructureGivesRows(db: Db)
    requires Structure(db)
    ensures RowsValid(db)
  {
  }
}
