/** Which requests are accepted, and why the others are refused. */
module Acceptance {
  import opened Wrappers
  import opened RecurrenceRule
  import opened TaskRows
  import opened Series
  import opened SeriesLaws
  import opened TaskStore
  import opened TaskInvariants

  /** The group is one of the calendar. */
  predicate GroupOf(db: Db, groupId: Id, calendarId: Id) {
    groupId in db.groups && db.groups[groupId].calendarId == calendarId
  }

  /** A span that does not end before it starts. */
  predicate Ordered(startAt: Option<int>, endAt: Option<int>) {
    startAt.Some? && endAt.Some? ==> startAt.value <= endAt.value
  }

  /** A creation is accepted exactly with an ordered span, a start if it recurs, and a group of its calendar. */
  lemma CreateAccepted(db: Db, newId: Id, input: CreateInput)
    ensures Create(db, newId, input).Ok? <==>
      && Ordered(input.startAt, input.endAt)
      && (input.recurrence.Some? ==> input.startAt.Some?)
      && (input.groupId.Some? ==> GroupOf(db, input.groupId.value, input.calendarId))
    ensures Create(db, newId, input) == Refused(NotFound) ==> input.groupId.Some? && input.groupId.value !in db.groups
  {
    hide ToConfig;
  }

  /**
   * An edit is accepted exactly on a live row, without a rule for an override, with an
   * ordered span afterwards, and with a group of the row's calendar if it changes.
   */
  lemma UpdateAccepted(db: Db, id: Id, patch: UpdateInput, now: int)
    ensures Update(db, id, patch, now).Ok? <==>
      && id in db.tasks && db.tasks[id].deletedAt.None?
      && !(db.tasks[id].parentTaskId.Some? && patch.recurrence.Some? && patch.recurrence.value.Some?)
      && Ordered(if patch.startAt.Some? then patch.startAt.value else db.tasks[id].startAt,
                 if patch.endAt.Some? then patch.endAt.value else db.tasks[id].endAt)
      && (patch.groupId.Some? && patch.groupId.value.Some? && patch.groupId.value != db.tasks[id].groupId ==>
           GroupOf(db, patch.groupId.value.value, db.tasks[id].calendarId))
    ensures !IsLive(db, id) ==> Update(db, id, patch, now) == Refused(NotFound)
  {
    hide Swept, ToConfig, RuleInputsChanged;
  }

  /** Completions and removals are refused only of what is not there. */
  lemma LiveAccepted(db: Db, id: Id, t: int, completed: bool, mode: DeleteMode, now: int)
    requires Structure(db)
    ensures SetCompleted(db, id, completed, now).Ok? <==> IsLive(db, id)
    ensures SetOccurrenceCompleted(db, id, t, completed, now).Ok? <==> IsLive(db, id)
    ensures Remove(db, id, mode, now).Ok? <==> IsLive(db, id)
    ensures EndSeriesAt(db, id, t, now).Ok? <==> IsLive(db, id)
  {
    hide Structure, Upserted, Tombstoned, Swept, TruncatedRow;
  }

  /**
   * A change to one occurrence of a task with its own rule is accepted exactly when the
   * slot has no override and - unless it only skips or completes - the rule generates it.
   */
  lemma OverrideAccepted(db: Db, id: Id, t: int, ch: OverrideChanges, now: int)
    requires IsLive(db, id) && db.tasks[id].config.Some?
    ensures ApplyOccurrenceOverride(db, id, t, ch, now).Ok? <==>
      && !HasChildAt(db, id, t)
      && (ch.overrideStartAt.Some? || ch.overrideEndAt.Some? || ch.overrideTitle.Some? ==>
           IsGenerated(db.tasks[id], db.tasks[id].config.value, t))
    ensures HasChildAt(db, id, t) ==> ApplyOccurrenceOverride(db, id, t, ch, now) == Refused(Overridden)
  {
    hide IsGenerated, HasChildAt, Upserted;
  }

  /** The child that an override of the slot is about. */
  ghost function ChildOf(db: Db, p: Id, t: int, newId: Id): Task
    requires p in db.tasks
  {
    if HasChildAt(db, p, t) then db.tasks[ChildAt(db, p, t)] else ChildRow(db.tasks[p], newId, t)
  }

  /**
   * An override without a patch is accepted exactly of a live master, at a slot that has
   * one or is generated, if the span it takes over does not run backwards.
   */
  lemma CreateOverrideAccepted(db: Db, p: Id, t: int, newId: Id, now: int)
    requires Structure(db) && newId !in db.tasks
    ensures CreateOrUpdateOverride(db, p, t, NO_PATCH, newId, now).Ok? <==>
      && IsLive(db, p) && db.tasks[p].parentTaskId.None?
      && (HasChildAt(db, p, t) || EffectivelyGenerates(db.tasks[p], EffectiveConfig(db.groups, db.tasks[p]), t))
      && var child := ChildOf(db, p, t, newId);
         var taken := if (p, t) in db.exceptions then Absorbed(child, db.tasks[p], db.exceptions[(p, t)]) else child;
         Ordered(taken.startAt, taken.endAt)
  {
    hide EffectivelyGenerates, EffectiveConfig, HasChildAt, Update, Absorbed;
    if IsLive(db, p) && db.tasks[p].parentTaskId.None? {
      var parent := db.tasks[p];
      assert parent.id == p;
      var child := ChildOf(db, p, t, newId);
      assert HasChildAt(db, p, t) ==> child.id == ChildAt(db, p, t);
      var owned := Owned(db, parent, t, child);
      var taken := if (p, t) in db.exceptions then Absorbed(child, parent, db.exceptions[(p, t)]) else child;
      assert taken.deletedAt == child.deletedAt && taken.id == child.id by { AbsorbedKeepsRow(child, parent); }
      assert owned.tasks[child.id] == taken;
      hide Structure, Owned;
      UpdateAccepted(owned, child.id, NO_PATCH, now);
    }
  }

  lemma AbsorbedKeepsRow(child: Task, parent: Task)
    ensures forall e ::
      Absorbed(child, parent, e).deletedAt == child.deletedAt && Absorbed(child, parent, e).id == child.id
  {
  }

  /** A split that cuts a series is accepted exactly when the group it asks for is one of the calendar. */
  lemma SplitAccepted(db: Db, id: Id, t: int, ch: SplitChanges, newId: Id, now: int)
    requires IsLive(db, id) && db.tasks[id].config.Some? && db.tasks[id].startAt != Some(t)
    ensures SplitSeries(db, id, t, ch, newId, now).Ok? <==>
      (ch.groupId.Some? && ch.groupId.value.Some? ==> GroupOf(db, ch.groupId.value.value, db.tasks[id].calendarId))
  {
    hide Swept, SplitRow, TruncatedRow, CopiedExceptions;
  }
}
