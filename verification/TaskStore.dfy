/**
 * The tables of the task store and what each transaction makes of them. Every
 * operation maps the tables to new tables or is refused, in which case the
 * transaction rolls back.
 */
module TaskStore {
  import opened Wrappers
  import opened RecurrenceRule
  import opened TaskRows
  import opened Series
  import opened SeriesLaws

  datatype Group = Group(calendarId: Id, config: Option<Config>)

  datatype Db = Db(
    tasks: map<Id, Task>,
    exceptions: map<(Id, int), OccurrenceException>,
    groups: map<Id, Group>)

  datatype Error = NotFound | BadRequest | NotGenerated | Overridden

  // --- requests ---------------------------------------------------------------

  /** A recurrence payload; absent optional keys are `None`. */
  datatype RuleDto = RuleDto(
    frequency: Frequency,
    interval: Option<int>,
    byWeekday: Option<seq<int>>,
    byMonthDay: Option<seq<int>>,
    byMonth: Option<seq<int>>,
    bySetPos: Option<seq<int>>,
    monthlyAnchor: Option<MonthlyAnchor>,
    endType: Option<EndType>,
    endDate: Option<int>,
    count: Option<int>)

  function ToConfig(dto: RuleDto): Config {
    Config(dto.frequency, dto.interval.Or(1), dto.byWeekday.Or([]), dto.byMonthDay.Or([]), dto.byMonth.Or([]),
           dto.bySetPos.Or([]), dto.monthlyAnchor, dto.endType.Or(Never), dto.endDate, dto.count)
  }

  /** Tri-state patches: the outer option is "key present", the inner one "not null". */
  datatype UpdateInput = UpdateInput(
    title: Option<string>,
    startAt: Option<Option<int>>,
    endAt: Option<Option<int>>,
    offset: Option<int>,
    groupId: Option<Option<Id>>,
    recurrence: Option<Option<RuleDto>>)

  datatype OverrideChanges = OverrideChanges(
    overrideStartAt: Option<Option<int>>,
    overrideEndAt: Option<Option<int>>,
    overrideTitle: Option<Option<string>>,
    isSkipped: Option<bool>,
    completedAt: Option<Option<int>>)

  datatype CreateInput = CreateInput(
    calendarId: Id,
    groupId: Option<Id>,
    title: string,
    startAt: Option<int>,
    endAt: Option<int>,
    offset: int,
    recurrence: Option<RuleDto>)

  datatype DeleteMode = RemoveSlot | RevertSlot

  predicate ValidDto(dto: Option<RuleDto>) {
    dto.Some? ==> ValidAxes(ToConfig(dto.value))
  }

  const NO_PATCH := UpdateInput(None, None, None, None, None, None)
  const NO_CHANGES := OverrideChanges(None, None, None, None, None)

  // --- queries ----------------------------------------------------------------

  predicate IsLive(db: Db, id: Id) {
    id in db.tasks && db.tasks[id].deletedAt.None?
  }

  predicate IsChildOf(row: Task, parent: Id) {
    row.deletedAt.None? && row.parentTaskId == Some(parent)
  }

  /** `id` is a live override child of `parent` at slot `t`. */
  predicate IsChildAt(db: Db, id: Id, parent: Id, t: int) {
    id in db.tasks && IsChildOf(db.tasks[id], parent) && db.tasks[id].originalStartAt == Some(t)
  }

  ghost predicate HasChildAt(db: Db, parent: Id, t: int) {
    exists id: Id :: IsChildAt(db, id, parent, t)
  }

  ghost function ChildAt(db: Db, parent: Id, t: int): (id: Id)
    requires HasChildAt(db, parent, t)
    ensures IsChildAt(db, id, parent, t)
  {
    var id: Id :| IsChildAt(db, id, parent, t);
    id
  }

  /** Task-wins inheritance; an override child never recurs. */
  function EffectiveConfig(groups: map<Id, Group>, task: Task): Option<Config> {
    if task.parentTaskId.Some? then None
    else if task.config.Some? then task.config
    else if task.groupId.Some? && task.groupId.value in groups then groups[task.groupId.value].config
    else None
  }

  ghost predicate EffectivelyGenerates(task: Task, c: Option<Config>, t: int) {
    c.Some? && IsGenerated(task, c.value, t)
  }

  function CheckGroup(groups: map<Id, Group>, groupId: Id, calendarId: Id): Option<Error> {
    if groupId !in groups then Some(NotFound)
    else if groups[groupId].calendarId != calendarId then Some(BadRequest)
    else None
  }

  predicate EndsBeforeStart(startAt: Option<int>, endAt: Option<int>) {
    startAt.Some? && endAt.Some? && endAt.value < startAt.value
  }

  // --- exceptions -------------------------------------------------------------

  function ApplyChanges(e: OccurrenceException, ch: OverrideChanges): OccurrenceException {
    OccurrenceException(
      ch.isSkipped.Or(e.isSkipped),
      ch.overrideStartAt.Or(e.overrideStartAt),
      ch.overrideEndAt.Or(e.overrideEndAt),
      ch.overrideTitle.Or(e.overrideTitle),
      ch.completedAt.Or(e.completedAt))
  }

  const BLANK_EXCEPTION := OccurrenceException(false, None, None, None, None)

  function Upserted(exceptions: map<(Id, int), OccurrenceException>, id: Id, t: int,
                    ch: OverrideChanges): map<(Id, int), OccurrenceException> {
    exceptions[(id, t) := ApplyChanges(if (id, t) in exceptions then exceptions[(id, t)] else BLANK_EXCEPTION, ch)]
  }

  // --- operations -------------------------------------------------------------

  function Create(db: Db, newId: Id, input: CreateInput): Result<Db, Error> {
    if EndsBeforeStart(input.startAt, input.endAt) then Refused(BadRequest)
    else if input.recurrence.Some? && input.startAt.None? then Refused(BadRequest)
    else
      var bad := if input.groupId.Some? then CheckGroup(db.groups, input.groupId.value, input.calendarId) else None;
      if bad.Some? then Refused(bad.value)
      else
        var config := if input.recurrence.Some? then Some(ToConfig(input.recurrence.value)) else None;
        Ok(db.(tasks := db.tasks[newId := Task(newId, input.calendarId, input.groupId, input.title, input.startAt,
          input.endAt, input.offset, None, config, None, None, None, None)]))
  }

  /** A child row after its parent's rule became `c`: detached exactly when its slot is no longer generated. */
  ghost function SweptRow(parent: Task, c: Option<Config>, now: int, row: Task): Task {
    if IsChildOf(row, parent.id) && row.originalStartAt.Some? then
      if EffectivelyGenerates(parent, c, row.originalStartAt.value) then row.(detachedAt := None)
      else if row.detachedAt.None? then row.(detachedAt := Some(now))
      else row
    else row
  }

  ghost function Swept(tasks: map<Id, Task>, parent: Task, c: Option<Config>, now: int): map<Id, Task> {
    map id: Id | id in tasks :: SweptRow(parent, c, now, tasks[id])
  }

  function PatchedRow(task: Task, input: UpdateInput): Task {
    task.(
      title := input.title.Or(task.title),
      startAt := input.startAt.Or(task.startAt),
      endAt := input.endAt.Or(task.endAt),
      offset := input.offset.Or(task.offset),
      groupId := input.groupId.Or(task.groupId),
      config := match input.recurrence
        case None => task.config
        case Some(None) => None
        case Some(Some(dto)) => Some(ToConfig(dto)))
  }

  /** Which edits change what a series generates, so that the children are swept. */
  predicate RuleInputsChanged(task: Task, input: UpdateInput) {
    var next := PatchedRow(task, input);
    task.parentTaskId.None? &&
    ((match input.recurrence
      case None => false
      case Some(None) => task.config.Some?
      case Some(Some(_)) => true)
     || next.startAt != task.startAt || next.offset != task.offset || next.groupId != task.groupId)
  }

  function UpdateError(db: Db, id: Id, input: UpdateInput): Option<Error> {
    if !IsLive(db, id) then Some(NotFound)
    else
      var task := db.tasks[id];
      var next := PatchedRow(task, input);
      if task.parentTaskId.Some? && input.recurrence.Some? && input.recurrence.value.Some? then Some(BadRequest)
      else if EndsBeforeStart(next.startAt, next.endAt) then Some(BadRequest)
      else if input.groupId.Some? && input.groupId.value.Some? && input.groupId.value != task.groupId then
        CheckGroup(db.groups, input.groupId.value.value, task.calendarId)
      else None
  }

  ghost function Update(db: Db, id: Id, input: UpdateInput, now: int): Result<Db, Error> {
    var bad := UpdateError(db, id, input);
    if bad.Some? then Refused(bad.value)
    else
      var next := PatchedRow(db.tasks[id], input);
      var tasks := db.tasks[id := next];
      Ok(db.(tasks :=
        if RuleInputsChanged(db.tasks[id], input)
        then Swept(tasks, next, EffectiveConfig(db.groups, next), now)
        else tasks))
  }

  function SetCompleted(db: Db, id: Id, completed: bool, now: int): Result<Db, Error> {
    if !IsLive(db, id) then Refused(NotFound)
    else
      var task := db.tasks[id];
      Ok(db.(tasks := db.tasks[id := task.(completedAt :=
        if !completed then None else if task.completedAt.Some? then task.completedAt else Some(now))]))
  }

  ghost function SetOccurrenceCompleted(db: Db, id: Id, t: int, completed: bool, now: int): Result<Db, Error> {
    if !IsLive(db, id) then Refused(NotFound)
    else if db.tasks[id].config.None? then SetCompleted(db, id, completed, now)
    else if HasChildAt(db, id, t) then SetCompleted(db, ChildAt(db, id, t), completed, now)
    else Ok(db.(exceptions := Upserted(db.exceptions, id, t,
      NO_CHANGES.(completedAt := Some(if completed then Some(now) else None)))))
  }

  function BuriedRow(row: Task, k: Id, id: Id, now: int): Task {
    if k == id || IsChildOf(row, id) then row.(deletedAt := Some(now)) else row
  }

  /** Soft-deletes `id` and, when it is a series, its live override children. */
  function Tombstoned(tasks: map<Id, Task>, id: Id, now: int): map<Id, Task>
    requires id in tasks
  {
    map k: Id | k in tasks :: BuriedRow(tasks[k], k, id, now)
  }

  function Remove(db: Db, id: Id, mode: DeleteMode, now: int): Result<Db, Error> {
    if !IsLive(db, id) then Refused(NotFound)
    else
      var task := db.tasks[id];
      if task.parentTaskId.Some? && task.originalStartAt.Some? then
        var gone := db.(tasks := db.tasks[id := task.(deletedAt := Some(now))]);
        var p, t := task.parentTaskId.value, task.originalStartAt.value;
        match mode
        case RevertSlot =>
          if task.completedAt.None? then Ok(gone)
          else Ok(gone.(exceptions := Upserted(db.exceptions, p, t,
            NO_CHANGES.(completedAt := Some(task.completedAt)))))
        case RemoveSlot =>
          Ok(gone.(exceptions := Upserted(db.exceptions, p, t, NO_CHANGES.(isSkipped := Some(true)))))
      else Ok(db.(tasks := Tombstoned(db.tasks, id, now)))
  }

  predicate IsOverrideMutation(ch: OverrideChanges) {
    ch.overrideStartAt.Some? || ch.overrideEndAt.Some? || ch.overrideTitle.Some?
  }

  function CollapsedInput(ch: OverrideChanges): UpdateInput {
    NO_PATCH.(
      title := ch.overrideTitle.Or(None),
      startAt := ch.overrideStartAt,
      endAt := ch.overrideEndAt)
  }

  /** A single-occurrence change on a task without a rule of its own falls on the row itself. */
  ghost function CollapseOverride(db: Db, id: Id, ch: OverrideChanges, now: int): Result<Db, Error> {
    if ch.isSkipped == Some(true) then Remove(db, id, RemoveSlot, now)
    else
      var updated := Update(db, id, CollapsedInput(ch), now);
      if updated.Ok? && ch.completedAt.Some? then SetCompleted(updated.value, id, ch.completedAt.value.Some?, now)
      else updated
  }

  ghost function ApplyOccurrenceOverride(db: Db, id: Id, t: int, ch: OverrideChanges, now: int): Result<Db, Error> {
    if !IsLive(db, id) then Refused(NotFound)
    else if db.tasks[id].config.None? then CollapseOverride(db, id, ch, now)
    else if HasChildAt(db, id, t) then Refused(Overridden)
    else if IsOverrideMutation(ch) && !IsGenerated(db.tasks[id], db.tasks[id].config.value, t) then Refused(BadRequest)
    else Ok(db.(exceptions := Upserted(db.exceptions, id, t, ch)))
  }

  /** The snapshot an override child starts from. */
  function ChildRow(parent: Task, newId: Id, t: int): Task {
    parent.(
      id := newId,
      startAt := Some(t),
      endAt := if Duration(parent).Some? then Some(t + Duration(parent).value) else None,
      completedAt := None,
      config := None,
      parentTaskId := Some(parent.id),
      originalStartAt := Some(t),
      detachedAt := None)
  }

  /** Folds a prior exception's span, title and completion onto the child. */
  function Absorbed(child: Task, parent: Task, e: OccurrenceException): Task {
    var endAt :=
      if e.overrideEndAt.Some? then e.overrideEndAt
      else if e.overrideStartAt.Some? && Duration(parent).Some?
        then Some(e.overrideStartAt.value + Duration(parent).value)
      else child.endAt;
    child.(
      startAt := if e.overrideStartAt.Some? then e.overrideStartAt else child.startAt,
      endAt := endAt,
      title := e.overrideTitle.Or(child.title),
      completedAt := if e.completedAt.Some? then e.completedAt else child.completedAt)
  }

  /** The tables once a child row owns slot `(p, t)` and any exception there has been absorbed. */
  function Owned(db: Db, parent: Task, t: int, child: Task): Db {
    var key := (parent.id, t);
    db.(
      tasks := db.tasks[child.id := if key in db.exceptions then Absorbed(child, parent, db.exceptions[key])
        else child],
      exceptions := db.exceptions - {key})
  }

  ghost function CreateOrUpdateOverride(db: Db, p: Id, t: int, patch: UpdateInput, newId: Id,
                                        now: int): Result<Db, Error> {
    if !IsLive(db, p) then Refused(NotFound)
    else if db.tasks[p].parentTaskId.Some? then Refused(BadRequest)
    else
      var parent := db.tasks[p];
      if HasChildAt(db, p, t) then
        var child := ChildAt(db, p, t);
        Update(Owned(db, parent, t, db.tasks[child]), child, patch, now)
      else if !EffectivelyGenerates(parent, EffectiveConfig(db.groups, parent), t) then Refused(NotGenerated)
      else Update(Owned(db, parent, t, ChildRow(parent, newId, t)), newId, patch, now)
  }

  datatype SplitChanges = SplitChanges(
    title: Option<string>,
    startAt: Option<Option<int>>,
    endAt: Option<Option<int>>,
    offset: Option<int>,
    groupId: Option<Option<Id>>,
    recurrence: Option<RuleDto>)

  const NO_SPLIT_CHANGES := SplitChanges(None, None, None, None, None, None)

  function SplitAsUpdate(ch: SplitChanges): UpdateInput {
    UpdateInput(ch.title, ch.startAt, ch.endAt, ch.offset, ch.groupId,
      if ch.recurrence.Some? then Some(Some(ch.recurrence.value)) else None)
  }

  /** The overlay of a split: it does not know the ordinal and working-day selectors. */
  function CloneWithOverrides(c: Config, dto: Option<RuleDto>): Config {
    if dto.None? then c
    else
      var d := dto.value;
      c.(
        frequency := d.frequency,
        interval := d.interval.Or(c.interval),
        byWeekday := d.byWeekday.Or(c.byWeekday),
        byMonthDay := d.byMonthDay.Or(c.byMonthDay),
        byMonth := d.byMonth.Or(c.byMonth),
        endType := d.endType.Or(c.endType),
        endDate := if d.endDate.Some? then d.endDate else c.endDate,
        count := if d.count.Some? then d.count else c.count)
  }

  ghost function CountOccurrencesBefore(task: Task, c: Config, t: int): nat {
    if task.startAt.None? then 0 else |Expansion(task, c, map[], task.startAt.value - 1, t)|
  }

  ghost function ResolveSplitRecurrence(task: Task, c: Config, t: int, dto: Option<RuleDto>): Config {
    var cloned := CloneWithOverrides(c, dto);
    if c.endType == AfterCount && c.count.Some? && (dto.Some? ==> dto.value.count.None?) then
      var rest := c.count.value - CountOccurrencesBefore(task, c, t);
      cloned.(count := Some(if rest < 0 then 0 else rest))
    else cloned
  }

  function CopiedExceptions(exceptions: map<(Id, int), OccurrenceException>, from: Id, to: Id,
                            t: int): map<(Id, int), OccurrenceException> {
    exceptions + map k | k in exceptions && k.0 == from && k.1 >= t :: (to, k.1) := exceptions[k]
  }

  /** The new master of a split. */
  ghost function SplitRow(task: Task, c: Config, t: int, ch: SplitChanges, newId: Id): Task {
    var startAt := ch.startAt.Or(None).Or(t);
    var endAt := if ch.endAt.Some? then ch.endAt.value
                 else if Duration(task).Some? then Some(startAt + Duration(task).value) else None;
    Task(newId, task.calendarId, ch.groupId.Or(task.groupId), ch.title.Or(task.title), Some(startAt), endAt,
      ch.offset.Or(task.offset), None, Some(ResolveSplitRecurrence(task, c, t, ch.recurrence)), None, None, None, None)
  }

  /** The old master of a split or truncation: its rule ends the day before `t`. */
  function TruncatedRow(task: Task, t: int): Task
    requires task.config.Some?
  {
    task.(config := Some(EndedBefore(task.config.value, LocalDay(task.offset, t))))
  }

  ghost function SplitSeries(db: Db, id: Id, t: int, ch: SplitChanges, newId: Id, now: int): Result<Db, Error> {
    if !IsLive(db, id) then Refused(NotFound)
    else
      var task := db.tasks[id];
      if task.config.None? || task.startAt == Some(t) then Update(db, id, SplitAsUpdate(ch), now)
      else
        var bad := if ch.groupId.Some? && ch.groupId.value.Some?
          then CheckGroup(db.groups, ch.groupId.value.value, task.calendarId) else None;
        if bad.Some? then Refused(bad.value)
        else
          var old' := TruncatedRow(task, t);
          var tasks := db.tasks[id := old'][newId := SplitRow(task, task.config.value, t, ch, newId)];
          Ok(Db(Swept(tasks, old', old'.config, now), CopiedExceptions(db.exceptions, id, newId, t), db.groups))
  }

  ghost function EndSeriesAt(db: Db, id: Id, t: int, now: int): Result<Db, Error> {
    if !IsLive(db, id) then Refused(NotFound)
    else
      var task := db.tasks[id];
      if task.config.None? || task.startAt == Some(t) then Remove(db, id, RemoveSlot, now)
      else
        var cut := TruncatedRow(task, t);
        Ok(db.(tasks := Swept(db.tasks[id := cut], cut, cut.config, now)))
  }
}
