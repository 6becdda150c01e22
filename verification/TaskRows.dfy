/** The rows of the task store and the occurrences reads compute from them. */
module TaskRows {
  import opened Wrappers
  import opened RecurrenceRule

  type Id = nat

  /** Instants are UTC milliseconds; `offset` is the fixed offset of the task's zone. */
  datatype Task = Task(
    id: Id,
    calendarId: Id,
    groupId: Option<Id>,
    title: string,
    startAt: Option<int>,
    endAt: Option<int>,
    offset: int,
    completedAt: Option<int>,
    config: Option<Config>,
    parentTaskId: Option<Id>,
    originalStartAt: Option<int>,
    detachedAt: Option<int>,
    deletedAt: Option<int>)

  /** A per-occurrence exception; its key is the pair (task id, original start). */
  datatype OccurrenceException = OccurrenceException(
    isSkipped: bool,
    overrideStartAt: Option<int>,
    overrideEndAt: Option<int>,
    overrideTitle: Option<string>,
    completedAt: Option<int>)

  datatype Occurrence = Occurrence(
    taskId: Id,
    originalStart: Option<int>,
    occurrenceStart: Option<int>,
    occurrenceEnd: Option<int>,
    title: string,
    completedAt: Option<int>,
    isRecurring: bool,
    isException: bool,
    parentTaskId: Option<Id>,
    isDetached: bool)

  /** The fixed length of a series' occurrences, or none for an end-less anchor. */
  function Duration(task: Task): Option<int> {
    if task.startAt.Some? && task.endAt.Some? then Some(task.endAt.value - task.startAt.value) else None
  }
}
