/**
 * The delta read as a replication protocol. Rows are stamped when a statement
 * writes them but become visible only when their transaction commits, so each
 * delta reaches back by an overlap lag. A client that loads once and then applies
 * deltas holds exactly the server's live rows and their exceptions after each of
 * them, provided every transaction commits its stamps in less than the lag - and no
 * later - and the client re-reads the exceptions of every row it is sent; a client
 * that leaves out timeless todos also needs that no timed row becomes one.
 */
module DeltaSync {
  import opened Wrappers

  const DELTA_OVERLAP_LAG_MS := 5000

  type Id = nat
  type Tx = nat

  /** The exception row of one slot; a deletion leaves no tombstone. */
  datatype Slot = Slot(content: int, updatedAt: int)

  /** `timed` says whether the row has a start; without one it is a todo. */
  datatype Row = Row(content: int, timed: bool, updatedAt: int, deletedAt: Option<int>, slots: map<int, Slot>)

  datatype Fields = Fields(content: int, timed: bool)

  /** An exception written, or deleted. */
  datatype SlotChange = SlotChange(content: Option<int>, stamp: int)

  /** The stamped changes to a row by a transaction in flight; without `fields` it is merely touched. */
  datatype Pending = Pending(fields: Option<Fields>, buried: bool, stamp: int, slots: map<int, SlotChange>)

  /** What a client holds of a row. */
  datatype Copy = Copy(content: int, slots: map<int, int>)

  /**
   * What a client makes of the exceptions in a delta: it reads those of every row it is
   * sent anew, adds the ones it is sent to those it holds, or takes the ones it is sent
   * as all there are.
   */
  datatype Policy = ReRead | AddSent | TakeSent

  datatype World = World(
    includeTodos: bool,
    policy: Policy,
    clock: int,
    committed: map<Id, Row>,
    open: map<Tx, map<Id, Pending>>,
    client: map<Id, Copy>,
    cursor: Option<int>,
    captured: Option<int>)

  datatype Event =
    | Tick(millis: nat)
    | Write(tx: Tx, id: Id, content: int, timed: bool)
    | WriteSlot(tx: Tx, id: Id, t: int, slot: Option<int>)
    | Remove(tx: Tx, id: Id)
    | Commit(tx: Tx)
    | Abort(tx: Tx)
    | Capture
    | Receive

  // --- the server ---------------------------------------------------------------

  predicate IsShown(row: Row, includeTodos: bool) {
    row.deletedAt.None? && (includeTodos || row.timed)
  }

  function SlotsOf(row: Row): map<int, int> {
    map t | t in row.slots :: row.slots[t].content
  }

  /** The rows a reader sees, with their exceptions. */
  function Live(committed: map<Id, Row>, includeTodos: bool): map<Id, Copy> {
    map id | id in committed && IsShown(committed[id], includeTodos) ::
      Copy(committed[id].content, SlotsOf(committed[id]))
  }

  function StoredSlots(slots: map<int, Slot>, changes: map<int, SlotChange>): map<int, Slot> {
    map t | t in slots.Keys + changes.Keys && (t in changes ==> changes[t].content.Some?) ::
      if t in changes then Slot(changes[t].content.value, changes[t].stamp) else slots[t]
  }

  /** A row after its changes; `None` when there is no such row to touch. */
  function Stored(committed: map<Id, Row>, id: Id, p: Pending): Option<Row> {
    if id !in committed && p.fields.None? then None
    else
      var base := if id in committed then committed[id] else Row(0, false, 0, None, map[]);
      var fields := p.fields.Or(Fields(base.content, base.timed));
      Some(Row(fields.content, fields.timed, p.stamp, if p.buried then Some(p.stamp) else base.deletedAt,
        StoredSlots(base.slots, p.slots)))
  }

  function Applied(committed: map<Id, Row>, changes: map<Id, Pending>): map<Id, Row> {
    map id | id in committed.Keys + changes.Keys && (id in changes ==> Stored(committed, id, changes[id]).Some?) ::
      if id in changes then Stored(committed, id, changes[id]).value else committed[id]
  }

  function ChangesOf(w: World, tx: Tx): map<Id, Pending> {
    if tx in w.open then w.open[tx] else map[]
  }

  /** The row's changes so far in this transaction, stamped anew. */
  function Touched(changes: map<Id, Pending>, id: Id, stamp: int): Pending {
    if id in changes then changes[id].(stamp := stamp) else Pending(None, false, stamp, map[])
  }

  // --- the delta ------------------------------------------------------------------

  datatype Delta = Delta(tasks: map<Id, int>, deleted: set<Id>, exceptions: map<Id, map<int, int>>)

  function ChangedSlots(row: Row, since: int): map<int, int> {
    map t | t in row.slots && row.slots[t].updatedAt > since :: row.slots[t].content
  }

  /**
   * The changed rows, the tombstones and the changed exceptions of live rows that a
   * client with cursor `since` is sent; a first contact is sent none.
   */
  function FindChangedSince(committed: map<Id, Row>, since: Option<int>, includeTodos: bool): Delta {
    if since.None? then Delta(map[], {}, map[])
    else
      var effectiveSince := since.value - DELTA_OVERLAP_LAG_MS;
      Delta(
        map id | id in committed && IsShown(committed[id], includeTodos)
          && committed[id].updatedAt > effectiveSince :: committed[id].content,
        set id | id in committed && committed[id].deletedAt.Some? && committed[id].deletedAt.value > effectiveSince,
        map id | id in committed && committed[id].deletedAt.None? :: ChangedSlots(committed[id], effectiveSince))
  }

  function SentSlots(d: Delta, id: Id): map<int, int> {
    if id in d.exceptions then d.exceptions[id] else map[]
  }

  function HeldSlots(client: map<Id, Copy>, id: Id): map<int, int> {
    if id in client then client[id].slots else map[]
  }

  /** The client's exceptions of row `id` after a delta. */
  function MergedSlots(policy: Policy, committed: map<Id, Row>, client: map<Id, Copy>, d: Delta,
                       id: Id): map<int, int> {
    match policy
    case ReRead => if id in d.tasks && id in committed then SlotsOf(committed[id]) else HeldSlots(client, id)
    case AddSent => HeldSlots(client, id) + SentSlots(d, id)
    case TakeSent => if id in d.tasks then SentSlots(d, id) else HeldSlots(client, id)
  }

  function Merged(policy: Policy, committed: map<Id, Row>, client: map<Id, Copy>, d: Delta): map<Id, Copy> {
    map id | id in client.Keys + d.tasks.Keys && id !in d.deleted ::
      Copy(if id in d.tasks then d.tasks[id] else client[id].content, MergedSlots(policy, committed, client, d, id))
  }

  /** Applying a delta, or - when there is no cursor yet - loading everything. */
  function Synced(w: World): map<Id, Copy> {
    if w.cursor.None? then Live(w.committed, w.includeTodos)
    else Merged(w.policy, w.committed, w.client, FindChangedSince(w.committed, w.cursor, w.includeTodos))
  }

  // --- runs --------------------------------------------------------------------------

  predicate Enabled(w: World, e: Event) {
    e.Receive? ==> w.captured.Some?
  }

  /** Writes, slot writes and removals restamp the row; a removal is final. */
  function Changed(w: World, e: Event): Pending
    requires e.Write? || e.WriteSlot? || e.Remove?
  {
    var p := Touched(ChangesOf(w, e.tx), e.id, w.clock);
    match e
    case Write(_, _, content, timed) => p.(fields := Some(Fields(content, timed)))
    case WriteSlot(_, _, t, slot) => p.(slots := p.slots[t := SlotChange(slot, w.clock)])
    case Remove(_, _) => p.(buried := true)
  }

  function Next(w: World, e: Event): World
    requires Enabled(w, e)
  {
    match e
    case Tick(millis) => w.(clock := w.clock + millis)
    case Commit(tx) => w.(committed := Applied(w.committed, ChangesOf(w, tx)), open := w.open - {tx})
    case Abort(tx) => w.(open := w.open - {tx})
    case Capture => w.(captured := Some(w.clock))
    case Receive => w.(client := Synced(w), cursor := w.captured, captured := None)
    case _ => w.(open := w.open[e.tx := ChangesOf(w, e.tx)[e.id := Changed(w, e)]])
  }

  /** Every row committed by `e` was stamped at most `bound` ms ago. */
  predicate CommitsWithin(w: World, e: Event, bound: int) {
    e.Commit? ==> forall id :: id in ChangesOf(w, e.tx) ==> w.clock - ChangesOf(w, e.tx)[id].stamp <= bound
  }

  /** No write committed by `e` turns a live timed row into a todo. */
  predicate KeepsTimes(w: World, e: Event) {
    e.Commit? ==>
      forall id :: id in ChangesOf(w, e.tx) && id in w.committed ==> TimesKept(w.committed[id], ChangesOf(w, e.tx)[id])
  }

  /** The change does not turn a live timed row into a todo. */
  predicate TimesKept(row: Row, p: Pending) {
    row.timed && row.deletedAt.None? ==> p.fields.None? || p.fields.value.timed || p.buried
  }

  ghost predicate IsRun(states: seq<World>, events: seq<Event>, bound: int) {
    && |states| == |events| + 1
    && states[0].open == map[] && states[0].cursor.None? && states[0].captured.None?
    && forall i :: 0 <= i < |events| ==>
         Enabled(states[i], events[i]) && CommitsWithin(states[i], events[i], bound)
           && states[i + 1] == Next(states[i], events[i])
  }

  /** The client's copy is the server's live rows with their exceptions. */
  predicate InSync(w: World) {
    w.client == Live(w.committed, w.includeTodos)
  }

  // --- a client that re-reads exceptions --------------------------------------------------

  /** The client has row `id` right, or the next delta carries it. */
  predicate RowCovered(client: map<Id, Copy>, id: Id, row: Row, includeTodos: bool, since: int) {
    if IsShown(row, includeTodos) then (id in client && client[id] == Copy(row.content, SlotsOf(row)))
      || row.updatedAt > since
    else if row.deletedAt.None? then id !in client
    else id !in client || row.deletedAt.value > since
  }

  ghost predicate AllCovered(client: map<Id, Copy>, committed: map<Id, Row>, includeTodos: bool, since: int) {
    && (forall id :: id in client ==> id in committed)
    && forall id :: id in committed ==> RowCovered(client, id, committed[id], includeTodos, since)
  }

  /** Every row the client has wrong is one the next delta will carry. */
  ghost predicate CatchesUp(w: World) {
    && (w.captured.Some? ==> w.captured.value <= w.clock)
    && (w.cursor.Some? ==>
         w.cursor.value <= w.clock && AllCovered(w.client, w.committed, w.includeTodos,
           w.cursor.value - DELTA_OVERLAP_LAG_MS))
  }

  /** Changes stamped after `since` leave a covered row covered. */
  lemma ChangeCovers(client: map<Id, Copy>, committed: map<Id, Row>, id: Id, p: Pending, includeTodos: bool, since: int)
    requires id in client ==> id in committed
    requires id in committed ==> RowCovered(client, id, committed[id], includeTodos, since)
    requires p.stamp > since && Stored(committed, id, p).Some?
    requires includeTodos || (id in committed ==> TimesKept(committed[id], p))
    ensures RowCovered(client, id, Stored(committed, id, p).value, includeTodos, since)
  {
    hide SlotsOf, StoredSlots;
  }

  lemma CommitCovers(client: map<Id, Copy>, committed: map<Id, Row>, changes: map<Id, Pending>, includeTodos: bool,
                     since: int)
    requires AllCovered(client, committed, includeTodos, since)
    requires forall id :: id in changes ==> changes[id].stamp > since
    requires includeTodos || forall id :: id in changes && id in committed ==> TimesKept(committed[id], changes[id])
    ensures AllCovered(client, Applied(committed, changes), includeTodos, since)
  {
    hide RowCovered, Stored;
    forall id | id in Applied(committed, changes)
      ensures RowCovered(client, id, Applied(committed, changes)[id], includeTodos, since)
    {
      if id in changes {
        ChangeCovers(client, committed, id, changes[id], includeTodos, since);
      }
    }
    forall id | id in client ensures id in Applied(committed, changes) {
      if id in changes {
        TouchStores(committed, id, changes[id]);
      }
    }
  }

  lemma TouchStores(committed: map<Id, Row>, id: Id, p: Pending)
    requires id in committed
    ensures Stored(committed, id, p).Some?
  {
  }

  /** Below the lag, commits never slip behind the cursor. */
  lemma StepCatchesUp(w: World, e: Event, bound: int)
    requires CatchesUp(w) && Enabled(w, e) && CommitsWithin(w, e, bound) && bound < DELTA_OVERLAP_LAG_MS
    requires w.policy == ReRead && (w.includeTodos || KeepsTimes(w, e))
    ensures CatchesUp(Next(w, e)) && Next(w, e).includeTodos == w.includeTodos && Next(w, e).policy == w.policy
    ensures e.Receive? ==> InSync(Next(w, e))
  {
    if e.Receive? {
      hide Synced, Live, AllCovered;
      ReceiveSyncs(w);
      if w.captured.Some? {
        LiveIsCovered(w.committed, w.includeTodos, w.captured.value - DELTA_OVERLAP_LAG_MS);
      }
    } else if e.Commit? && w.cursor.Some? {
      hide AllCovered, Applied;
      CommitCovers(w.client, w.committed, ChangesOf(w, e.tx), w.includeTodos, w.cursor.value - DELTA_OVERLAP_LAG_MS);
    } else {
      hide AllCovered, Applied, Changed;
    }
  }

  lemma LiveIsCovered(committed: map<Id, Row>, includeTodos: bool, since: int)
    ensures AllCovered(Live(committed, includeTodos), committed, includeTodos, since)
  {
    hide SlotsOf;
  }

  lemma ReceiveSyncs(w: World)
    requires CatchesUp(w) && w.policy == ReRead
    ensures Synced(w) == Live(w.committed, w.includeTodos)
  {
    if w.cursor.Some? {
      hide SlotsOf, ChangedSlots;
      forall id ensures id in Synced(w) <==> id in Live(w.committed, w.includeTodos)
        ensures id in Synced(w) ==> Synced(w)[id] == Live(w.committed, w.includeTodos)[id]
      {
        if id in w.committed {
          assert RowCovered(w.client, id, w.committed[id], w.includeTodos, w.cursor.value - DELTA_OVERLAP_LAG_MS);
        }
      }
    }
  }

  lemma {:induction false} RunCatchesUp(states: seq<World>, events: seq<Event>, bound: int, i: nat)
    requires IsRun(states, events, bound) && bound < DELTA_OVERLAP_LAG_MS && i <= |events|
    requires states[0].policy == ReRead
    requires states[0].includeTodos || forall j :: 0 <= j < i ==> KeepsTimes(states[j], events[j])
    ensures CatchesUp(states[i]) && states[i].includeTodos == states[0].includeTodos && states[i].policy == ReRead
    ensures i > 0 && events[i - 1].Receive? ==> InSync(states[i])
  {
    hide CatchesUp, InSync, Next, CommitsWithin, KeepsTimes;
    if i == 0 {
      StartCatchesUp(states[0]);
    } else {
      RunCatchesUp(states, events, bound, i - 1);
      StepCatchesUp(states[i - 1], events[i - 1], bound);
    }
  }

  lemma StartCatchesUp(w: World)
    requires w.cursor.None? && w.captured.None?
    ensures CatchesUp(w)
  {
  }

  /** A run whose commits keep the bound and in which - with `timesKept` - no timed row becomes a todo. */
  ghost predicate IsRunOf(states: seq<World>, events: seq<Event>, bound: nat, includeTodos: bool, timesKept: bool,
                          policy: Policy) {
    && IsRun(states, events, bound) && states[0].includeTodos == includeTodos && states[0].policy == policy
    && (timesKept ==> forall j :: 0 <= j < |events| ==> KeepsTimes(states[j], events[j]))
  }

  /** In every such run each delta leaves the client in sync. */
  ghost predicate Replicates(bound: nat, includeTodos: bool, timesKept: bool, policy: Policy) {
    forall states: seq<World>, events: seq<Event>, i: int ::
      IsRunOf(states, events, bound, includeTodos, timesKept, policy) && 0 < i <= |events| && events[i - 1].Receive? ==>
        InSync(states[i])
  }

  // --- a commit one lag late ------------------------------------------------------------

  const LOST_EVENTS := [Write(1, 7, 42, true), Tick(DELTA_OVERLAP_LAG_MS), Capture, Receive, Commit(1), Capture,
    Receive]

  const IN_FLIGHT: map<Tx, map<Id, Pending>> := map[1 := map[7 := Pending(Some(Fields(42, true)), false, 0, map[])]]
  const LATE_ROW: map<Id, Row> := map[7 := Row(42, true, 0, None, map[])]

  /** A write, a full load one lag later, and the write's commit in the same millisecond. */
  function LostStates(todos: bool, policy: Policy): seq<World> {
    [World(todos, policy, 0, map[], map[], map[], None, None),
     World(todos, policy, 0, map[], IN_FLIGHT, map[], None, None),
     World(todos, policy, 5000, map[], IN_FLIGHT, map[], None, None),
     World(todos, policy, 5000, map[], IN_FLIGHT, map[], None, Some(5000)),
     World(todos, policy, 5000, map[], IN_FLIGHT, map[], Some(5000), None),
     World(todos, policy, 5000, LATE_ROW, map[], map[], Some(5000), None),
     World(todos, policy, 5000, LATE_ROW, map[], map[], Some(5000), Some(5000)),
     World(todos, policy, 5000, LATE_ROW, map[], map[], Some(5000), None)]
  }

  lemma LostStart(todos: bool, policy: Policy, i: nat)
    requires i < 4
    ensures LostStates(todos, policy)[i + 1] == Next(LostStates(todos, policy)[i], LOST_EVENTS[i])
  {
    hide Live;
    NothingLive(todos);
    if i == 0 {
      assert LostStates(todos, policy)[0].open[1 := map[7 := IN_FLIGHT[1][7]]] == IN_FLIGHT;
    } else {
      hide Changed;
    }
  }

  lemma LostEnd(todos: bool, policy: Policy, i: nat)
    requires 4 <= i < 7
    ensures LostStates(todos, policy)[i + 1] == Next(LostStates(todos, policy)[i], LOST_EVENTS[i])
  {
    hide FindChangedSince, Merged, Applied, Changed;
    if i == 4 {
      LateRowApplied();
      assert IN_FLIGHT - {1} == map[];
    } else if i == 6 {
      LateRowMissed(todos, policy);
    }
  }

  /** The only commit is one lag late, and of a new row. */
  lemma LostStepIsTimely(todos: bool, policy: Policy, i: nat, bound: nat)
    requires i < 7 && bound >= DELTA_OVERLAP_LAG_MS
    ensures
      var w := LostStates(todos, policy)[i];
      Enabled(w, LOST_EVENTS[i]) && CommitsWithin(w, LOST_EVENTS[i], bound) && KeepsTimes(w, LOST_EVENTS[i])
  {
  }

  lemma NothingLive(todos: bool)
    ensures Live(map[], todos) == map[]
  {
  }

  lemma LateRowApplied()
    ensures Applied(map[], IN_FLIGHT[1]) == LATE_ROW
  {
    assert StoredSlots(map[], map[]) == map[];
  }

  lemma LateRowMissed(todos: bool, policy: Policy)
    ensures Merged(policy, LATE_ROW, map[], FindChangedSince(LATE_ROW, Some(5000), todos)) == map[]
  {
  }

  /** A write stamped, then committed a full lag later in the very millisecond of the cursor, is lost. */
  lemma LateCommitIsLost(bound: nat, includeTodos: bool, timesKept: bool, policy: Policy)
    requires bound >= DELTA_OVERLAP_LAG_MS
    ensures !Replicates(bound, includeTodos, timesKept, policy)
  {
    var states := LostStates(includeTodos, policy);
    assert states[0] == World(includeTodos, policy, 0, map[], map[], map[], None, None) && |states| == 8;
    assert !InSync(states[7]) by { LateRowIsLive(includeTodos); }
    hide Next, Enabled, CommitsWithin, KeepsTimes, LostStates, InSync;
    forall i | 0 <= i < 7
      ensures Enabled(states[i], LOST_EVENTS[i]) && CommitsWithin(states[i], LOST_EVENTS[i], bound)
        && states[i + 1] == Next(states[i], LOST_EVENTS[i]) && KeepsTimes(states[i], LOST_EVENTS[i])
    {
      if i < 4 {
        LostStart(includeTodos, policy, i);
      } else {
        LostEnd(includeTodos, policy, i);
      }
      LostStepIsTimely(includeTodos, policy, i, bound);
    }
    assert IsRunOf(states, LOST_EVENTS, bound, includeTodos, timesKept, policy);
    assert LOST_EVENTS[6].Receive?;
  }

  lemma LateRowIsLive(todos: bool)
    ensures 7 in Live(LATE_ROW, todos)
  {
  }

  // --- one change to a row the client has loaded -----------------------------------------

  predicate ChangesSeven(e: Event) {
    (e.Write? || e.WriteSlot?) && e.tx == 1 && e.id == 7
  }

  /** A full load of row 7, one lag after it was written, and one change to it that commits at once. */
  function OneChange(e: Event): seq<Event> {
    [Capture, Receive, e, Commit(1), Capture, Receive]
  }

  function Loaded(todos: bool, policy: Policy, row: Row): World {
    World(todos, policy, 5000, map[7 := row], map[], Live(map[7 := row], todos), Some(5000), None)
  }

  function RowAfter(todos: bool, policy: Policy, row: Row, e: Event): Row
    requires ChangesSeven(e)
  {
    TouchStores(map[7 := row], 7, Changed(Loaded(todos, policy, row), e));
    Stored(map[7 := row], 7, Changed(Loaded(todos, policy, row), e)).value
  }

  function OneChangeStates(todos: bool, policy: Policy, row: Row, e: Event): seq<World>
    requires ChangesSeven(e)
  {
    var loaded := Loaded(todos, policy, row);
    var changed := loaded.(committed := map[7 := RowAfter(todos, policy, row, e)]);
    [World(todos, policy, 5000, map[7 := row], map[], map[], None, None),
     World(todos, policy, 5000, map[7 := row], map[], map[], None, Some(5000)),
     loaded,
     loaded.(open := map[1 := map[7 := Changed(loaded, e)]]),
     changed,
     changed.(captured := Some(5000)),
     changed.(client := Synced(changed.(captured := Some(5000))))]
  }

  lemma ChangeIsWritten(todos: bool, policy: Policy, row: Row, e: Event)
    requires ChangesSeven(e)
    ensures
      var loaded := Loaded(todos, policy, row);
      Next(loaded, e) == loaded.(open := map[1 := map[7 := Changed(loaded, e)]])
  {
    hide Live, Changed;
    var loaded := Loaded(todos, policy, row);
    assert loaded.open[1 := ChangesOf(loaded, 1)[7 := Changed(loaded, e)]] == map[1 := map[7 := Changed(loaded, e)]];
  }

  lemma ChangeIsCommitted(todos: bool, policy: Policy, row: Row, e: Event)
    requires ChangesSeven(e)
    ensures
      var loaded := Loaded(todos, policy, row);
      Next(loaded.(open := map[1 := map[7 := Changed(loaded, e)]]), Commit(1))
        == loaded.(committed := map[7 := RowAfter(todos, policy, row, e)])
  {
    hide Live, Changed, Stored;
    var changes := map[7 := Changed(Loaded(todos, policy, row), e)];
    TouchStores(map[7 := row], 7, changes[7]);
    assert Applied(map[7 := row], changes) == map[7 := RowAfter(todos, policy, row, e)];
    assert map[1 := changes] - {1} == map[];
  }

  lemma OneChangeStep(todos: bool, policy: Policy, row: Row, e: Event, i: nat)
    requires ChangesSeven(e) && i < 6
    ensures OneChangeStates(todos, policy, row, e)[i + 1]
      == Next(OneChangeStates(todos, policy, row, e)[i], OneChange(e)[i])
  {
    hide Live, Merged, Changed, FindChangedSince, RowAfter;
    if i == 2 {
      hide Next;
      ChangeIsWritten(todos, policy, row, e);
    } else if i == 3 {
      hide Next;
      ChangeIsCommitted(todos, policy, row, e);
    } else {
      hide Applied;
    }
  }

  /** The change commits as soon as it is written, and an exception leaves the row's times alone. */
  lemma OneChangeIsTimely(todos: bool, policy: Policy, row: Row, e: Event, i: nat, bound: nat)
    requires ChangesSeven(e) && i < 6
    ensures
      var w := OneChangeStates(todos, policy, row, e)[i];
      && Enabled(w, OneChange(e)[i]) && CommitsWithin(w, OneChange(e)[i], bound)
      && (e.WriteSlot? ==> KeepsTimes(w, OneChange(e)[i]))
  {
    hide Live, Synced, RowAfter;
  }

  lemma OneChangeIsRun(bound: nat, todos: bool, timesKept: bool, policy: Policy, row: Row, e: Event)
    requires ChangesSeven(e) && (timesKept ==> e.WriteSlot?)
    ensures IsRunOf(OneChangeStates(todos, policy, row, e), OneChange(e), bound, todos, timesKept, policy)
  {
    var states, events := OneChangeStates(todos, policy, row, e), OneChange(e);
    assert states[0] == World(todos, policy, 5000, map[7 := row], map[], map[], None, None) && |states| == 7
      && |events| == 6;
    hide Next, Enabled, CommitsWithin, KeepsTimes, OneChangeStates, OneChange;
    forall i | 0 <= i < 6
      ensures Enabled(states[i], events[i]) && CommitsWithin(states[i], events[i], bound)
        && states[i + 1] == Next(states[i], events[i]) && (e.WriteSlot? ==> KeepsTimes(states[i], events[i]))
    {
      OneChangeStep(todos, policy, row, e, i);
      OneChangeIsTimely(todos, policy, row, e, i, bound);
    }
  }

  /** Such a run ends out of sync when the client does not get the change right. */
  lemma OneChangeBreaks(bound: nat, todos: bool, timesKept: bool, policy: Policy, row: Row, e: Event)
    requires ChangesSeven(e) && (timesKept ==> e.WriteSlot?)
    requires
      var after := map[7 := RowAfter(todos, policy, row, e)];
      Merged(policy, after, Live(map[7 := row], todos), FindChangedSince(after, Some(5000), todos))
        != Live(after, todos)
    ensures !Replicates(bound, todos, timesKept, policy)
  {
    hide Live, Merged, FindChangedSince, RowAfter, IsRunOf;
    OneChangeIsRun(bound, todos, timesKept, policy, row, e);
    assert OneChange(e)[5].Receive?;
    assert !InSync(OneChangeStates(todos, policy, row, e)[6]);
  }

  /**
   * However promptly it commits, an edit that strips a row of its start never reaches a
   * client that leaves out todos: neither as a changed row nor as a tombstone.
   */
  lemma StrippedRowIsKept(bound: nat, policy: Policy)
    ensures !Replicates(bound, false, false, policy)
  {
    var row, e := Row(42, true, 0, None, map[]), Write(1, 7, 43, false);
    var after := map[7 := RowAfter(false, policy, row, e)];
    assert 7 in Merged(policy, after, Live(map[7 := row], false), FindChangedSince(after, Some(5000), false));
    assert 7 !in Live(after, false);
    hide Merged, FindChangedSince, Live;
    OneChangeBreaks(bound, false, false, policy, row, e);
  }

  /** Row 7 with an exception at slot 3 that is one lag old. */
  const EXCEPTED := Row(42, true, 0, None, map[3 := Slot(5, 0)])

  /** Exceptions are deleted without a tombstone: a client that adds what it is sent keeps them. */
  lemma DeletedExceptionIsKept(bound: nat, includeTodos: bool, timesKept: bool)
    ensures !Replicates(bound, includeTodos, timesKept, AddSent)
  {
    var e := WriteSlot(1, 7, 3, None);
    var after := map[7 := RowAfter(includeTodos, AddSent, EXCEPTED, e)];
    var client := Live(map[7 := EXCEPTED], includeTodos);
    assert client[7] == Copy(42, SlotsOf(EXCEPTED)) && 3 in SlotsOf(EXCEPTED);
    assert 3 in HeldSlots(client, 7);
    assert 3 !in SlotsOf(after[7]);
    assert 3 in Merged(AddSent, after, client, FindChangedSince(after, Some(5000), includeTodos))[7].slots;
    assert Live(after, includeTodos)[7].slots == SlotsOf(after[7]);
    hide Merged, FindChangedSince, Live;
    OneChangeBreaks(bound, includeTodos, timesKept, AddSent, EXCEPTED, e);
  }

  lemma OlderIsNotSent(row: Row, client: map<Id, Copy>, includeTodos: bool)
    requires 3 in row.slots && row.slots[3].updatedAt == 0 && IsShown(row, includeTodos) && row.updatedAt == 5000
    ensures
      var after := map[7 := row];
      Merged(TakeSent, after, client, FindChangedSince(after, Some(5000), includeTodos)) != Live(after, includeTodos)
  {
    var d := FindChangedSince(map[7 := row], Some(5000), includeTodos);
    assert 7 in d.tasks && 3 !in SentSlots(d, 7);
    assert 3 !in Merged(TakeSent, map[7 := row], client, d)[7].slots;
    assert 3 in Live(map[7 := row], includeTodos)[7].slots;
  }

  /** Only changed exceptions are sent: a client that takes them for all there are loses the others. */
  lemma OlderExceptionIsDropped(bound: nat, includeTodos: bool, timesKept: bool)
    ensures !Replicates(bound, includeTodos, timesKept, TakeSent)
  {
    var e := WriteSlot(1, 7, 4, Some(6));
    var row := RowAfter(includeTodos, TakeSent, EXCEPTED, e);
    assert row.slots[3] == Slot(5, 0) && IsShown(row, includeTodos) && row.updatedAt == 5000;
    hide RowAfter;
    OlderIsNotSent(row, Live(map[7 := EXCEPTED], includeTodos), includeTodos);
    hide Merged, FindChangedSince, Live, SlotsOf;
    OneChangeBreaks(bound, includeTodos, timesKept, TakeSent, EXCEPTED, e);
  }

  /**
   * Delta replication: over every interleaving of writes, commits and deltas, the
   * client equals the server's live committed rows, with all their exceptions, after
   * each delta if and only if every stamp commits in strictly less than the overlap
   * lag, either todos are included or no timed row becomes one, and the client
   * re-reads the exceptions of the rows it is sent.
   */
  lemma ReplicatesBelowTheLag(bound: nat, includeTodos: bool, timesKept: bool, policy: Policy)
    ensures Replicates(bound, includeTodos, timesKept, policy)
      <==> bound < DELTA_OVERLAP_LAG_MS && (includeTodos || timesKept) && policy == ReRead
  {
    if bound >= DELTA_OVERLAP_LAG_MS {
      LateCommitIsLost(bound, includeTodos, timesKept, policy);
    } else if policy == AddSent {
      DeletedExceptionIsKept(bound, includeTodos, timesKept);
    } else if policy == TakeSent {
      OlderExceptionIsDropped(bound, includeTodos, timesKept);
    } else if !includeTodos && !timesKept {
      StrippedRowIsKept(bound, policy);
    } else {
      forall states: seq<World>, events: seq<Event>, i: int
        | IsRunOf(states, events, bound, includeTodos, timesKept, policy) && 0 < i <= |events| && events[i - 1].Receive?
        ensures InSync(states[i])
      {
        hide InSync, KeepsTimes;
        RunCatchesUp(states, events, bound, i);
      }
    }
  }
}
