/**
 * The inbound flow control of one user as interleaved atomic steps: an append-only
 * buffer, a window job with a stable id, re-poll jobs with unique ids, and a mutex
 * under which turns run. Proved over every interleaving: no message is lost or
 * duplicated, at most one turn runs at a time, answers are never merged, and a
 * re-buffered batch always has a job that will drain it.
 */
module DebounceProtocol {
  import opened Wrappers

  datatype Message = Message(text: string, isVoice: bool)
  datatype Answer = Answer(text: string, callbackId: nat)

  /** A buffered message; `requeued` marks one that a drain has put back. */
  datatype Entry = Entry(message: Message, requeued: bool)

  datatype JobState = Delayed | Active | Gone
  datatype Payload = DrainBuffer | Carry(answer: Answer)
  datatype AfterJob = AfterJob(payload: Payload, state: JobState)
  datatype JobRef = NoJob | WindowJob | AfterRef(n: nat)

  /** Where a drain or an answer stands between its atomic steps. */
  datatype Phase =
    | Fired
    | Holding(batch: seq<Message>)
    | Running(batch: seq<Message>)
    | Returning(batch: seq<Message>)
    | Arming
    | AnswerHolding(answer: Answer)
    | AnswerRunning(answer: Answer)
    | AnswerArming(answer: Answer)
    | Finished

  datatype Worker = Worker(phase: Phase, job: JobRef)

  /** A turn, with the text and the kind that its runner is handed. */
  datatype Turn = Combined(batch: seq<Message>, text: string, isVoice: bool) | Answered(answer: Answer)

  datatype World = World(
    buffer: seq<Entry>,
    window: JobState,
    after: seq<AfterJob>,
    workers: seq<Worker>,
    lock: Option<nat>,
    unarmed: nat,
    arrivals: seq<Message>,
    completed: seq<Message>,
    turns: seq<Turn>,
    answersIn: multiset<Answer>,
    answersDone: multiset<Answer>)

  const IDLE := World([], Gone, [], [], None, 0, [], [], [], multiset{}, multiset{})

  datatype Event =
    | Append(message: Message)
    | RemoveWindow
    | AddWindow(fails: bool)
    | FireWindow
    | FireAfter(n: nat)
    | Drain(k: nat)
    | SkipEmpty(k: nat)
    | TryLock(k: nat, faults: bool)
    | EndTurn(k: nat, faults: bool)
    | Requeue(k: nat)
    | ArmAfter(k: nat, fails: bool)
    | AnswerArrives(answer: Answer)

  // --- combining a batch ----------------------------------------------------------

  /** The non-empty texts of a window, joined by line breaks in arrival order. */
  function CombinedText(batch: seq<Message>): string {
    if batch == [] then ""
    else
      var rest := CombinedText(batch[1..]);
      if batch[0].text == "" then rest
      else if rest == "" then batch[0].text
      else batch[0].text + "\n" + rest
  }

  /** A window that mixed in any voice transcript counts as one. */
  predicate HasVoice(batch: seq<Message>) {
    exists i :: 0 <= i < |batch| && batch[i].isVoice
  }

  /** The turn of a whole batch. */
  function TurnOf(batch: seq<Message>): Turn {
    Combined(batch, CombinedText(batch), HasVoice(batch))
  }

  /** Two texts on lines of their own; an empty one leaves no line. */
  function Joined(a: string, b: string): string {
    if a == "" then b else if b == "" then a else a + "\n" + b
  }

  /** The text of two stretches of a window is that of the one, then that of the other; one message is its own text. */
  lemma {:induction false} CombinedTextJoins(a: seq<Message>, b: seq<Message>)
    ensures CombinedText(a + b) == Joined(CombinedText(a), CombinedText(b))
    ensures |a| == 1 ==> CombinedText(a) == a[0].text
  {
    if a == [] {
      assert a + b == b;
    } else {
      CombinedTextJoins(a[1..], b);
      assert (a + b)[1..] == a[1..] + b && (a + b)[0] == a[0];
      CombinedTextOfFirst(a);
      CombinedTextOfFirst(a + b);
      hide CombinedText;
    }
  }

  lemma CombinedTextOfFirst(batch: seq<Message>)
    requires batch != []
    ensures CombinedText(batch) == Joined(batch[0].text, CombinedText(batch[1..]))
    ensures |batch| == 1 ==> CombinedText(batch) == batch[0].text
  {
  }

  /** Every message is said: its text stands between those of the messages before and after it, on lines of its own. */
  lemma EveryMessageIsSaid(batch: seq<Message>, i: nat)
    requires i < |batch|
    ensures CombinedText(batch)
      == Joined(Joined(CombinedText(batch[..i]), batch[i].text), CombinedText(batch[i + 1..]))
  {
    hide CombinedText, Joined;
    assert batch == batch[..i] + [batch[i]] + batch[i + 1..];
    MessageIsSaid(batch[..i], batch[i], batch[i + 1..]);
  }

  lemma MessageIsSaid(before: seq<Message>, m: Message, rest: seq<Message>)
    ensures CombinedText(before + [m] + rest) == Joined(Joined(CombinedText(before), m.text), CombinedText(rest))
  {
    CombinedTextOfFirst([m]);
    hide CombinedText, Joined;
    CombinedTextJoins(before, [m]);
    CombinedTextJoins(before + [m], rest);
  }

  /** Nothing substantive to run: every entry is empty. */
  lemma {:induction false} CombinedTextIsEmpty(batch: seq<Message>)
    ensures CombinedText(batch) == "" <==> forall m :: m in batch ==> m.text == ""
  {
    if batch != [] {
      CombinedTextIsEmpty(batch[1..]);
      assert batch == [batch[0]] + batch[1..];
    }
  }

  // --- the steps -------------------------------------------------------------------

  function MessagesOf(buffer: seq<Entry>): (r: seq<Message>)
    ensures |r| == |buffer|
  {
    seq(|buffer|, i requires 0 <= i < |buffer| => buffer[i].message)
  }

  function PutBack(batch: seq<Message>): (r: seq<Entry>)
    ensures |r| == |batch|
  {
    seq(|batch|, i requires 0 <= i < |batch| => Entry(batch[i], true))
  }

  predicate HasLock(p: Phase) {
    p.Running? || p.AnswerRunning?
  }

  /** The lock is taken: the turn runs. */
  function Granted(p: Phase): Phase {
    if p.Holding? then Running(p.batch) else if p.AnswerHolding? then AnswerRunning(p.answer) else p
  }

  /** The lock is busy or the turn faulted: what is in hand goes back. */
  function Denied(p: Phase): Phase {
    if p.Holding? || p.Running? then Returning(p.batch)
    else if p.AnswerHolding? || p.AnswerRunning? then AnswerArming(p.answer)
    else p
  }

  /** Where the worker of a fired job starts. */
  function Opening(payload: Payload): Phase {
    match payload
    case DrainBuffer => Fired
    case Carry(answer) => AnswerHolding(answer)
  }

  predicate Enabled(w: World, e: Event) {
    match e
    case Append(_) => true
    case AnswerArrives(_) => true
    case RemoveWindow => w.unarmed > 0
    case AddWindow(_) => w.unarmed > 0
    case FireWindow => w.window == Delayed
    case FireAfter(n) => n < |w.after| && w.after[n].state == Delayed
    case Drain(k) => k < |w.workers| && w.workers[k].phase.Fired?
    case SkipEmpty(k) =>
      k < |w.workers| && w.workers[k].phase.Holding? && CombinedText(w.workers[k].phase.batch) == ""
    case TryLock(k, _) =>
      k < |w.workers| && (w.workers[k].phase.AnswerHolding?
        || (w.workers[k].phase.Holding? && CombinedText(w.workers[k].phase.batch) != ""))
    case EndTurn(k, _) => k < |w.workers| && HasLock(w.workers[k].phase)
    case Requeue(k) => k < |w.workers| && w.workers[k].phase.Returning?
    case ArmAfter(k, _) => k < |w.workers| && (w.workers[k].phase.Arming? || w.workers[k].phase.AnswerArming?)
  }

  function At(w: World, k: nat, p: Phase): World
    requires k < |w.workers|
  {
    w.(workers := w.workers[k := w.workers[k].(phase := p)])
  }

  /** The queue once a worked job has left it. */
  function Retired(after: seq<AfterJob>, job: JobRef): seq<AfterJob> {
    if job.AfterRef? && job.n < |after| then after[job.n := after[job.n].(state := Gone)] else after
  }

  function WindowWithout(window: JobState, job: JobRef): JobState {
    if job == WindowJob then Gone else window
  }

  /** The worker is done and its job leaves the queue. */
  function Done(w: World, k: nat): World
    requires k < |w.workers|
  {
    At(w, k, Finished).(after := Retired(w.after, w.workers[k].job),
      window := WindowWithout(w.window, w.workers[k].job))
  }

  function Next(w: World, e: Event): World
    requires Enabled(w, e)
  {
    match e
    case Append(m) => w.(buffer := w.buffer + [Entry(m, false)], arrivals := w.arrivals + [m], unarmed := w.unarmed + 1)
    case RemoveWindow => if w.window == Delayed then w.(window := Gone) else w
    case AddWindow(fails) =>
      // An id that is still in the queue is ignored.
      w.(unarmed := w.unarmed - 1, window := if !fails && w.window == Gone then Delayed else w.window)
    case FireWindow => w.(window := Active, workers := w.workers + [Worker(Fired, WindowJob)])
    case FireAfter(n) =>
      w.(after := w.after[n := w.after[n].(state := Active)],
         workers := w.workers + [Worker(Opening(w.after[n].payload), AfterRef(n))])
    case AnswerArrives(a) =>
      w.(workers := w.workers + [Worker(AnswerHolding(a), NoJob)], answersIn := w.answersIn + multiset{a})
    case Drain(k) =>
      if w.buffer == [] then Done(w, k) else At(w.(buffer := []), k, Holding(MessagesOf(w.buffer)))
    case SkipEmpty(k) => Done(w.(completed := w.completed + w.workers[k].phase.batch), k)
    case TryLock(k, faults) =>
      var p := w.workers[k].phase;
      if !faults && w.lock.None? then At(w.(lock := Some(k)), k, Granted(p)) else At(w, k, Denied(p))
    case EndTurn(k, faults) =>
      var p, free := w.workers[k].phase, w.(lock := None);
      if faults then At(free, k, Denied(p))
      else if p.Running? then Done(free.(completed := w.completed + p.batch, turns := w.turns + [TurnOf(p.batch)]), k)
      else Done(free.(answersDone := w.answersDone + multiset{p.answer}, turns := w.turns + [Answered(p.answer)]), k)
    case Requeue(k) => At(w.(buffer := PutBack(w.workers[k].phase.batch) + w.buffer), k, Arming)
    case ArmAfter(k, fails) =>
      var p := w.workers[k].phase;
      var w' := Done(w, k);
      if fails then w'
      else w'.(after := w'.after + [AfterJob(if p.Arming? then DrainBuffer else Carry(p.answer), Delayed)])
  }

  ghost predicate IsRun(states: seq<World>, events: seq<Event>) {
    && |states| == |events| + 1 && states[0] == IDLE
    && forall i :: 0 <= i < |events| ==> Enabled(states[i], events[i]) && states[i + 1] == Next(states[i], events[i])
  }

  // --- where messages and answers are --------------------------------------------------

  function BatchOf(p: Phase): seq<Message> {
    if p.Holding? || p.Running? || p.Returning? then p.batch else []
  }

  /** The batches in hand, worker by worker. */
  function Held(workers: seq<Worker>): seq<Message> {
    if workers == [] then [] else BatchOf(workers[0].phase) + Held(workers[1..])
  }

  lemma LockKeepsBatch(p: Phase)
    ensures BatchOf(Granted(p)) == BatchOf(p) && BatchOf(Denied(p)) == BatchOf(p)
  {
  }

  lemma LockKeepsAnswer(p: Phase)
    ensures AnswerOf(Granted(p)) == AnswerOf(p) && AnswerOf(Denied(p)) == AnswerOf(p)
  {
  }

  lemma LockPhases(p: Phase)
    ensures p.Holding? || p.AnswerHolding? ==> HasLock(Granted(p))
    ensures !HasLock(Denied(p)) && (p != Finished ==> Denied(p) != Finished && Granted(p) != Finished)
  {
  }

  /** How many copies of `m` are in hand. */
  function CopiesHeld(workers: seq<Worker>, m: Message): nat {
    if workers == [] then 0 else multiset(BatchOf(workers[0].phase))[m] + CopiesHeld(workers[1..], m)
  }

  function AnswerOf(p: Phase): multiset<Answer> {
    if p.AnswerHolding? || p.AnswerRunning? || p.AnswerArming? then multiset{p.answer} else multiset{}
  }

  function AnswersHeld(workers: seq<Worker>, a: Answer): nat {
    if workers == [] then 0 else AnswerOf(workers[0].phase)[a] + AnswersHeld(workers[1..], a)
  }

  function CarriedBy(job: AfterJob): multiset<Answer> {
    if job.state == Delayed && job.payload.Carry? then multiset{job.payload.answer} else multiset{}
  }

  function AnswersQueued(after: seq<AfterJob>, a: Answer): nat {
    if after == [] then 0 else CarriedBy(after[0])[a] + AnswersQueued(after[1..], a)
  }

  lemma {:induction false} HeldCopies(workers: seq<Worker>, m: Message)
    ensures multiset(Held(workers))[m] == CopiesHeld(workers, m)
  {
    if workers != [] {
      HeldCopies(workers[1..], m);
    }
  }

  lemma {:induction false} WorkerUpdated(ws: seq<Worker>, k: nat, x: Worker, m: Message, a: Answer)
    requires k < |ws|
    ensures CopiesHeld(ws[k := x], m) + multiset(BatchOf(ws[k].phase))[m]
      == CopiesHeld(ws, m) + multiset(BatchOf(x.phase))[m]
    ensures AnswersHeld(ws[k := x], a) + AnswerOf(ws[k].phase)[a] == AnswersHeld(ws, a) + AnswerOf(x.phase)[a]
  {
    hide BatchOf, AnswerOf;
    if k == 0 {
      assert ws[k := x][1..] == ws[1..];
    } else {
      WorkerUpdated(ws[1..], k - 1, x, m, a);
      assert ws[k := x][1..] == ws[1..][k - 1 := x];
    }
  }

  lemma {:induction false} WorkerAdded(ws: seq<Worker>, x: Worker, m: Message, a: Answer)
    ensures CopiesHeld(ws + [x], m) == CopiesHeld(ws, m) + multiset(BatchOf(x.phase))[m]
    ensures AnswersHeld(ws + [x], a) == AnswersHeld(ws, a) + AnswerOf(x.phase)[a]
  {
    hide BatchOf, AnswerOf;
    if ws == [] {
      assert ws + [x] == [x];
    } else {
      WorkerAdded(ws[1..], x, m, a);
      assert (ws + [x])[1..] == ws[1..] + [x];
    }
  }

  lemma {:induction false} JobUpdated(jobs: seq<AfterJob>, n: nat, x: AfterJob, a: Answer)
    requires n < |jobs|
    ensures AnswersQueued(jobs[n := x], a) + CarriedBy(jobs[n])[a] == AnswersQueued(jobs, a) + CarriedBy(x)[a]
  {
    hide CarriedBy;
    if n == 0 {
      assert jobs[n := x][1..] == jobs[1..];
    } else {
      JobUpdated(jobs[1..], n - 1, x, a);
      assert jobs[n := x][1..] == jobs[1..][n - 1 := x];
    }
  }

  lemma {:induction false} JobAdded(jobs: seq<AfterJob>, x: AfterJob, a: Answer)
    ensures AnswersQueued(jobs + [x], a) == AnswersQueued(jobs, a) + CarriedBy(x)[a]
  {
    hide CarriedBy;
    if jobs == [] {
      assert jobs + [x] == [x];
    } else {
      JobAdded(jobs[1..], x, a);
      assert (jobs + [x])[1..] == jobs[1..] + [x];
    }
  }

  lemma MessagesJoin(a: seq<Entry>, b: seq<Entry>)
    ensures MessagesOf(a + b) == MessagesOf(a) + MessagesOf(b)
  {
  }

  lemma PutBackMessages(batch: seq<Message>)
    ensures MessagesOf(PutBack(batch)) == batch
  {
  }

  // --- conservation ------------------------------------------------------------------------

  /** Copies of `m` in the buffer, in hand and in completed turns. */
  function Copies(w: World, m: Message): nat {
    multiset(w.completed)[m] + CopiesHeld(w.workers, m) + multiset(MessagesOf(w.buffer))[m]
  }

  /** The step keeps the copies of `m`, but for one that arrives. */
  ghost predicate Moves(w: World, w': World, m: Message) {
    Copies(w', m) + multiset(w.arrivals)[m] == Copies(w, m) + multiset(w'.arrivals)[m]
  }

  lemma SpawnMoves(w: World, w': World, x: Worker, m: Message)
    requires w'.workers == w.workers + [x] && BatchOf(x.phase) == []
    requires w'.completed == w.completed && w'.buffer == w.buffer && w'.arrivals == w.arrivals
    ensures Moves(w, w', m)
  {
    hide BatchOf, CopiesHeld, MessagesOf;
    WorkerAdded(w.workers, x, m, Answer("", 0));
  }

  lemma ArrivalMoves(w: World, e: Event, m: Message)
    requires Enabled(w, e)
    requires (e.Append? || e.RemoveWindow? || e.AddWindow? || e.FireWindow? || e.FireAfter? || e.AnswerArrives?)
    ensures Moves(w, Next(w, e), m)
  {
    hide CombinedText, MessagesOf, PutBack, CopiesHeld, AnswersHeld;
    if e.Append? {
      MessagesJoin(w.buffer, [Entry(e.message, false)]);
      SingleEntry(e.message);
    } else if e.FireWindow? {
      hide Moves;
      SpawnMoves(w, Next(w, e), Worker(Fired, WindowJob), m);
    } else if e.FireAfter? {
      hide Moves;
      var payload := w.after[e.n].payload;
      SpawnMoves(w, Next(w, e), Worker(Opening(payload), AfterRef(e.n)), m);
    } else if e.AnswerArrives? {
      hide Moves;
      SpawnMoves(w, Next(w, e), Worker(AnswerHolding(e.answer), NoJob), m);
    }
  }

  /** Worker `k` changes phase and what it lets go of turns up in the buffer or in a completed turn. */
  lemma RephasedMoves(w: World, w': World, k: nat, p: Phase, m: Message)
    requires k < |w.workers| && w'.workers == w.workers[k := w.workers[k].(phase := p)] && w'.arrivals == w.arrivals
    requires multiset(w'.completed)[m] + multiset(BatchOf(p))[m] + multiset(MessagesOf(w'.buffer))[m]
      == multiset(w.completed)[m] + multiset(BatchOf(w.workers[k].phase))[m] + multiset(MessagesOf(w.buffer))[m]
    ensures Moves(w, w', m)
  {
    hide MessagesOf, BatchOf;
    WorkerUpdated(w.workers, k, w.workers[k].(phase := p), m, Answer("", 0));
  }

  lemma BufferMoves(w: World, e: Event, m: Message)
    requires Enabled(w, e) && (e.Drain? || e.Requeue?)
    ensures Moves(w, Next(w, e), m)
  {
    hide MessagesOf, PutBack, Moves, Retired, WindowWithout, CombinedText;
    NoMessages();
    if e.Drain? {
      RephasedMoves(w, Next(w, e), e.k, if w.buffer == [] then Finished else Holding(MessagesOf(w.buffer)), m);
    } else {
      var batch := w.workers[e.k].phase.batch;
      MessagesJoin(PutBack(batch), w.buffer);
      PutBackMessages(batch);
      RephasedMoves(w, Next(w, e), e.k, Arming, m);
    }
  }

  lemma LockMoves(w: World, e: Event, m: Message)
    requires Enabled(w, e) && (e.TryLock? || e.ArmAfter?)
    ensures Moves(w, Next(w, e), m)
  {
    LockKeepsBatch(w.workers[e.k].phase);
    assert e.ArmAfter? ==> BatchOf(w.workers[e.k].phase) == [] && BatchOf(Finished) == [];
    var p := w.workers[e.k].phase;
    hide MessagesOf, Moves, Retired, WindowWithout, CombinedText, Granted, Denied, BatchOf;
    var p' := if e.ArmAfter? then Finished else if !e.faults && w.lock.None? then Granted(p) else Denied(p);
    RephasedMoves(w, Next(w, e), e.k, p', m);
  }

  lemma TurnMoves(w: World, e: Event, m: Message)
    requires Enabled(w, e) && (e.SkipEmpty? || e.EndTurn?)
    ensures Moves(w, Next(w, e), m)
  {
    var p := w.workers[e.k].phase;
    LockKeepsBatch(p);
    hide MessagesOf, Moves, Retired, WindowWithout, CombinedText, Granted, Denied;
    if e.EndTurn? && e.faults {
      RephasedMoves(w, Next(w, e), e.k, Denied(p), m);
    } else if e.EndTurn? && p.AnswerRunning? {
      RephasedMoves(w, Next(w, e), e.k, Finished, m);
    } else if e.EndTurn? {
      RephasedMoves(w, Next(w, e), e.k, Finished, m);
    } else {
      RephasedMoves(w, Next(w, e), e.k, Finished, m);
    }
  }

  /** Arrivals are completed turns, batches in hand and the buffer, copy for copy. */
  ghost predicate Conserved(w: World) {
    forall m :: Copies(w, m) == multiset(w.arrivals)[m]
  }

  lemma StepConserves(w: World, e: Event)
    requires Conserved(w) && Enabled(w, e)
    ensures Conserved(Next(w, e))
  {
    hide Next, Copies;
    forall m ensures Copies(Next(w, e), m) == multiset(Next(w, e).arrivals)[m] {
      assert Copies(w, m) == multiset(w.arrivals)[m];
      if e.Drain? || e.Requeue? {
        BufferMoves(w, e, m);
      } else if e.SkipEmpty? || e.EndTurn? {
        TurnMoves(w, e, m);
      } else if e.TryLock? || e.ArmAfter? {
        LockMoves(w, e, m);
      } else {
        ArrivalMoves(w, e, m);
      }
    }
  }

  lemma SingleEntry(m: Message)
    ensures MessagesOf([Entry(m, false)]) == [m]
  {
  }

  lemma NoMessages()
    ensures MessagesOf([]) == []
  {
  }

  // --- one turn at a time ---------------------------------------------------------------

  /** A worker runs a turn exactly when it holds the lock, so at most one does. */
  ghost predicate Exclusive(ws: seq<Worker>, lock: Option<nat>) {
    && (lock.Some? ==> lock.value < |ws|)
    && forall k :: 0 <= k < |ws| ==> (HasLock(ws[k].phase) <==> lock == Some(k))
  }

  lemma RephasedExclusive(ws: seq<Worker>, lock: Option<nat>, k: nat, p: Phase)
    requires Exclusive(ws, lock) && k < |ws|
    ensures !HasLock(p) && lock != Some(k) ==> Exclusive(ws[k := ws[k].(phase := p)], lock)
    ensures !HasLock(p) && lock == Some(k) ==> Exclusive(ws[k := ws[k].(phase := p)], None)
    ensures HasLock(p) && lock.None? ==> Exclusive(ws[k := ws[k].(phase := p)], Some(k))
  {
  }

  lemma TryIsExclusive(w: World, k: nat, faults: bool)
    requires Exclusive(w.workers, w.lock) && Enabled(w, TryLock(k, faults))
    ensures Exclusive(Next(w, TryLock(k, faults)).workers, Next(w, TryLock(k, faults)).lock)
  {
    var p := w.workers[k].phase;
    LockPhases(p);
    hide CombinedText, Granted, Denied, Exclusive;
    assert w.lock != Some(k) by { LockHolders(w.workers, w.lock, k); }
    RephasedExclusive(w.workers, w.lock, k, if !faults && w.lock.None? then Granted(p) else Denied(p));
  }

  lemma EndIsExclusive(w: World, k: nat, faults: bool)
    requires Exclusive(w.workers, w.lock) && Enabled(w, EndTurn(k, faults))
    ensures Exclusive(Next(w, EndTurn(k, faults)).workers, Next(w, EndTurn(k, faults)).lock)
  {
    var p := w.workers[k].phase;
    LockPhases(p);
    hide Retired, WindowWithout, Denied, Exclusive;
    assert w.lock == Some(k) by { LockHolders(w.workers, w.lock, k); }
    RephasedExclusive(w.workers, w.lock, k, if faults then Denied(p) else Finished);
  }

  lemma LockHolders(ws: seq<Worker>, lock: Option<nat>, k: nat)
    requires Exclusive(ws, lock) && k < |ws|
    ensures HasLock(ws[k].phase) <==> lock == Some(k)
  {
  }

  /** Steps of a worker that does not hold the lock. */
  lemma UnlockedIsExclusive(w: World, e: Event)
    requires Exclusive(w.workers, w.lock) && Enabled(w, e) && (e.Drain? || e.SkipEmpty? || e.Requeue? || e.ArmAfter?)
    ensures Exclusive(Next(w, e).workers, Next(w, e).lock)
  {
    hide CombinedText, MessagesOf, PutBack, Retired, WindowWithout, Exclusive;
    assert w.lock != Some(e.k) by { LockHolders(w.workers, w.lock, e.k); }
    var p := if e.Requeue? then Arming else if e.Drain? && w.buffer != [] then Holding(MessagesOf(w.buffer))
      else Finished;
    RephasedExclusive(w.workers, w.lock, e.k, p);
  }

  lemma StepIsExclusive(w: World, e: Event)
    requires Exclusive(w.workers, w.lock) && Enabled(w, e)
    ensures Exclusive(Next(w, e).workers, Next(w, e).lock)
  {
    if e.TryLock? {
      hide Next, Exclusive;
      TryIsExclusive(w, e.k, e.faults);
    } else if e.EndTurn? {
      hide Next, Exclusive;
      EndIsExclusive(w, e.k, e.faults);
    } else if e.Drain? || e.SkipEmpty? || e.Requeue? || e.ArmAfter? {
      hide Next, Exclusive;
      UnlockedIsExclusive(w, e);
    }
  }

  // --- the job queue ----------------------------------------------------------------------

  /** A worked job is no longer waiting; only one worker at a time works on the window job. */
  ghost predicate JobsTracked(ws: seq<Worker>, after: seq<AfterJob>, window: JobState) {
    && (forall k :: 0 <= k < |ws| && ws[k].job.AfterRef? ==>
      ws[k].job.n < |after| && after[ws[k].job.n].state != Delayed)
    && (forall k :: 0 <= k < |ws| && ws[k].job == WindowJob && ws[k].phase != Finished ==> window == Active)
    && (forall j, k :: 0 <= j < k < |ws| && ws[j].job == WindowJob && ws[k].job == WindowJob ==>
         ws[j].phase == Finished || ws[k].phase == Finished)
  }

  lemma RephasedTracks(ws: seq<Worker>, after: seq<AfterJob>, window: JobState, k: nat, p: Phase)
    requires JobsTracked(ws, after, window) && k < |ws| && ws[k].phase != Finished
    ensures JobsTracked(ws[k := ws[k].(phase := p)], after, window)
  {
  }

  lemma DoneTracks(ws: seq<Worker>, after: seq<AfterJob>, window: JobState, k: nat)
    requires JobsTracked(ws, after, window) && k < |ws| && ws[k].phase != Finished
    ensures JobsTracked(ws[k := ws[k].(phase := Finished)], Retired(after, ws[k].job), WindowWithout(window, ws[k].job))
  {
  }

  lemma MoreJobsTracked(ws: seq<Worker>, after: seq<AfterJob>, window: JobState, job: AfterJob)
    requires JobsTracked(ws, after, window)
    ensures JobsTracked(ws, after + [job], window)
  {
  }

  lemma FiringTracks(ws: seq<Worker>, after: seq<AfterJob>, window: JobState, p: Phase)
    requires JobsTracked(ws, after, window)
    ensures window == Delayed ==> JobsTracked(ws + [Worker(p, WindowJob)], after, Active)
    ensures JobsTracked(ws + [Worker(p, NoJob)], after, window)
    ensures forall n: nat :: n < |after| && after[n].state == Delayed ==>
      JobsTracked(ws + [Worker(p, AfterRef(n))], after[n := after[n].(state := Active)], window)
  {
  }

  lemma PhaseTracks(w: World, e: Event)
    requires JobsTracked(w.workers, w.after, w.window) && Enabled(w, e) && (e.TryLock? || e.Requeue? || e.EndTurn?)
    ensures JobsTracked(Next(w, e).workers, Next(w, e).after, Next(w, e).window)
  {
    hide CombinedText, PutBack, JobsTracked, Retired, WindowWithout, Granted, Denied;
    var p := w.workers[e.k].phase;
    DoneTracks(w.workers, w.after, w.window, e.k);
    RephasedTracks(w.workers, w.after, w.window, e.k,
      if e.Requeue? then Arming else if e.TryLock? && !e.faults && w.lock.None? then Granted(p) else Denied(p));
  }

  lemma LeavingTracks(w: World, e: Event)
    requires JobsTracked(w.workers, w.after, w.window) && Enabled(w, e) && (e.Drain? || e.SkipEmpty? || e.ArmAfter?)
    ensures JobsTracked(Next(w, e).workers, Next(w, e).after, Next(w, e).window)
  {
    hide CombinedText, MessagesOf, JobsTracked, Retired, WindowWithout;
    DoneTracks(w.workers, w.after, w.window, e.k);
    RephasedTracks(w.workers, w.after, w.window, e.k, Holding(MessagesOf(w.buffer)));
    if e.ArmAfter? && !e.fails {
      var done := Done(w, e.k);
      MoreJobsTracked(done.workers, done.after, done.window, Next(w, e).after[|done.after|]);
    }
  }

  lemma StepTracksJobs(w: World, e: Event)
    requires JobsTracked(w.workers, w.after, w.window) && Enabled(w, e)
    ensures JobsTracked(Next(w, e).workers, Next(w, e).after, Next(w, e).window)
  {
    if e.TryLock? || e.Requeue? || e.EndTurn? {
      hide Next, JobsTracked;
      PhaseTracks(w, e);
    } else if e.Drain? || e.SkipEmpty? || e.ArmAfter? {
      hide Next, JobsTracked;
      LeavingTracks(w, e);
    } else if e.FireWindow? || e.FireAfter? || e.AnswerArrives? {
      hide JobsTracked;
      FiringTracks(w.workers, w.after, w.window, Next(w, e).workers[|w.workers|].phase);
    } else {
      hide JobsTracked;
      WindowTracks(w.workers, w.after, w.window);
    }
  }

  /** Re-arming touches the window job only while no worker has it. */
  lemma WindowTracks(ws: seq<Worker>, after: seq<AfterJob>, window: JobState)
    requires JobsTracked(ws, after, window)
    ensures window != Active ==> JobsTracked(ws, after, Gone) && JobsTracked(ws, after, Delayed)
  {
  }

  // --- answers ------------------------------------------------------------------------------

  /** Copies of an answer in hand, carried by a job, and run. */
  function AnswerCopies(w: World, a: Answer): nat {
    w.answersDone[a] + AnswersHeld(w.workers, a) + AnswersQueued(w.after, a)
  }

  ghost predicate AnswersConserved(w: World) {
    forall a :: AnswerCopies(w, a) == w.answersIn[a]
  }

  /** The one way to lose an answer: the queue refuses the job that carries it. */
  predicate DropsAnswer(w: World, e: Event) {
    e.ArmAfter? && e.fails && e.k < |w.workers| && w.workers[e.k].phase.AnswerArming?
  }

  ghost predicate AnswerMoves(w: World, w': World, a: Answer) {
    AnswerCopies(w', a) + w.answersIn[a] == AnswerCopies(w, a) + w'.answersIn[a]
  }

  lemma RetiredAnswers(after: seq<AfterJob>, job: JobRef, a: Answer)
    requires job.AfterRef? ==> job.n < |after| && after[job.n].state != Delayed
    ensures AnswersQueued(Retired(after, job), a) == AnswersQueued(after, a)
  {
    if job.AfterRef? {
      hide AnswersQueued;
      JobUpdated(after, job.n, after[job.n].(state := Gone), a);
    }
  }

  /** Worker `k` changes phase and the answer it lets go of turns up in the queue or is done. */
  lemma RephasedAnswer(w: World, w': World, k: nat, p: Phase, a: Answer)
    requires k < |w.workers| && w'.workers == w.workers[k := w.workers[k].(phase := p)] && w'.answersIn == w.answersIn
    requires w'.answersDone[a] + AnswerOf(p)[a] + AnswersQueued(w'.after, a)
      == w.answersDone[a] + AnswerOf(w.workers[k].phase)[a] + AnswersQueued(w.after, a)
    ensures AnswerMoves(w, w', a)
  {
    hide AnswerOf, AnswersQueued;
    WorkerUpdated(w.workers, k, w.workers[k].(phase := p), Message("", false), a);
  }

  /** Steps of a message batch do not touch answers. */
  lemma BatchPhaseStep(w: World, w': World, k: nat, p: Phase, a: Answer)
    requires JobsTracked(w.workers, w.after, w.window) && k < |w.workers|
    requires AnswerOf(w.workers[k].phase) == multiset{} && AnswerOf(p) == multiset{}
    requires w'.workers == w.workers[k := w.workers[k].(phase := p)]
    requires w'.after == w.after || w'.after == Retired(w.after, w.workers[k].job)
    requires w'.answersIn == w.answersIn && w'.answersDone == w.answersDone
    ensures AnswerMoves(w, w', a)
  {
    RetiredAnswers(w.after, w.workers[k].job, a);
    hide AnswerMoves, Retired, JobsTracked, AnswersQueued, AnswerOf;
    RephasedAnswer(w, w', k, p, a);
  }

  lemma AnswerDrainStep(w: World, k: nat, a: Answer)
    requires JobsTracked(w.workers, w.after, w.window) && Enabled(w, Drain(k))
    ensures AnswerMoves(w, Next(w, Drain(k)), a)
  {
    hide MessagesOf, JobsTracked, Retired, WindowWithout, AnswerMoves;
    var p := if w.buffer == [] then Finished else Holding(MessagesOf(w.buffer));
    BatchPhaseStep(w, Next(w, Drain(k)), k, p, a);
  }

  lemma AnswerSkipStep(w: World, k: nat, a: Answer)
    requires JobsTracked(w.workers, w.after, w.window) && Enabled(w, SkipEmpty(k))
    ensures AnswerMoves(w, Next(w, SkipEmpty(k)), a)
  {
    hide CombinedText, JobsTracked, Retired, WindowWithout, AnswerMoves;
    BatchPhaseStep(w, Next(w, SkipEmpty(k)), k, Finished, a);
  }

  lemma AnswerRequeueStep(w: World, k: nat, a: Answer)
    requires JobsTracked(w.workers, w.after, w.window) && Enabled(w, Requeue(k))
    ensures AnswerMoves(w, Next(w, Requeue(k)), a)
  {
    hide PutBack, JobsTracked, Retired, AnswerMoves;
    BatchPhaseStep(w, Next(w, Requeue(k)), k, Arming, a);
  }

  lemma AnswerLockStep(w: World, k: nat, faults: bool, a: Answer)
    requires Enabled(w, TryLock(k, faults))
    ensures AnswerMoves(w, Next(w, TryLock(k, faults)), a)
  {
    var p := w.workers[k].phase;
    LockKeepsAnswer(p);
    hide CombinedText, AnswersQueued, AnswerMoves, Granted, Denied, AnswerOf;
    var p' := if !faults && w.lock.None? then Granted(p) else Denied(p);
    RephasedAnswer(w, Next(w, TryLock(k, faults)), k, p', a);
  }

  lemma AnswerFaultStep(w: World, k: nat, a: Answer)
    requires Enabled(w, EndTurn(k, true))
    ensures AnswerMoves(w, Next(w, EndTurn(k, true)), a)
  {
    var p := w.workers[k].phase;
    LockKeepsAnswer(p);
    hide AnswerMoves, AnswersQueued, Granted, Denied, AnswerOf;
    RephasedAnswer(w, Next(w, EndTurn(k, true)), k, Denied(p), a);
  }

  lemma AnswerEndStep(w: World, k: nat, a: Answer)
    requires JobsTracked(w.workers, w.after, w.window) && Enabled(w, EndTurn(k, false))
    ensures AnswerMoves(w, Next(w, EndTurn(k, false)), a)
  {
    RetiredSince(w, k, a);
    hide JobsTracked, Retired, WindowWithout, AnswerMoves, AnswersQueued;
    if w.workers[k].phase.Running? {
      BatchPhaseStep(w, Next(w, EndTurn(k, false)), k, Finished, a);
    } else {
      RephasedAnswer(w, Next(w, EndTurn(k, false)), k, Finished, a);
    }
  }

  lemma RetiredSince(w: World, k: nat, a: Answer)
    requires JobsTracked(w.workers, w.after, w.window) && k < |w.workers|
    ensures AnswersQueued(Retired(w.after, w.workers[k].job), a) == AnswersQueued(w.after, a)
  {
    hide Retired, AnswersQueued;
    RetiredAnswers(w.after, w.workers[k].job, a);
  }

  lemma AnswerArmStep(w: World, k: nat, fails: bool, a: Answer)
    requires JobsTracked(w.workers, w.after, w.window)
    requires Enabled(w, ArmAfter(k, fails)) && !DropsAnswer(w, ArmAfter(k, fails))
    ensures AnswerMoves(w, Next(w, ArmAfter(k, fails)), a)
  {
    RetiredSince(w, k, a);
    hide JobsTracked, Retired, WindowWithout, AnswersQueued;
    var p, after := w.workers[k].phase, Retired(w.after, w.workers[k].job);
    var job := AfterJob(if p.Arming? then DrainBuffer else Carry(p.answer), Delayed);
    JobAdded(after, job, a);
    assert AnswerOf(p) == CarriedBy(job);
    assert fails ==> AnswerOf(p) == multiset{};
    hide AnswerOf, CarriedBy, AnswerMoves, DropsAnswer;
    assert AnswerOf(Finished) == multiset{} by { FinishedHoldsNothing(); }
    RephasedAnswer(w, Next(w, ArmAfter(k, fails)), k, Finished, a);
  }

  lemma FinishedHoldsNothing()
    ensures AnswerOf(Finished) == multiset{}
  {
  }

  lemma SpawnedAnswer(w: World, w': World, x: Worker, a: Answer)
    requires w'.workers == w.workers + [x] && w'.answersDone == w.answersDone
    requires AnswerOf(x.phase)[a] + AnswersQueued(w'.after, a) + w.answersIn[a]
      == AnswersQueued(w.after, a) + w'.answersIn[a]
    ensures AnswerMoves(w, w', a)
  {
    hide AnswerOf, AnswersQueued;
    WorkerAdded(w.workers, x, Message("", false), a);
  }

  lemma AnswerSpawnStep(w: World, e: Event, a: Answer)
    requires Enabled(w, e) && (e.FireWindow? || e.FireAfter? || e.AnswerArrives?)
    ensures AnswerMoves(w, Next(w, e), a)
  {
    hide AnswersQueued, AnswerMoves;
    if e.FireAfter? {
      var payload := w.after[e.n].payload;
      JobUpdated(w.after, e.n, w.after[e.n].(state := Active), a);
      SpawnedAnswer(w, Next(w, e), Worker(Opening(payload), AfterRef(e.n)), a);
    } else if e.FireWindow? {
      SpawnedAnswer(w, Next(w, e), Worker(Fired, WindowJob), a);
    } else {
      SpawnedAnswer(w, Next(w, e), Worker(AnswerHolding(e.answer), NoJob), a);
    }
  }

  lemma AnswerStep(w: World, e: Event, a: Answer)
    requires JobsTracked(w.workers, w.after, w.window) && Enabled(w, e) && !DropsAnswer(w, e)
    ensures AnswerMoves(w, Next(w, e), a)
  {
    if e.Append? || e.RemoveWindow? || e.AddWindow? {
      hide AnswersHeld, AnswersQueued, JobsTracked;
    } else {
      hide Next, AnswerMoves, JobsTracked;
      if e.FireWindow? || e.FireAfter? || e.AnswerArrives? {
        AnswerSpawnStep(w, e, a);
      } else if e.EndTurn? && e.faults {
        AnswerFaultStep(w, e.k, a);
      } else if e.EndTurn? {
        AnswerEndStep(w, e.k, a);
      } else if e.TryLock? {
        AnswerLockStep(w, e.k, e.faults, a);
      } else if e.ArmAfter? {
        AnswerArmStep(w, e.k, e.fails, a);
      } else if e.Drain? {
        AnswerDrainStep(w, e.k, a);
      } else if e.SkipEmpty? {
        AnswerSkipStep(w, e.k, a);
      } else {
        AnswerRequeueStep(w, e.k, a);
      }
    }
  }

  /** No step but a refused carrier loses, adds or copies an answer. */
  lemma AnswersStep(w: World, e: Event)
    requires JobsTracked(w.workers, w.after, w.window) && Enabled(w, e) && !DropsAnswer(w, e)
    requires AnswersConserved(w)
    ensures AnswersConserved(Next(w, e))
  {
    hide Next, JobsTracked, DropsAnswer, Enabled, AnswerCopies;
    forall a ensures AnswerCopies(Next(w, e), a) == Next(w, e).answersIn[a] {
      AnswerStep(w, e, a);
      assert AnswerCopies(w, a) == w.answersIn[a];
    }
  }

  // --- arrival order ---------------------------------------------------------------------------

  /** No two workers hold messages. */
  ghost predicate OneHolder(ws: seq<Worker>) {
    forall j, k :: 0 <= j < k < |ws| ==> BatchOf(ws[j].phase) == [] || BatchOf(ws[k].phase) == []
  }

  lemma {:induction false} NoneHeld(ws: seq<Worker>)
    ensures Held(ws) == [] <==> forall k :: 0 <= k < |ws| ==> BatchOf(ws[k].phase) == []
  {
    hide BatchOf;
    if ws != [] {
      NoneHeld(ws[1..]);
      assert forall k :: 1 <= k < |ws| ==> ws[k] == ws[1..][k - 1];
    }
  }

  lemma {:induction false} OnlyHolder(ws: seq<Worker>, k: nat)
    requires k < |ws| && forall j :: 0 <= j < |ws| && j != k ==> BatchOf(ws[j].phase) == []
    ensures Held(ws) == BatchOf(ws[k].phase)
  {
    hide BatchOf;
    assert forall j :: 0 <= j < |ws| - 1 ==> ws[1..][j] == ws[j + 1];
    if k == 0 {
      NoneHeld(ws[1..]);
    } else {
      assert BatchOf(ws[0].phase) == [];
      OnlyHolder(ws[1..], k - 1);
    }
  }

  lemma {:induction false} SameHeld(ws: seq<Worker>, k: nat, x: Worker)
    requires k < |ws| && BatchOf(x.phase) == BatchOf(ws[k].phase)
    ensures Held(ws[k := x]) == Held(ws)
  {
    if k == 0 {
      assert ws[k := x][1..] == ws[1..];
    } else {
      SameHeld(ws[1..], k - 1, x);
      assert ws[k := x][1..] == ws[1..][k - 1 := x];
    }
  }

  predicate InOrder(w: World) {
    w.arrivals == w.completed + Held(w.workers) + MessagesOf(w.buffer)
  }

  /** The drain does not overtake a batch in hand. */
  predicate Overtakes(w: World, e: Event) {
    e.Drain? && Held(w.workers) != [] && w.buffer != []
  }

  lemma RephasedInOrder(w: World, w': World, k: nat, p: Phase)
    requires InOrder(w) && OneHolder(w.workers) && k < |w.workers|
    requires w'.workers == w.workers[k := w.workers[k].(phase := p)] && w'.arrivals == w.arrivals
    requires BatchOf(p) != BatchOf(w.workers[k].phase) ==> forall j :: 0 <= j < |w.workers| && j != k ==>
      BatchOf(w.workers[j].phase) == []
    requires w'.completed + BatchOf(p) + MessagesOf(w'.buffer)
      == w.completed + BatchOf(w.workers[k].phase) + MessagesOf(w.buffer)
    requires BatchOf(p) == BatchOf(w.workers[k].phase) ==> w'.completed == w.completed && w'.buffer == w.buffer
    ensures InOrder(w') && OneHolder(w'.workers)
  {
    hide MessagesOf, BatchOf, Held;
    if BatchOf(p) == BatchOf(w.workers[k].phase) {
      SameHeld(w.workers, k, w.workers[k].(phase := p));
    } else {
      OnlyHolder(w.workers, k);
      OnlyHolder(w'.workers, k);
    }
  }

  lemma DrainInOrder(w: World, k: nat)
    requires InOrder(w) && OneHolder(w.workers) && Enabled(w, Drain(k)) && !Overtakes(w, Drain(k))
    ensures InOrder(Next(w, Drain(k))) && OneHolder(Next(w, Drain(k)).workers)
  {
    NoneHeld(w.workers);
    hide MessagesOf, Retired, WindowWithout, CombinedText, InOrder, OneHolder, Held;
    NoMessages();
    RephasedInOrder(w, Next(w, Drain(k)), k, if w.buffer == [] then Finished else Holding(MessagesOf(w.buffer)));
  }

  lemma RequeueInOrder(w: World, k: nat)
    requires InOrder(w) && OneHolder(w.workers) && Enabled(w, Requeue(k))
    ensures InOrder(Next(w, Requeue(k))) && OneHolder(Next(w, Requeue(k)).workers)
  {
    var batch := w.workers[k].phase.batch;
    if batch != [] {
      OthersHoldNothing(w.workers, k);
    }
    MessagesJoin(PutBack(batch), w.buffer);
    PutBackMessages(batch);
    hide MessagesOf, PutBack, InOrder, OneHolder, Held;
    RephasedInOrder(w, Next(w, Requeue(k)), k, Arming);
  }

  lemma OthersHoldNothing(ws: seq<Worker>, k: nat)
    requires OneHolder(ws) && k < |ws| && BatchOf(ws[k].phase) != []
    ensures forall j :: 0 <= j < |ws| && j != k ==> BatchOf(ws[j].phase) == []
  {
  }

  lemma SkipInOrder(w: World, k: nat)
    requires InOrder(w) && OneHolder(w.workers) && Enabled(w, SkipEmpty(k))
    ensures InOrder(Next(w, SkipEmpty(k))) && OneHolder(Next(w, SkipEmpty(k)).workers)
  {
    if w.workers[k].phase.batch != [] {
      OthersHoldNothing(w.workers, k);
    }
    hide MessagesOf, InOrder, OneHolder, Held, Retired, WindowWithout, CombinedText;
    RephasedInOrder(w, Next(w, SkipEmpty(k)), k, Finished);
  }

  lemma EndInOrder(w: World, k: nat, faults: bool)
    requires InOrder(w) && OneHolder(w.workers) && Enabled(w, EndTurn(k, faults))
    ensures InOrder(Next(w, EndTurn(k, faults))) && OneHolder(Next(w, EndTurn(k, faults)).workers)
  {
    var p, w' := w.workers[k].phase, Next(w, EndTurn(k, faults));
    var p' := if faults then Denied(p) else Finished;
    if BatchOf(p) != [] {
      OthersHoldNothing(w.workers, k);
    }
    LockKeepsBatch(p);
    assert w'.workers == w.workers[k := w.workers[k].(phase := p')] && w'.arrivals == w.arrivals
      && w'.buffer == w.buffer;
    assert w'.completed == w.completed + if faults then [] else BatchOf(p);
    hide Next, MessagesOf, InOrder, OneHolder, Held, Denied;
    RephasedInOrder(w, w', k, p');
  }

  lemma TryInOrder(w: World, k: nat, faults: bool)
    requires InOrder(w) && OneHolder(w.workers) && Enabled(w, TryLock(k, faults))
    ensures InOrder(Next(w, TryLock(k, faults))) && OneHolder(Next(w, TryLock(k, faults)).workers)
  {
    var p := w.workers[k].phase;
    LockKeepsBatch(p);
    hide MessagesOf, InOrder, OneHolder, Held, CombinedText, Granted, Denied, BatchOf;
    RephasedInOrder(w, Next(w, TryLock(k, faults)), k, if !faults && w.lock.None? then Granted(p) else Denied(p));
  }

  lemma ArmInOrder(w: World, k: nat, fails: bool)
    requires InOrder(w) && OneHolder(w.workers) && Enabled(w, ArmAfter(k, fails))
    ensures InOrder(Next(w, ArmAfter(k, fails))) && OneHolder(Next(w, ArmAfter(k, fails)).workers)
  {
    assert BatchOf(w.workers[k].phase) == [] == BatchOf(Finished);
    hide MessagesOf, InOrder, OneHolder, Held, Retired, WindowWithout, BatchOf;
    RephasedInOrder(w, Next(w, ArmAfter(k, fails)), k, Finished);
  }

  lemma SpawnedInOrder(w: World, w': World, x: Worker)
    requires InOrder(w) && OneHolder(w.workers) && BatchOf(x.phase) == []
    requires w'.workers == w.workers + [x] && w'.arrivals == w.arrivals
    requires w'.completed == w.completed && w'.buffer == w.buffer
    ensures InOrder(w') && OneHolder(w'.workers)
  {
    hide MessagesOf, Held, BatchOf;
    HeldAdded(w.workers, x);
    assert forall k :: 0 <= k < |w.workers| ==> w'.workers[k] == w.workers[k];
  }

  lemma ArrivalInOrder(w: World, e: Event)
    requires InOrder(w) && OneHolder(w.workers) && Enabled(w, e)
    requires e.Append? || e.RemoveWindow? || e.AddWindow? || e.FireWindow? || e.FireAfter? || e.AnswerArrives?
    ensures InOrder(Next(w, e)) && OneHolder(Next(w, e).workers)
  {
    hide MessagesOf, Held, OneHolder;
    if e.Append? {
      MessagesJoin(w.buffer, [Entry(e.message, false)]);
      SingleEntry(e.message);
    } else if e.FireWindow? {
      hide InOrder;
      SpawnedInOrder(w, Next(w, e), Worker(Fired, WindowJob));
    } else if e.AnswerArrives? {
      hide InOrder;
      SpawnedInOrder(w, Next(w, e), Worker(AnswerHolding(e.answer), NoJob));
    } else if e.FireAfter? {
      hide InOrder;
      var payload := w.after[e.n].payload;
      SpawnedInOrder(w, Next(w, e), Worker(Opening(payload), AfterRef(e.n)));
    }
  }

  lemma {:induction false} HeldAdded(ws: seq<Worker>, x: Worker)
    ensures Held(ws + [x]) == Held(ws) + BatchOf(x.phase)
  {
    hide BatchOf;
    if ws == [] {
      assert ws + [x] == [x];
    } else {
      HeldAdded(ws[1..], x);
      assert (ws + [x])[1..] == ws[1..] + [x];
    }
  }

  lemma StepInOrder(w: World, e: Event)
    requires InOrder(w) && OneHolder(w.workers) && Enabled(w, e) && !Overtakes(w, e)
    ensures InOrder(Next(w, e)) && OneHolder(Next(w, e).workers)
  {
    hide InOrder, OneHolder, Next;
    match e
    case Drain(k) => DrainInOrder(w, k);
    case Requeue(k) => RequeueInOrder(w, k);
    case SkipEmpty(k) => SkipInOrder(w, k);
    case EndTurn(k, faults) => EndInOrder(w, k, faults);
    case TryLock(k, faults) => TryInOrder(w, k, faults);
    case ArmAfter(k, fails) => ArmInOrder(w, k, fails);
    case _ => ArrivalInOrder(w, e);
  }

  // --- coverage ---------------------------------------------------------------------------------

  /** A re-poll job is waiting, a fired drain has not read the buffer yet, or a drain is about to arm one. */
  ghost predicate RepollComes(ws: seq<Worker>, after: seq<AfterJob>) {
    || (exists n :: 0 <= n < |after| && after[n] == AfterJob(DrainBuffer, Delayed))
    || (exists k :: 0 <= k < |ws| && (ws[k].phase == Fired || ws[k].phase == Arming))
  }

  /** Some drain of the buffer is still to come. */
  ghost predicate DrainComes(w: World) {
    w.window == Delayed || RepollComes(w.workers, w.after)
  }

  ghost predicate HasRequeued(buffer: seq<Entry>) {
    exists i :: 0 <= i < |buffer| && buffer[i].requeued
  }

  /** The queue refuses the re-poll of a batch. */
  predicate RefusesRepoll(w: World, e: Event) {
    e.ArmAfter? && e.fails && e.k < |w.workers| && w.workers[e.k].phase.Arming?
  }

  /** A batch put back by a drain is never stranded. */
  ghost predicate RequeuedCovered(w: World) {
    HasRequeued(w.buffer) ==> RepollComes(w.workers, w.after)
  }

  lemma RetiredKeepsRepolls(ws: seq<Worker>, after: seq<AfterJob>, window: JobState, k: nat, p: Phase)
    requires JobsTracked(ws, after, window) && k < |ws| && RepollComes(ws, after)
    ensures
      || (ws[k].phase == Fired || ws[k].phase == Arming)
      || RepollComes(ws[k := ws[k].(phase := p)], Retired(after, ws[k].job))
    ensures
      || (ws[k].phase == Fired || ws[k].phase == Arming)
      || RepollComes(ws[k := ws[k].(phase := p)], after)
  {
    if n :| 0 <= n < |after| && after[n] == AfterJob(DrainBuffer, Delayed) {
      assert Retired(after, ws[k].job)[n] == after[n];
    } else {
      var j :| 0 <= j < |ws| && (ws[j].phase == Fired || ws[j].phase == Arming);
      if j != k {
        assert ws[k := ws[k].(phase := p)][j] == ws[j];
      }
    }
  }

  lemma RepollAdded(ws: seq<Worker>, after: seq<AfterJob>, job: AfterJob)
    ensures job == AfterJob(DrainBuffer, Delayed) || RepollComes(ws, after) ==> RepollComes(ws, after + [job])
  {
    assert (after + [job])[|after|] == job;
    assert forall n :: 0 <= n < |after| ==> (after + [job])[n] == after[n];
  }

  lemma RepollArms(ws: seq<Worker>, after: seq<AfterJob>, k: nat, p: Phase)
    requires k < |ws| && (p == Fired || p == Arming)
    ensures RepollComes(ws[k := ws[k].(phase := p)], after)
  {
    assert ws[k := ws[k].(phase := p)][k].phase == p;
  }

  lemma RepollSpawns(ws: seq<Worker>, after: seq<AfterJob>, x: Worker)
    ensures x.phase == Fired || RepollComes(ws, after) ==> RepollComes(ws + [x], after)
  {
    assert (ws + [x])[|ws|] == x;
    assert forall k :: 0 <= k < |ws| ==> (ws + [x])[k] == ws[k];
  }

  lemma RepollFires(ws: seq<Worker>, after: seq<AfterJob>, n: nat, x: Worker)
    requires n < |after| && after[n].state == Delayed
    requires if after[n].payload == DrainBuffer then x.phase == Fired else RepollComes(ws, after)
    ensures RepollComes(ws + [x], after[n := after[n].(state := Active)])
  {
    var after' := after[n := after[n].(state := Active)];
    if x.phase != Fired {
      assert forall m :: 0 <= m < |after| && m != n ==> after'[m] == after[m];
    }
    RepollSpawns(ws, after', x);
  }

  /** Whoever drains, fires, re-polls or returns a batch leaves a re-poll behind when one is needed. */
  lemma RepollSurvives(w: World, e: Event)
    requires JobsTracked(w.workers, w.after, w.window) && Enabled(w, e) && !RefusesRepoll(w, e)
    requires RepollComes(w.workers, w.after) && !e.Drain?
    ensures RepollComes(Next(w, e).workers, Next(w, e).after)
  {
    hide CombinedText, MessagesOf, PutBack, Retired, WindowWithout, JobsTracked, RepollComes, Granted, Denied;
    if e.FireWindow? {
      RepollSpawns(w.workers, w.after, Worker(Fired, WindowJob));
    } else if e.AnswerArrives? {
      RepollSpawns(w.workers, w.after, Worker(AnswerHolding(e.answer), NoJob));
    } else if e.FireAfter? {
      var payload := w.after[e.n].payload;
      RepollFires(w.workers, w.after, e.n,
        Worker(Opening(payload), AfterRef(e.n)));
    } else if e.SkipEmpty? || e.TryLock? || e.EndTurn? {
      RetiredKeepsRepolls(w.workers, w.after, w.window, e.k, Next(w, e).workers[e.k].phase);
    } else if e.Requeue? {
      RepollArms(w.workers, w.after, e.k, Arming);
    } else if e.ArmAfter? {
      RetiredKeepsRepolls(w.workers, w.after, w.window, e.k, Finished);
      if !e.fails {
        var done := Done(w, e.k);
        RepollAdded(done.workers, done.after, Next(w, e).after[|done.after|]);
      }
    }
  }

  lemma StepCoversRequeued(w: World, e: Event)
    requires JobsTracked(w.workers, w.after, w.window) && Enabled(w, e) && !RefusesRepoll(w, e)
    requires RequeuedCovered(w)
    ensures RequeuedCovered(Next(w, e))
  {
    if RepollComes(w.workers, w.after) && !e.Drain? {
      hide Next, RepollComes, JobsTracked;
      RepollSurvives(w, e);
    } else if e.Requeue? {
      hide RepollComes, JobsTracked, HasRequeued, PutBack;
      RepollArms(w.workers, w.after, e.k, Arming);
    } else if e.Append? {
      hide RepollComes, JobsTracked;
      assert forall i :: 0 <= i < |w.buffer| ==> Next(w, e).buffer[i] == w.buffer[i];
    } else {
      hide RepollComes, JobsTracked, CombinedText, Retired, WindowWithout;
    }
  }

  /** Everything in the buffer will be drained, or its inbound has not armed the window yet. */
  ghost predicate BufferCovered(w: World) {
    w.buffer != [] ==> w.unarmed > 0 || DrainComes(w)
  }

  /**
   * Arming the window comes to nothing: its id is still taken by a job that has
   * already drained (or the queue refuses the job), and no re-poll is to come.
   */
  ghost predicate StrandsInbound(w: World, e: Event) {
    e.AddWindow? && (w.window == Active || (w.window == Gone && e.fails)) && !RepollComes(w.workers, w.after)
  }

  /** The last inbound's arm leaves the buffer without a drain exactly when it strands. */
  lemma ArmCoversUnlessStranded(w: World, fails: bool)
    requires Enabled(w, AddWindow(fails)) && w.unarmed == 1 && w.buffer != []
    ensures BufferCovered(Next(w, AddWindow(fails))) <==> !StrandsInbound(w, AddWindow(fails))
  {
    hide RepollComes;
  }

  lemma StepCoversBuffer(w: World, e: Event)
    requires JobsTracked(w.workers, w.after, w.window) && Enabled(w, e) && !RefusesRepoll(w, e) && !StrandsInbound(w, e)
    requires BufferCovered(w)
    ensures BufferCovered(Next(w, e))
  {
    if RepollComes(w.workers, w.after) && !e.Drain? {
      hide Next, RepollComes, JobsTracked;
      RepollSurvives(w, e);
    } else if e.FireWindow? {
      hide RepollComes;
      RepollSpawns(w.workers, w.after, Worker(Fired, WindowJob));
    } else if e.Requeue? {
      hide RepollComes, JobsTracked, PutBack;
      RepollArms(w.workers, w.after, e.k, Arming);
    } else if e.SkipEmpty? || e.EndTurn? || e.ArmAfter? {
      assert w.workers[e.k].job == WindowJob ==> w.window == Active;
      hide RepollComes, JobsTracked, CombinedText, Retired;
    } else {
      hide RepollComes, JobsTracked, CombinedText, Retired, WindowWithout;
    }
  }

  // --- over whole runs ------------------------------------------------------------------------------

  /** Every answer that ran had a turn to itself. */
  ghost predicate AnswersRunAlone(w: World) {
    forall a :: multiset(w.turns)[Answered(a)] == w.answersDone[a]
  }

  lemma TurnAdded(turns: seq<Turn>, turn: Turn, a: Answer)
    ensures multiset(turns + [turn])[Answered(a)] == multiset(turns)[Answered(a)] + if turn == Answered(a) then 1 else 0
  {
  }

  lemma EndedTurnRanAlone(w: World, k: nat)
    requires AnswersRunAlone(w) && Enabled(w, EndTurn(k, false))
    ensures AnswersRunAlone(Next(w, EndTurn(k, false)))
  {
    var p, w' := w.workers[k].phase, Next(w, EndTurn(k, false));
    var turn := if p.Running? then TurnOf(p.batch) else Answered(p.answer);
    assert w'.turns == w.turns + [turn];
    assert w'.answersDone == w.answersDone + if p.Running? then multiset{} else multiset{p.answer};
    hide Next, Enabled;
    forall a ensures multiset(w'.turns)[Answered(a)] == w'.answersDone[a] {
      TurnAdded(w.turns, turn, a);
    }
  }

  lemma TurnsUntouched(w: World, e: Event)
    requires Enabled(w, e) && !(e.EndTurn? && !e.faults)
    ensures Next(w, e).turns == w.turns && Next(w, e).answersDone == w.answersDone
  {
    hide CombinedText, MessagesOf, PutBack, Retired, WindowWithout, Granted, Denied;
  }

  lemma StepRunsAnswersAlone(w: World, e: Event)
    requires AnswersRunAlone(w) && Enabled(w, e)
    ensures AnswersRunAlone(Next(w, e))
  {
    hide Next, Enabled;
    if e.EndTurn? && !e.faults {
      EndedTurnRanAlone(w, e.k);
    } else {
      TurnsUntouched(w, e);
    }
  }

  // --- every message is said -------------------------------------------------------------------

  /** A batch in a turn has something to say. */
  ghost predicate TurnsHaveText(ws: seq<Worker>) {
    forall k :: 0 <= k < |ws| && ws[k].phase.Running? ==> CombinedText(ws[k].phase.batch) != ""
  }

  /** Each message turn was handed the text and kind of its whole batch, and there was something to say. */
  ghost predicate TurnsSayBatches(turns: seq<Turn>) {
    forall i :: 0 <= i < |turns| && turns[i].Combined? ==> turns[i] == TurnOf(turns[i].batch) && turns[i].text != ""
  }

  /** A completed message with a text is in the batch of some turn. */
  ghost predicate SaidInSomeTurn(turns: seq<Turn>, m: Message) {
    exists i :: 0 <= i < |turns| && turns[i].Combined? && m in turns[i].batch
  }

  ghost predicate AllSaid(w: World) {
    && TurnsHaveText(w.workers) && TurnsSayBatches(w.turns)
    && forall m :: m in w.completed && m.text != "" ==> SaidInSomeTurn(w.turns, m)
  }

  lemma RephasedHasText(ws: seq<Worker>, k: nat, p: Phase)
    requires TurnsHaveText(ws) && k < |ws| && (p.Running? ==> CombinedText(p.batch) != "")
    ensures TurnsHaveText(ws[k := ws[k].(phase := p)])
  {
    hide CombinedText;
  }

  lemma SaidStill(turns: seq<Turn>, more: seq<Turn>, m: Message)
    requires SaidInSomeTurn(turns, m)
    ensures SaidInSomeTurn(turns + more, m)
  {
    var i :| 0 <= i < |turns| && turns[i].Combined? && m in turns[i].batch;
    assert (turns + more)[i] == turns[i];
  }

  /** A batch whose turn has run: its messages are said. */
  lemma BatchIsSaid(w: World, k: nat)
    requires AllSaid(w) && Enabled(w, EndTurn(k, false)) && w.workers[k].phase.Running?
    ensures AllSaid(Next(w, EndTurn(k, false)))
  {
    var batch, w' := w.workers[k].phase.batch, Next(w, EndTurn(k, false));
    assert w'.turns == w.turns + [TurnOf(batch)] && w'.completed == w.completed + batch;
    assert w'.workers == w.workers[k := w.workers[k].(phase := Finished)];
    assert CombinedText(batch) != "";
    hide Next, CombinedText, Enabled;
    RephasedHasText(w.workers, k, Finished);
    assert TurnsSayBatches(w'.turns);
    hide TurnsSayBatches, TurnsHaveText;
    assert w'.turns[|w.turns|].batch == batch;
    forall m | m in w'.completed && m.text != "" ensures SaidInSomeTurn(w'.turns, m) {
      if m in w.completed {
        SaidStill(w.turns, [TurnOf(batch)], m);
      }
    }
  }

  /** A batch without text is done without a turn. */
  lemma EmptyBatchIsSaid(w: World, k: nat)
    requires AllSaid(w) && Enabled(w, SkipEmpty(k))
    ensures AllSaid(Next(w, SkipEmpty(k)))
  {
    var batch, w' := w.workers[k].phase.batch, Next(w, SkipEmpty(k));
    assert w'.turns == w.turns && w'.completed == w.completed + batch;
    assert w'.workers == w.workers[k := w.workers[k].(phase := Finished)];
    CombinedTextIsEmpty(batch);
    hide Next, CombinedText, Enabled;
    RephasedHasText(w.workers, k, Finished);
  }

  /** An answer's turn, or one that faulted. */
  lemma OtherEndIsSaid(w: World, k: nat, faults: bool)
    requires AllSaid(w) && Enabled(w, EndTurn(k, faults)) && (faults || w.workers[k].phase.AnswerRunning?)
    ensures AllSaid(Next(w, EndTurn(k, faults)))
  {
    var p, w' := w.workers[k].phase, Next(w, EndTurn(k, faults));
    var p' := if faults then Denied(p) else Finished;
    var more := if faults then [] else [Answered(p.answer)];
    assert w'.turns == w.turns + more && w'.completed == w.completed;
    assert w'.workers == w.workers[k := w.workers[k].(phase := p')];
    assert !p'.Running?;
    hide Next, CombinedText, Enabled, Denied;
    RephasedHasText(w.workers, k, p');
    assert TurnsSayBatches(w'.turns);
    hide TurnsSayBatches, TurnsHaveText;
    forall m | m in w'.completed && m.text != "" ensures SaidInSomeTurn(w'.turns, m) {
      SaidStill(w.turns, more, m);
    }
  }

  /** Only a batch with a text is granted its turn. */
  lemma GrantIsSaid(w: World, k: nat, faults: bool)
    requires AllSaid(w) && Enabled(w, TryLock(k, faults))
    ensures AllSaid(Next(w, TryLock(k, faults)))
  {
    var p, w' := w.workers[k].phase, Next(w, TryLock(k, faults));
    var p' := if !faults && w.lock.None? then Granted(p) else Denied(p);
    assert p'.Running? ==> p.Holding? && p'.batch == p.batch;
    assert w'.workers == w.workers[k := w.workers[k].(phase := p')] && w'.turns == w.turns
      && w'.completed == w.completed;
    assert p.Holding? ==> CombinedText(p.batch) != "";
    hide Next, CombinedText, Enabled, Granted, Denied;
    RephasedHasText(w.workers, k, p');
  }

  /** The other steps end no turn and start none. */
  lemma QuietIsSaid(w: World, e: Event)
    requires AllSaid(w) && Enabled(w, e) && !e.EndTurn? && !e.SkipEmpty? && !e.TryLock?
    ensures AllSaid(Next(w, e))
  {
    hide CombinedText, MessagesOf, PutBack, Retired, WindowWithout;
    var w' := Next(w, e);
    assert w'.turns == w.turns && w'.completed == w.completed;
    assert forall k :: 0 <= k < |w'.workers| ==>
      (k < |w.workers| && w'.workers[k] == w.workers[k]) || !w'.workers[k].phase.Running?;
    hide Next, Enabled;
  }

  lemma StepIsSaid(w: World, e: Event)
    requires AllSaid(w) && Enabled(w, e)
    ensures AllSaid(Next(w, e))
  {
    if e.TryLock? {
      hide Next, AllSaid;
      GrantIsSaid(w, e.k, e.faults);
    } else if e.SkipEmpty? {
      hide Next, AllSaid;
      EmptyBatchIsSaid(w, e.k);
    } else if e.EndTurn? {
      hide Next, AllSaid;
      if !e.faults && w.workers[e.k].phase.Running? {
        BatchIsSaid(w, e.k);
      } else {
        OtherEndIsSaid(w, e.k, e.faults);
      }
    } else {
      hide Next, AllSaid;
      QuietIsSaid(w, e);
    }
  }

  lemma IdleIsSound()
    ensures Conserved(IDLE) && Exclusive(IDLE.workers, IDLE.lock) && JobsTracked(IDLE.workers, IDLE.after, IDLE.window)
    ensures AnswersConserved(IDLE) && AnswersRunAlone(IDLE) && InOrder(IDLE) && OneHolder(IDLE.workers)
    ensures RequeuedCovered(IDLE) && BufferCovered(IDLE)
  {
  }

  lemma {:induction false} RunsAreSound(states: seq<World>, events: seq<Event>, i: nat)
    requires IsRun(states, events) && i <= |events|
    ensures
      var w := states[i];
      Conserved(w) && Exclusive(w.workers, w.lock) && JobsTracked(w.workers, w.after, w.window) && AnswersRunAlone(w)
  {
    IdleIsSound();
    hide Conserved, Exclusive, JobsTracked, AnswersRunAlone, Next;
    if i > 0 {
      RunsAreSound(states, events, i - 1);
      StepConserves(states[i - 1], events[i - 1]);
      StepIsExclusive(states[i - 1], events[i - 1]);
      StepTracksJobs(states[i - 1], events[i - 1]);
      StepRunsAnswersAlone(states[i - 1], events[i - 1]);
    }
  }

  /**
   * Conservation: in every interleaving of appends, drains, busy locks and faults, the
   * arrivals are, as a multiset, the completed messages, the batches in hand and the buffer.
   */
  lemma MessagesConserved(states: seq<World>, events: seq<Event>, i: nat)
    requires IsRun(states, events) && i <= |events|
    ensures var w := states[i]; multiset(w.arrivals) == multiset(w.completed + Held(w.workers) + MessagesOf(w.buffer))
  {
    RunsAreSound(states, events, i);
    var w := states[i];
    hide IsRun, Held, MessagesOf, CopiesHeld;
    forall m ensures multiset(w.arrivals)[m] == multiset(w.completed + Held(w.workers) + MessagesOf(w.buffer))[m] {
      HeldCopies(w.workers, m);
      assert Copies(w, m) == multiset(w.arrivals)[m];
    }
  }

  lemma {:induction false} RunsSayAll(states: seq<World>, events: seq<Event>, i: nat)
    requires IsRun(states, events) && i <= |events|
    ensures AllSaid(states[i])
  {
    if i > 0 {
      hide AllSaid, Next, Enabled;
      RunsSayAll(states, events, i - 1);
      StepIsSaid(states[i - 1], events[i - 1]);
    }
  }

  /**
   * In every run each message turn is handed the texts of its whole batch, joined in
   * order, as voice exactly when some message of it is; and every completed message that
   * has a text was in the batch of such a turn.
   */
  lemma MessagesAreSaid(states: seq<World>, events: seq<Event>, i: nat)
    requires IsRun(states, events) && i <= |events|
    ensures forall j :: 0 <= j < |states[i].turns| && states[i].turns[j].Combined? ==>
      && states[i].turns[j].text == CombinedText(states[i].turns[j].batch) != ""
      && (states[i].turns[j].isVoice <==> exists m :: m in states[i].turns[j].batch && m.isVoice)
    ensures forall m :: m in states[i].completed && m.text != "" ==> SaidInSomeTurn(states[i].turns, m)
  {
    RunsSayAll(states, events, i);
    var turns := states[i].turns;
    hide IsRun, CombinedText, SaidInSomeTurn;
    forall j | 0 <= j < |turns| && turns[j].Combined?
      ensures turns[j].isVoice <==> exists m :: m in turns[j].batch && m.isVoice
    {
      assert turns[j] == TurnOf(turns[j].batch);
    }
  }

  /** At most one turn runs at a time, message batches and answers alike. */
  lemma OneTurnAtATime(states: seq<World>, events: seq<Event>, i: nat, j: nat, k: nat)
    requires IsRun(states, events) && i <= |events|
    requires j < |states[i].workers| && k < |states[i].workers|
    requires HasLock(states[i].workers[j].phase) && HasLock(states[i].workers[k].phase)
    ensures j == k
  {
    RunsAreSound(states, events, i);
  }

  /** Turns that ran `a` alone, and copies of it still in hand or carried by a waiting job. */
  function AnswerTurnsAndCopies(w: World, a: Answer): nat {
    multiset(w.turns)[Answered(a)] + AnswersHeld(w.workers, a) + AnswersQueued(w.after, a)
  }

  lemma {:induction false} AnswersConservedInRuns(states: seq<World>, events: seq<Event>, i: nat)
    requires IsRun(states, events) && i <= |events|
    requires forall j :: 0 <= j < i ==> !DropsAnswer(states[j], events[j])
    ensures AnswersConserved(states[i])
  {
    hide Next, JobsTracked, DropsAnswer, Enabled, AnswersConserved, AnswersRunAlone, Conserved, Exclusive, InOrder,
      OneHolder, RequeuedCovered, BufferCovered;
    if i == 0 {
      IdleIsSound();
    } else {
      AnswersConservedInRuns(states, events, i - 1);
      RunsAreSound(states, events, i - 1);
      AnswersStep(states[i - 1], events[i - 1]);
    }
  }

  /**
   * Answers are never merged and, while the queue takes their jobs, never lost: each
   * one that arrived is waiting, in hand, or has had a turn of its own.
   */
  lemma AnswersKept(states: seq<World>, events: seq<Event>, i: nat)
    requires IsRun(states, events) && i <= |events|
    requires forall j :: 0 <= j < i ==> !DropsAnswer(states[j], events[j])
    ensures AnswersConserved(states[i])
    ensures forall a :: AnswerTurnsAndCopies(states[i], a) == states[i].answersIn[a]
  {
    var w := states[i];
    hide IsRun, DropsAnswer, Conserved, Exclusive, JobsTracked, AnswersHeld, AnswersQueued;
    AnswersConservedInRuns(states, events, i);
    RunsAreSound(states, events, i);
    forall a ensures AnswerTurnsAndCopies(w, a) == w.answersIn[a] {
      assert AnswerCopies(w, a) == w.answersIn[a];
    }
  }

  /** With one drain in hand at a time, arrival order is kept from end to end. */
  lemma {:induction false} OrderKept(states: seq<World>, events: seq<Event>, i: nat)
    requires IsRun(states, events) && i <= |events|
    requires forall j :: 0 <= j < i ==> !Overtakes(states[j], events[j])
    ensures InOrder(states[i]) && OneHolder(states[i].workers)
  {
    IdleIsSound();
    hide InOrder, OneHolder, Next, Overtakes;
    if i > 0 {
      OrderKept(states, events, i - 1);
      StepInOrder(states[i - 1], events[i - 1]);
    }
  }

  /** A batch put back behind a busy lock or a fault always has a re-poll to come, while the queue takes the jobs. */
  lemma {:induction false} RequeuedIsCovered(states: seq<World>, events: seq<Event>, i: nat)
    requires IsRun(states, events) && i <= |events|
    requires forall j :: 0 <= j < i ==> !RefusesRepoll(states[j], events[j])
    ensures RequeuedCovered(states[i])
  {
    IdleIsSound();
    hide RequeuedCovered, Next, RefusesRepoll, JobsTracked, Conserved, Exclusive;
    if i > 0 {
      RequeuedIsCovered(states, events, i - 1);
      RunsAreSound(states, events, i - 1);
      StepCoversRequeued(states[i - 1], events[i - 1]);
    }
  }

  /** While no arm is stranded, a drain is to come for everything in the buffer. */
  lemma {:induction false} BufferIsCovered(states: seq<World>, events: seq<Event>, i: nat)
    requires IsRun(states, events) && i <= |events|
    requires forall j :: 0 <= j < i ==> !RefusesRepoll(states[j], events[j]) && !StrandsInbound(states[j], events[j])
    ensures BufferCovered(states[i])
  {
    IdleIsSound();
    hide BufferCovered, Next, RefusesRepoll, StrandsInbound, JobsTracked, Conserved, Exclusive;
    if i > 0 {
      BufferIsCovered(states, events, i - 1);
      RunsAreSound(states, events, i - 1);
      StepCoversBuffer(states[i - 1], events[i - 1]);
    }
  }

  const HELLO := Message("hello", false)
  const AGAIN := Message("again", false)

  const STRANDING_EVENTS := [
    Append(HELLO), RemoveWindow, AddWindow(false), FireWindow, Drain(0), Append(AGAIN), RemoveWindow, AddWindow(false)]

  const STRANDING_STATES := [
    IDLE,
    IDLE.(buffer := [Entry(HELLO, false)], arrivals := [HELLO], unarmed := 1),
    IDLE.(buffer := [Entry(HELLO, false)], arrivals := [HELLO], unarmed := 1),
    IDLE.(buffer := [Entry(HELLO, false)], arrivals := [HELLO], window := Delayed),
    IDLE.(buffer := [Entry(HELLO, false)], arrivals := [HELLO], window := Active,
      workers := [Worker(Fired, WindowJob)]),
    IDLE.(arrivals := [HELLO], window := Active, workers := [Worker(Holding([HELLO]), WindowJob)]),
    IDLE.(buffer := [Entry(AGAIN, false)], arrivals := [HELLO, AGAIN], unarmed := 1, window := Active,
          workers := [Worker(Holding([HELLO]), WindowJob)]),
    IDLE.(buffer := [Entry(AGAIN, false)], arrivals := [HELLO, AGAIN], unarmed := 1, window := Active,
          workers := [Worker(Holding([HELLO]), WindowJob)]),
    IDLE.(buffer := [Entry(AGAIN, false)], arrivals := [HELLO, AGAIN], window := Active,
          workers := [Worker(Holding([HELLO]), WindowJob)])]

  lemma StrandingStep(i: nat)
    requires i < 8
    ensures Enabled(STRANDING_STATES[i], STRANDING_EVENTS[i])
    ensures STRANDING_STATES[i + 1] == Next(STRANDING_STATES[i], STRANDING_EVENTS[i])
  {
    hide CombinedText, Retired, WindowWithout, Granted, Denied, PutBack;
    if i == 4 {
      SingleEntry(HELLO);
      hide MessagesOf;
    } else {
      hide MessagesOf;
    }
  }

  /**
   * Such a run exists without any fault: a message that arrives while the fired
   * window job is still at work finds the stable id taken, and waits in the buffer
   * with no drain to come.
   */
  lemma InboundCanStrand()
    ensures exists states: seq<World>, events: seq<Event>, i: nat ::
      IsRun(states, events) && i <= |events| && states[i].buffer != [] && states[i].unarmed == 0
        && !DrainComes(states[i])
  {
    forall i | 0 <= i < 8
      ensures Enabled(STRANDING_STATES[i], STRANDING_EVENTS[i])
      ensures STRANDING_STATES[i + 1] == Next(STRANDING_STATES[i], STRANDING_EVENTS[i])
    {
      StrandingStep(i);
    }
    hide Next, Enabled;
    assert IsRun(STRANDING_STATES, STRANDING_EVENTS);
    var w := STRANDING_STATES[8];
    assert w.buffer != [] && w.unarmed == 0 && !DrainComes(w);
  }
}
