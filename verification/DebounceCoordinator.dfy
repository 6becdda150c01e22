/**
 * The debounce coordinator's methods, run against the shared stores. Each is proved
 * to be a sequence of the protocol's atomic steps, so whatever holds of every
 * interleaving of those steps holds of concurrent calls of these methods.
 */
module DebounceCoordinator {
  import opened Wrappers
  import opened DebounceProtocol

  // --- sequences of steps -----------------------------------------------------------

  predicate CanTake(w: World, steps: seq<Event>)
    decreases |steps|
  {
    steps == [] || (Enabled(w, steps[0]) && CanTake(Next(w, steps[0]), steps[1..]))
  }

  function After(w: World, steps: seq<Event>): World
    requires CanTake(w, steps)
    decreases |steps|
  {
    if steps == [] then w else After(Next(w, steps[0]), steps[1..])
  }

  lemma {:induction false} StepsJoin(w: World, a: seq<Event>, e: Event)
    requires CanTake(w, a) && Enabled(After(w, a), e)
    ensures CanTake(w, a + [e]) && After(w, a + [e]) == Next(After(w, a), e)
    decreases |a|
  {
    hide Next, Enabled;
    if a == [] {
      assert a + [e] == [e];
    } else {
      StepsJoin(Next(w, a[0]), a[1..], e);
      assert (a + [e])[1..] == a[1..] + [e] && (a + [e])[0] == a[0];
    }
  }

  /** What the surroundings decide during one call: faults of the lock, of the turn, and of the queue. */
  datatype Surroundings = Surroundings(lockFaults: bool, turnFaults: bool, queueFails: bool)

  /** A drained batch needs no turn, or gets the lock and its turn does not fault. */
  predicate Runs(batch: seq<Message>, lock: Option<nat>, env: Surroundings) {
    CombinedText(batch) == "" || (lock.None? && !env.lockFaults && !env.turnFaults)
  }

  /**
   * The turn of a batch that has run, handed all its texts in order and as voice when
   * some message is: none when there is nothing substantive in it.
   */
  function TurnsOf(batch: seq<Message>): (turns: seq<Turn>)
    ensures turns == [] <==> forall m :: m in batch ==> m.text == ""
    ensures turns != [] ==>
      |turns| == 1 && turns[0].Combined? && turns[0].batch == batch && turns[0].text == CombinedText(batch)
      && (turns[0].isVoice <==> exists m :: m in batch && m.isVoice)
  {
    CombinedTextIsEmpty(batch);
    if CombinedText(batch) == "" then [] else [TurnOf(batch)]
  }

  /** What the end of a batch's turn, or of an answer's, leaves behind. */
  lemma BatchEnds(w: World, k: nat, batch: seq<Message>)
    requires k < |w.workers| && w.workers[k].phase == Running(batch)
    ensures Enabled(w, EndTurn(k, false))
    ensures Next(w, EndTurn(k, false)) == Done(w, k).(lock := None, completed := w.completed + batch,
      turns := w.turns + [TurnOf(batch)])
  {
    hide Retired, WindowWithout;
  }

  lemma AnswerEnds(w: World, k: nat, answer: Answer)
    requires k < |w.workers| && w.workers[k].phase == AnswerRunning(answer)
    ensures Enabled(w, EndTurn(k, false))
    ensures Next(w, EndTurn(k, false)) ==
      Done(w, k).(lock := None, answersDone := w.answersDone + multiset{answer}, turns := w.turns + [Answered(answer)])
  {
    hide Retired, WindowWithout;
  }

  class DebounceCoordinator {
    var buffer: seq<Entry>
    var window: JobState
    var after: seq<AfterJob>
    var lock: Option<nat>
    var turns: seq<Turn>
    ghost var workers: seq<Worker>
    ghost var unarmed: nat
    ghost var arrivals: seq<Message>
    ghost var completed: seq<Message>
    ghost var answersIn: multiset<Answer>
    ghost var answersDone: multiset<Answer>
    ghost var start: World
    ghost var steps: seq<Event>

    ghost function State(): World
      reads this
    {
      World(buffer, window, after, workers, lock, unarmed, arrivals, completed, turns, answersIn, answersDone)
    }

    /** The stores are where the steps taken since `start` have led. */
    ghost predicate Traced()
      reads this
    {
      CanTake(start, steps) && After(start, steps) == State()
    }

    /** Records the step the stores have just taken. */
    ghost method Record(before: World, e: Event)
      requires CanTake(start, steps) && After(start, steps) == before
      requires Enabled(before, e) && State() == Next(before, e)
      modifies `steps
      ensures Traced() && steps == old(steps) + [e]
    {
      StepsJoin(start, steps, e);
      steps := steps + [e];
    }

    constructor ()
      ensures State() == IDLE && Traced() && steps == []
    {
      buffer, window, after, lock, turns := [], Gone, [], None, [];
      workers, unarmed, arrivals, completed := [], 0, [], [];
      answersIn, answersDone := multiset{}, multiset{};
      start, steps := IDLE, [];
    }

    // --- the stores' atomic operations ---------------------------------------------------

    method Append(message: Message) returns (length: nat)
      requires Traced()
      modifies `buffer, `arrivals, `unarmed, `steps
      ensures Traced() && steps == old(steps) + [Event.Append(message)]
      ensures buffer == old(buffer) + [Entry(message, false)] && length == |buffer| && unarmed == old(unarmed) + 1
    {
      hide CanTake, After;
      ghost var before := State();
      buffer := buffer + [Entry(message, false)];
      arrivals, unarmed := arrivals + [message], unarmed + 1;
      Record(before, Event.Append(message));
      length := |buffer|;
    }

    /** Takes a still-delayed window job out of the queue; an active one stays. */
    method RemoveWindowJob()
      requires Traced() && unarmed > 0
      modifies `window, `steps
      ensures Traced() && steps == old(steps) + [RemoveWindow]
      ensures window == if old(window) == Delayed then Gone else old(window)
    {
      hide CanTake, After;
      ghost var before := State();
      if window == Delayed {
        window := Gone;
      }
      Record(before, RemoveWindow);
    }

    /** Adds the window job; an id still in the queue is ignored. */
    method AddWindowJob(fails: bool)
      requires Traced() && unarmed > 0
      modifies `window, `unarmed, `steps
      ensures Traced() && steps == old(steps) + [AddWindow(fails)] && unarmed == old(unarmed) - 1
      ensures window == if old(window) == Gone && !fails then Delayed else old(window)
    {
      hide CanTake, After;
      ghost var before := State();
      if window == Gone && !fails {
        window := Delayed;
      }
      unarmed := unarmed - 1;
      Record(before, AddWindow(fails));
    }

    /** The queue drops the job a worker has finished with. */
    method Retire(ghost k: nat, job: JobRef)
      requires k < |workers| && workers[k].job == job
      modifies `workers, `window, `after
      ensures workers == old(workers)[k := old(workers)[k].(phase := Finished)]
      ensures after == Retired(old(after), job) && window == WindowWithout(old(window), job)
    {
      workers := workers[k := workers[k].(phase := Finished)];
      if job == WindowJob {
        window := Gone;
      } else if job.AfterRef? && job.n < |after| {
        after := after[job.n := after[job.n].(state := Gone)];
      }
    }

    /** Reads and clears the buffer in one step. */
    method DrainBuffer(ghost k: nat, job: JobRef) returns (batch: seq<Message>)
      requires Traced() && k < |workers| && workers[k] == Worker(Fired, job)
      modifies `buffer, `workers, `window, `after, `steps
      ensures Traced() && steps == old(steps) + [Drain(k)]
      ensures batch == MessagesOf(old(buffer)) && buffer == []
      ensures workers == old(workers)[k := Worker(if batch == [] then Finished else Holding(batch), job)]
      ensures batch != [] ==> after == old(after)
    {
      hide CanTake, After, Retired, WindowWithout;
      ghost var before := State();
      batch := MessagesOf(buffer);
      if batch == [] {
        Retire(k, job);
      } else {
        buffer := [];
        workers := workers[k := Worker(Holding(batch), job)];
      }
      Record(before, Drain(k));
    }

    /** A batch without text is done as it stands. */
    method Skip(ghost k: nat, job: JobRef, ghost batch: seq<Message>)
      requires Traced() && k < |workers| && workers[k] == Worker(Holding(batch), job) && CombinedText(batch) == ""
      modifies `completed, `workers, `window, `after, `steps
      ensures Traced() && steps == old(steps) + [SkipEmpty(k)] && completed == old(completed) + batch
    {
      hide CanTake, After, Retired, WindowWithout, CombinedText;
      ghost var before := State();
      completed := completed + batch;
      Retire(k, job);
      Record(before, SkipEmpty(k));
    }

    method Acquire(k: nat, ghost job: JobRef, ghost p: Phase, faults: bool) returns (got: bool)
      requires Traced() && k < |workers| && workers[k] == Worker(p, job)
      requires p.AnswerHolding? || (p.Holding? && CombinedText(p.batch) != "")
      modifies `lock, `workers, `steps
      ensures Traced() && steps == old(steps) + [TryLock(k, faults)]
      ensures got == (!faults && old(lock).None?) && lock == if got then Some(k) else old(lock)
      ensures workers == old(workers)[k := Worker(if got then Granted(p) else Denied(p), job)]
    {
      hide CanTake, After, CombinedText;
      ghost var before := State();
      got := !faults && lock.None?;
      if got {
        lock := Some(k);
      }
      workers := workers[k := Worker(if got then Granted(p) else Denied(p), job)];
      Record(before, TryLock(k, faults));
    }

    /** The turn faulted: the lock is released and what was in hand goes back. */
    method ReleaseFaulted(ghost k: nat, ghost job: JobRef, ghost p: Phase)
      requires Traced() && k < |workers| && workers[k] == Worker(p, job) && HasLock(p)
      modifies `lock, `workers, `steps
      ensures Traced() && steps == old(steps) + [EndTurn(k, true)] && lock == None
      ensures workers == old(workers)[k := Worker(Denied(p), job)]
    {
      hide CanTake, After, Granted, Denied;
      ghost var before := State();
      lock := None;
      workers := workers[k := Worker(Denied(p), job)];
      Record(before, EndTurn(k, true));
    }

    /** A batch's turn ran: the lock is released and the batch is done. */
    method ReleaseBatch(ghost k: nat, job: JobRef, batch: seq<Message>, text: string, isVoice: bool)
      requires Traced() && k < |workers| && workers[k] == Worker(Running(batch), job)
      requires Combined(batch, text, isVoice) == TurnOf(batch)
      modifies `lock, `workers, `window, `after, `completed, `turns, `steps
      ensures Traced() && steps == old(steps) + [EndTurn(k, false)] && lock == None
      ensures turns == old(turns) + [Combined(batch, text, isVoice)] && completed == old(completed) + batch
    {
      hide CanTake, After, Retired, WindowWithout, Next, Enabled;
      ghost var before := State();
      BatchEnds(before, k, batch);
      lock, turns, completed := None, turns + [Combined(batch, text, isVoice)], completed + batch;
      Retire(k, job);
      Record(before, EndTurn(k, false));
    }

    /** An answer's turn ran. */
    method ReleaseAnswer(ghost k: nat, job: JobRef, answer: Answer)
      requires Traced() && k < |workers| && workers[k] == Worker(AnswerRunning(answer), job)
      modifies `lock, `workers, `window, `after, `answersDone, `turns, `steps
      ensures Traced() && steps == old(steps) + [EndTurn(k, false)] && lock == None
      ensures turns == old(turns) + [Answered(answer)]
    {
      hide CanTake, After, Retired, WindowWithout, Next, Enabled;
      ghost var before := State();
      AnswerEnds(before, k, answer);
      lock, turns, answersDone := None, turns + [Answered(answer)], answersDone + multiset{answer};
      Retire(k, job);
      Record(before, EndTurn(k, false));
    }

    method RequeueFront(ghost k: nat, ghost job: JobRef, batch: seq<Message>)
      requires Traced() && k < |workers| && workers[k] == Worker(Returning(batch), job)
      modifies `buffer, `workers, `steps
      ensures Traced() && steps == old(steps) + [Requeue(k)]
      ensures buffer == PutBack(batch) + old(buffer) && workers == old(workers)[k := Worker(Arming, job)]
    {
      hide CanTake, After, PutBack;
      ghost var before := State();
      buffer := PutBack(batch) + buffer;
      workers := workers[k := Worker(Arming, job)];
      Record(before, Requeue(k));
    }

    /** Arms a re-poll under an id of its own; best effort. */
    method ArmRepoll(ghost k: nat, job: JobRef, payload: Payload, fails: bool)
      requires Traced() && k < |workers|
      requires workers[k] == Worker(match payload case DrainBuffer => Arming case Carry(answer) =>
        AnswerArming(answer), job)
      modifies `workers, `window, `after, `steps
      ensures Traced() && steps == old(steps) + [ArmAfter(k, fails)]
      ensures after == if fails then Retired(old(after), job)
        else Retired(old(after), job) + [AfterJob(payload, Delayed)]
    {
      hide CanTake, After, Retired, WindowWithout;
      ghost var before := State();
      Retire(k, job);
      if !fails {
        after := after + [AfterJob(payload, Delayed)];
      }
      Record(before, ArmAfter(k, fails));
    }

    // --- the inbound path -------------------------------------------------------------------

    /** Appends the message, then slides the window; true when it opened the window. */
    method Buffer(message: Message, queueFails: bool) returns (first: bool)
      requires Traced()
      modifies `buffer, `arrivals, `unarmed, `window, `steps
      ensures Traced() && steps == old(steps) + [Event.Append(message), RemoveWindow, AddWindow(queueFails)]
      ensures first == (old(buffer) == []) && buffer == old(buffer) + [Entry(message, false)]
      ensures window == if old(window) == Active then Active else if queueFails then Gone else Delayed
    {
      hide Traced;
      var length := Append(message);
      ArmWindow(queueFails);
      first := length == 1;
    }

    /** Removes the still-delayed window job and adds it anew, which moves it to the latest message. */
    method ArmWindow(queueFails: bool)
      requires Traced() && unarmed > 0
      modifies `window, `unarmed, `steps
      ensures Traced() && steps == old(steps) + [RemoveWindow, AddWindow(queueFails)]
      ensures window == if old(window) == Active then Active else if queueFails then Gone else Delayed
    {
      hide Traced;
      RemoveWindowJob();
      AddWindowJob(queueFails);
    }

    // --- the drain ---------------------------------------------------------------------

    /** Runs the combined turn under the lock; `Some(false)` means busy, `None` a fault. */
    method RunDrainedTurn(k: nat, job: JobRef, batch: seq<Message>, env: Surroundings) returns (ran: Option<bool>)
      requires Traced() && k < |workers| && workers[k] == Worker(Holding(batch), job)
      modifies `lock, `workers, `window, `after, `completed, `turns, `steps
      ensures Traced() && lock == old(lock)
      ensures ran == Some(true) <==> Runs(batch, old(lock), env)
      ensures completed == if ran == Some(true) then old(completed) + batch else old(completed)
      ensures turns == if ran == Some(true) then old(turns) + TurnsOf(batch) else old(turns)
      ensures ran != Some(true) ==> after == old(after) && workers == old(workers)[k := Worker(Returning(batch), job)]
    {
      hide Traced, CombinedText, HasVoice;
      var combinedText := CombinedText(batch);
      if combinedText == "" {
        // Nothing substantive to run: treated as ran.
        Skip(k, job, batch);
        return Some(true);
      }
      var got := Acquire(k, job, Holding(batch), env.lockFaults);
      if !got {
        return if env.lockFaults then None else Some(false);
      }
      if env.turnFaults {
        ReleaseFaulted(k, job, Running(batch));
        return None;
      }
      ReleaseBatch(k, job, batch, combinedText, HasVoice(batch));
      return Some(true);
    }

    /** Puts the batch back at the front and arms a re-poll with a fresh id. */
    method QueueAfter(k: nat, job: JobRef, batch: seq<Message>, env: Surroundings)
      requires Traced() && k < |workers| && workers[k] == Worker(Returning(batch), job)
      modifies `buffer, `workers, `window, `after, `steps
      ensures Traced() && steps == old(steps) + [Requeue(k), ArmAfter(k, env.queueFails)]
      ensures buffer == PutBack(batch) + old(buffer)
      ensures !env.queueFails ==> after == Retired(old(after), job) + [AfterJob(Payload.DrainBuffer, Delayed)]
    {
      hide Traced, PutBack, Retired;
      RequeueFront(k, job, batch);
      ArmRepoll(k, job, Payload.DrainBuffer, env.queueFails);
    }

    /**
     * A fired drain job: reads and clears the buffer and runs one combined turn; on a
     * busy lock or a fault the whole batch is back at the front with a fresh re-poll.
     */
    method DrainAndRun(k: nat, job: JobRef, env: Surroundings)
      requires Traced() && k < |workers| && workers[k] == Worker(Fired, job)
      modifies `buffer, `lock, `workers, `window, `after, `completed, `turns, `steps
      ensures Traced() && lock == old(lock)
      ensures
        var batch := MessagesOf(old(buffer));
        if Runs(batch, old(lock), env) then
          buffer == [] && completed == old(completed) + batch && turns == old(turns) + TurnsOf(batch)
        else
          && buffer == PutBack(batch) && completed == old(completed) && turns == old(turns)
          && (env.queueFails || (|after| > 0 && after[|after| - 1] == AfterJob(Payload.DrainBuffer, Delayed)))
    {
      assert Runs([], lock, env) && TurnsOf([]) == [];
      hide Traced, Runs, TurnsOf, MessagesOf, PutBack, Retired;
      var batch := DrainBuffer(k, job);
      if batch == [] {
        return;
      }
      var ran := RunDrainedTurn(k, job, batch, env);
      if ran != Some(true) {
        QueueAfter(k, job, batch, env);
      }
    }

    // --- answers ------------------------------------------------------------------------

    /** One answer under the lock, never combined with anything. */
    method RunAnswerTurn(k: nat, job: JobRef, answer: Answer, env: Surroundings) returns (ran: Option<bool>)
      requires Traced() && k < |workers| && workers[k] == Worker(AnswerHolding(answer), job)
      modifies `lock, `workers, `window, `after, `answersDone, `turns, `steps
      ensures Traced() && lock == old(lock)
      ensures ran == Some(true) <==> old(lock).None? && !env.lockFaults && !env.turnFaults
      ensures turns == if ran == Some(true) then old(turns) + [Answered(answer)] else old(turns)
      ensures ran != Some(true) ==> workers == old(workers)[k := Worker(AnswerArming(answer), job)]
    {
      hide Traced;
      var got := Acquire(k, job, AnswerHolding(answer), env.lockFaults);
      if !got {
        return if env.lockFaults then None else Some(false);
      }
      if env.turnFaults {
        ReleaseFaulted(k, job, AnswerRunning(answer));
        return None;
      }
      ReleaseAnswer(k, job, answer);
      return Some(true);
    }

    /** An answer turn; busy or faulted, the answer rides a fresh job of its own. */
    method RunAnswerExclusive(k: nat, job: JobRef, answer: Answer, env: Surroundings)
      requires Traced() && k < |workers| && workers[k] == Worker(AnswerHolding(answer), job)
      modifies `lock, `workers, `window, `after, `answersDone, `turns, `steps
      ensures Traced() && lock == old(lock) && buffer == old(buffer)
      ensures
        var ran := old(lock).None? && !env.lockFaults && !env.turnFaults;
        && turns == (if ran then old(turns) + [Answered(answer)] else old(turns))
        && (!ran && !env.queueFails ==> |after| > 0 && after[|after| - 1] == AfterJob(Carry(answer), Delayed))
    {
      hide Traced, Retired;
      var ran := RunAnswerTurn(k, job, answer, env);
      if ran != Some(true) {
        ArmRepoll(k, job, Carry(answer), env.queueFails);
      }
    }
  }
}
