/** That the parallel driver records what it has done, and does not do it again
    (internal/bastion/init.go, phaseWorker, runPhasesSequential). */
module ParallelMarks {
  import opened Prelude
  import opened PhaseErrors
  import opened Checkpoints
  import opened Pool = PhasePool
  import opened ParallelRun

  // ----- What has been performed is marked -----

  /** A handler that is past its task without an error has marked it, and what it is
      writing names it. */
  ghost predicate HandlerMarked(tasks: seq<string>, h: Handler, marked: set<string>)
    requires h.Busy() ==> h.t < |tasks|
  {
    match h
    case Snapshotting(t, v) => v.Broken? || tasks[t] in marked
    case Writing(t, v, data) => v.Broken? || (tasks[t] in marked && tasks[t] in Names(data.completedPhases))
    case Flushing(t, v, data) => v.Broken? || (tasks[t] in marked && tasks[t] in Names(data.completedPhases))
    case Reporting(t, v) => v.Broken? || tasks[t] in marked
    case _ => true
  }

  ghost predicate AllIn(tasks: seq<string>, marked: set<string>) {
    forall i | 0 <= i < |tasks| :: tasks[i] in marked
  }

  ghost predicate PoolMarked(r: Run, pool: Pool.Pool, marked: set<string>) {
    && (forall w | 0 <= w < |pool.workers| ::
          && (pool.workers[w].Busy() ==> pool.workers[w].t < |r.plan.par|)
          && HandlerMarked(r.plan.par, pool.workers[w], marked))
    && (forall i | 0 <= i < |pool.reports| ::
          && pool.reports[i].t < |r.plan.par|
          && (pool.reports[i].verdict.Broken? || r.plan.par[pool.reports[i].t] in marked))
  }

  /** Everything the driver is past is marked. */
  ghost predicate AllMarked(r: Run, s: DriverState)
    requires Inv(r, s)
  {
    var marked := Names(s.sh.progress.checkpoints);
    match s.stage
    case Batch(last, h) =>
      && HandlerMarked(BatchContext(r, last).tasks, h, marked)
      && AllIn(BatchContext(r, last).tasks[..h.t], marked)
      && (last ==> AllIn(r.plan.pre, marked) && AllIn(r.plan.par, marked))
    case Pooling(pool) => AllIn(r.plan.pre, marked) && PoolMarked(r, pool, marked)
    case Finished(false) => true
    case _ => AllIn(r.plan.pre + r.plan.par + r.plan.post, marked)
  }

  lemma HandlerStepMarks(cx: Context, h: Handler, sh: Shared, a: Answer)
    requires h.Busy() && h.t < |cx.tasks| && !cx.options.dryRun && HandlerStep(cx, h, sh, a).Some?
    requires HandlerMarked(cx.tasks, h, Names(sh.progress.checkpoints))
    ensures var m := HandlerStep(cx, h, sh, a).value;
            && m.h.Busy() && m.h.t == h.t
            && Names(sh.progress.checkpoints) <= Names(m.sh.progress.checkpoints)
            && HandlerMarked(cx.tasks, m.h, Names(m.sh.progress.checkpoints))
  {
  }

  /** A write that goes through whole leaves a file that names the handler's task. */
  lemma WholeWriteNamesTheTask(cx: Context, h: Handler, sh: Shared)
    requires h.Flushing? && h.t < |cx.tasks| && !h.verdict.Broken?
    requires HandlerMarked(cx.tasks, h, Names(sh.progress.checkpoints))
    ensures var m := HandlerStep(cx, h, sh, Flush(true)); m.Some? && cx.tasks[h.t] in FileNames(m.value.sh.file)
  {
  }

  lemma PoolMoveMarked(r: Run, pool: Pool.Pool, w: nat, h: Handler, was: set<string>, marked: set<string>)
    requires PoolMarked(r, pool, was) && was <= marked && w < |pool.workers|
    requires (h.Busy() ==> h.t < |r.plan.par|) && HandlerMarked(r.plan.par, h, marked)
    ensures PoolMarked(r, pool.(workers := pool.workers[w := h]), marked)
  {
  }

  lemma PoolStepMarks(r: Run, pool: Pool.Pool, sh: Shared, e: Pool.Event)
    requires WellFormed(PoolContext(r), pool) && !r.options.dryRun
    requires PoolMarked(r, pool, Names(sh.progress.checkpoints))
    requires Pool.Step(PoolContext(r), Pool.State(pool, sh), e).Some?
    ensures var next := Pool.Step(PoolContext(r), Pool.State(pool, sh), e).value;
            && Names(sh.progress.checkpoints) <= Names(next.sh.progress.checkpoints)
            && PoolMarked(r, next.pool, Names(next.sh.progress.checkpoints))
  {
    var next := Pool.Step(PoolContext(r), Pool.State(pool, sh), e).value;
    var marked := Names(sh.progress.checkpoints);
    match e
    case Send(w) => PoolMoveMarked(r, pool, w, Begun(pool.sent), marked, marked);
    case Close =>
    case Receive =>
    case Worker(w, answer) =>
      var h := pool.workers[w];
      if h.Reporting? || h.Waiting? {
        PoolMoveMarked(r, pool, w, if h.Waiting? then Exited else Waiting, marked, marked);
      } else {
        HandlerStepMarks(PoolContext(r), h, sh, answer);
        PoolMoveMarked(r, pool, w, next.pool.workers[w], marked, Names(next.sh.progress.checkpoints));
      }
  }

  /** When the collector returns, each task of the pool is marked or was reported with
      an error. */
  lemma CollectedAreMarked(r: Run, pool: Pool.Pool, marked: set<string>)
    requires PoolInv(PoolContext(r), pool) && PoolMarked(r, pool, marked) && Collected(PoolContext(r), pool)
    ensures forall t | 0 <= t < |r.plan.par| :: r.plan.par[t] in marked || Pool.Report(t, Broken) in pool.reports
    ensures !pool.anyErr ==> AllIn(r.plan.par, marked)
  {
    CollectedCovers(PoolContext(r), pool);
    forall t | 0 <= t < |r.plan.par|
      ensures r.plan.par[t] in marked || (Pool.Report(t, Broken) in pool.reports && pool.anyErr)
    {
      assert HasReport(pool.reports, t);
      var i :| 0 <= i < |pool.reports| && pool.reports[i].t == t;
      if pool.reports[i].verdict.Broken? { assert pool.reports[i] == Pool.Report(t, Broken); }
    }
  }

  lemma EnterMarked(r: Run, last: bool, t: nat, sh: Shared)
    requires t <= |BatchContext(r, last).tasks|
    requires AllIn(BatchContext(r, last).tasks[..t], Names(sh.progress.checkpoints))
    requires last ==> AllIn(r.plan.pre, Names(sh.progress.checkpoints)) && AllIn(r.plan.par, Names(sh.progress.checkpoints))
    ensures Inv(r, DriverState(Enter(r, last, t), sh)) && AllMarked(r, DriverState(Enter(r, last, t), sh))
  {
    var tasks := BatchContext(r, last).tasks;
    if t == |tasks| { assert tasks[..t] == tasks; }
  }

  lemma StepKeepsMarked(r: Run, s: DriverState, e: ParallelRun.Event)
    requires Inv(r, s) && AllMarked(r, s) && !r.options.dryRun && ParallelRun.Step(r, s, e).Some?
    ensures Inv(r, ParallelRun.Step(r, s, e).value) && AllMarked(r, ParallelRun.Step(r, s, e).value)
  {
    ParallelRun.StepKeepsInv(r, s, e);
    match s.stage
    case Batch(last, h) =>
      var tasks := BatchContext(r, last).tasks;
      if h.Reporting? {
        assert tasks[..h.t + 1] == tasks[..h.t] + [tasks[h.t]];
        if !h.verdict.Broken? { EnterMarked(r, last, h.t + 1, s.sh); }
      } else {
        HandlerStepMarks(BatchContext(r, last), h, s.sh, e.answer);
      }
    case Pooling(pool) =>
      if e.InPool? {
        PoolStepMarks(r, pool, s.sh, e.event);
      } else if !pool.anyErr {
        CollectedAreMarked(r, pool, Names(s.sh.progress.checkpoints));
        EnterMarked(r, true, 0, s.sh);
      }
    case _ =>
  }

  lemma {:induction false} ExecKeepsMarked(r: Run, s: DriverState, events: seq<ParallelRun.Event>)
    requires Inv(r, s) && AllMarked(r, s) && !r.options.dryRun
    ensures AllMarked(r, ParallelRun.Exec(r, s, events))
    decreases |events|
  {
    if events != [] {
      match ParallelRun.Step(r, s, events[0])
      case None => ExecKeepsMarked(r, s, events[1..]);
      case Some(next) =>
        StepKeepsMarked(r, s, events[0]);
        ExecKeepsMarked(r, next, events[1..]);
    }
  }

  /** In every state an interleaving of a run that is not a dry one can reach, from any
      file: every task a handler is past without an error is marked, in the batches and
      in the pool, and so is everything the driver has left behind; a checkpoint being
      written names its own phase. */
  lemma EveryInterleavingMarks(r: Run, file: File, returned: set<string>, now: int, events: seq<ParallelRun.Event>)
    requires !r.options.dryRun
    ensures AllMarked(r, ParallelRun.Exec(r, Boot(r, file, returned, now), events))
  {
    var s := Boot(r, file, returned, now);
    EnterMarked(r, false, 0, s.sh);
    ExecKeepsMarked(r, s, events);
  }

  /** So the memory of a run outside a dry one agrees with what has happened once its
      driver is through: what it marked returned nil, and every phase is marked. */
  lemma SuccessMarksExactlyItsPhases(r: Run, file: File, returned: set<string>, now: int, events: seq<ParallelRun.Event>)
    requires !r.options.dryRun && FileNames(file) <= returned
    ensures var end := ParallelRun.Exec(r, Boot(r, file, returned, now), events);
            end.stage == Finished(true) ==>
              && AllIn(r.plan.pre + r.plan.par + r.plan.post, Names(end.sh.progress.checkpoints))
              && Names(end.sh.progress.checkpoints) <= end.sh.returned
  {
    EveryInterleavingMarks(r, file, returned, now, events);
    BootIsSound(r, file, returned, now);
    EveryInterleavingIsSound(r, Boot(r, file, returned, now), events);
  }

  // ----- What is marked is not done again -----

  /** No handler is past the start of this phase but to report it skipped. */
  ghost predicate HandlerSkips(tasks: seq<string>, h: Handler, phase: string)
    requires h.Busy() ==> h.t < |tasks|
  {
    h.Busy() && tasks[h.t] == phase ==> h.Begun? || (h.Reporting? && h.verdict.Skipped?)
  }

  ghost predicate AllSkip(r: Run, s: DriverState, phase: string)
    requires Inv(r, s)
  {
    && ShouldSkip(r.options, s.sh.progress, phase)
    && match s.stage
       case Batch(last, h) => HandlerSkips(BatchContext(r, last).tasks, h, phase)
       case Pooling(pool) =>
         forall w | 0 <= w < |pool.workers| ::
           && (pool.workers[w].Busy() ==> pool.workers[w].t < |r.plan.par|)
           && HandlerSkips(r.plan.par, pool.workers[w], phase)
       case _ => true
  }

  lemma HandlerStepSkips(cx: Context, h: Handler, sh: Shared, a: Answer, phase: string)
    requires h.Busy() && h.t < |cx.tasks| && HandlerStep(cx, h, sh, a).Some?
    requires ShouldSkip(cx.options, sh.progress, phase) && HandlerSkips(cx.tasks, h, phase)
    ensures var m := HandlerStep(cx, h, sh, a).value;
            && m.h.Busy() && m.h.t == h.t
            && ShouldSkip(cx.options, m.sh.progress, phase) && HandlerSkips(cx.tasks, m.h, phase)
  {
  }

  lemma StepKeepsSkipping(r: Run, s: DriverState, e: ParallelRun.Event, phase: string)
    requires Inv(r, s) && AllSkip(r, s, phase) && ParallelRun.Step(r, s, e).Some?
    ensures Inv(r, ParallelRun.Step(r, s, e).value) && AllSkip(r, ParallelRun.Step(r, s, e).value, phase)
  {
    ParallelRun.StepKeepsInv(r, s, e);
    match s.stage
    case Batch(last, h) =>
      if !h.Reporting? { HandlerStepSkips(BatchContext(r, last), h, s.sh, e.answer, phase); }
    case Pooling(pool) =>
      if e.InPool? && e.event.Worker? && pool.workers[e.event.w].Busy() && !pool.workers[e.event.w].Reporting? {
        HandlerStepSkips(PoolContext(r), pool.workers[e.event.w], s.sh, e.event.answer, phase);
      }
    case _ =>
  }

  lemma {:induction false} ExecKeepsSkipping(r: Run, s: DriverState, events: seq<ParallelRun.Event>, phase: string)
    requires Inv(r, s) && AllSkip(r, s, phase)
    ensures AllSkip(r, ParallelRun.Exec(r, s, events), phase)
    decreases |events|
  {
    if events != [] {
      match ParallelRun.Step(r, s, events[0])
      case None => ExecKeepsSkipping(r, s, events[1..], phase);
      case Some(next) =>
        StepKeepsSkipping(r, s, events[0], phase);
        ExecKeepsSkipping(r, next, events[1..], phase);
    }
  }

  /** A resumed run that loaded a checkpoint naming a phase never calls its function, in
      any interleaving. */
  lemma MarkedPhaseIsNeverCalled(r: Run, file: File, returned: set<string>, now: int, events: seq<ParallelRun.Event>,
                                 phase: string)
    requires r.options.resume && Loaded(r.owner, file, now).Some? && phase in FileNames(file)
    ensures AllSkip(r, ParallelRun.Exec(r, Boot(r, file, returned, now), events), phase)
  {
    ExecKeepsSkipping(r, Boot(r, file, returned, now), events, phase);
  }

  // ----- What makes it fail -----

  /** A worker's tries are those of the retry loop: what it comes to, given how each call
      of the function ends. */
  function AfterTries(cx: Context, h: Handler, sh: Shared, attempts: seq<Attempt>): Handler
    requires h.Busy() && h.t < |cx.tasks|
    decreases |attempts|
  {
    if attempts == [] || !h.Trying? then h
    else
      var next := match attempts[0]
        case ReturnedNil => HandlerStep(cx, h, sh, ReturnsNil)
        case Raised(message, cancelled) => HandlerStep(cx, h, sh, Raises(message, cancelled))
        case Killed => None;
      if next.None? || !next.value.h.Busy() || next.value.h.t >= |cx.tasks| then h
      else AfterTries(cx, next.value.h, next.value.sh, attempts[1..])
  }

  lemma FirstTry(cx: Context, t: nat, attempt: nat, sh: Shared, attempts: seq<Attempt>)
    requires t < |cx.tasks| && 1 <= attempt <= MAX_RETRIES && attempts != []
    ensures var h := AfterTries(cx, Trying(t, attempt), sh, attempts);
            match attempts[0]
            case ReturnedNil => h == Marking(t)
            case Killed => h == Trying(t, attempt)
            case Raised(_, _) =>
              if TriesAgain(attempts[0]) && attempt < MAX_RETRIES
              then h == AfterTries(cx, Trying(t, attempt + 1), sh, attempts[1..])
              else h == Snapshotting(t, Broken)
  {
    if attempts[0].Raised? {
      var raised := HandlerStep(cx, Trying(t, attempt), sh, Raises(attempts[0].message, attempts[0].cancelled));
      assert raised == if TriesAgain(attempts[0]) && attempt < MAX_RETRIES then Some(Moved(Trying(t, attempt + 1), sh))
                       else Some(Moved(Snapshotting(t, Broken), sh));
    }
  }

  lemma {:induction false} TriesAreTheRetryLoop(cx: Context, t: nat, attempt: nat, sh: Shared, attempts: seq<Attempt>)
    requires t < |cx.tasks| && 1 <= attempt <= MAX_RETRIES
    ensures var h := AfterTries(cx, Trying(t, attempt), sh, attempts);
            match Retry(attempts, attempt).outcome
            case Succeeded => h == Marking(t)
            case Failed => h == Snapshotting(t, Broken)
            case Died => h.Trying? && h.t == t
    decreases |attempts|
  {
    if attempts != [] {
      FirstTry(cx, t, attempt, sh, attempts);
      if TriesAgain(attempts[0]) && attempt < MAX_RETRIES {
        TriesAreTheRetryLoop(cx, t, attempt + 1, sh, attempts[1..]);
      }
    }
  }

  predicate Unbroken(h: Handler) {
    (h.Snapshotting? || h.Writing? || h.Flushing? || h.Reporting?) ==> !h.verdict.Broken?
  }

  predicate RaisesNothing(e: ParallelRun.Event) {
    match e
    case Loop(answer) => !answer.Raises?
    case InPool(Worker(_, answer)) => !answer.Raises?
    case _ => true
  }

  ghost predicate NothingBroken(s: DriverState) {
    match s.stage
    case Batch(_, h) => Unbroken(h)
    case Pooling(pool) =>
      && !pool.anyErr
      && (forall w | 0 <= w < |pool.workers| :: Unbroken(pool.workers[w]))
      && (forall i | 0 <= i < |pool.reports| :: !pool.reports[i].verdict.Broken?)
    case Finished(ok) => ok
    case _ => true
  }

  lemma StepBreaksNothing(r: Run, s: DriverState, e: ParallelRun.Event)
    requires Inv(r, s) && NothingBroken(s) && RaisesNothing(e) && ParallelRun.Step(r, s, e).Some?
    ensures NothingBroken(ParallelRun.Step(r, s, e).value)
  {
  }

  /** A run whose functions never return an error never fails, in any interleaving: no
      save, crash of a write or order of events makes it. */
  lemma {:induction false} OnlyErrorsFail(r: Run, s: DriverState, events: seq<ParallelRun.Event>)
    requires Inv(r, s) && NothingBroken(s) && forall e | e in events :: RaisesNothing(e)
    ensures NothingBroken(ParallelRun.Exec(r, s, events))
    ensures ParallelRun.Exec(r, s, events).stage != Finished(false)
    decreases |events|
  {
    if events != [] {
      match ParallelRun.Step(r, s, events[0])
      case None => OnlyErrorsFail(r, s, events[1..]);
      case Some(next) =>
        ParallelRun.StepKeepsInv(r, s, events[0]);
        StepBreaksNothing(r, s, events[0]);
        OnlyErrorsFail(r, next, events[1..]);
    }
  }
}
