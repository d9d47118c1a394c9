/** The whole parallel driver (internal/bastion/init.go: executeParallelPhases):
    a sequential batch, the pool, a second sequential batch, then finalizing.
    A crash is a list of events that stops early. */
module ParallelRun {
  import opened Prelude
  import opened PhaseErrors
  import opened Checkpoints
  import opened Pool = PhasePool

  /** The three phase lists, and the length of the list the sequential driver
      would have run, which is what TotalSteps is set to. */
  datatype Plan = Plan(listed: nat, pre: seq<string>, par: seq<string>, post: seq<string>)

  datatype Stage =
    | Batch(last: bool, h: Handler)
    | Pooling(pool: Pool.Pool)
    | Finalizing
    | Finished(ok: bool)

  datatype Run = Run(owner: Owner, options: Options, workers: int, plan: Plan)

  datatype DriverState = DriverState(stage: Stage, sh: Shared)

  datatype Event = Loop(answer: Answer) | InPool(event: Pool.Event) | Finalize(cleared: bool)

  function BatchContext(r: Run, last: bool): Context {
    Context(r.owner, r.options, if last then r.plan.post else r.plan.pre, false)
  }

  function PoolContext(r: Run): Context {
    Context(r.owner, r.options, r.plan.par, true)
  }

  /** Where the driver stands before task `t` of a batch. */
  function Enter(r: Run, last: bool, t: nat): Stage {
    if t < |BatchContext(r, last).tasks| then Batch(last, Begun(t))
    else if last then Finalizing
    else Pooling(NewPool(PoolContext(r), r.workers))
  }

  ghost predicate Inv(r: Run, s: DriverState) {
    match s.stage
    case Batch(last, h) =>
      && h.Busy() && h.t < |BatchContext(r, last).tasks|
      && (h.Trying? ==> 1 <= h.attempt <= MAX_RETRIES)
    case Pooling(pool) => PoolInv(PoolContext(r), pool)
    case _ => true
  }

  function Step(r: Run, s: DriverState, e: Event): Option<DriverState>
    requires Inv(r, s)
  {
    match s.stage
    case Batch(last, h) =>
      if !e.Loop? then None
      else if h.Reporting? then
        if !e.answer.Go? then None
        else Some(s.(stage := if h.verdict.Broken? then Finished(false) else Enter(r, last, h.t + 1)))
      else (match HandlerStep(BatchContext(r, last), h, s.sh, e.answer)
            case None => None
            case Some(m) => Some(DriverState(Batch(last, m.h), m.sh)))
    case Pooling(pool) =>
      if e.InPool? then
        (match Pool.Step(PoolContext(r), Pool.State(pool, s.sh), e.event)
         case None => None
         case Some(next) => Some(DriverState(Pooling(next.pool), next.sh)))
      else if e.Loop? && e.answer.Go? && Collected(PoolContext(r), pool)
      then Some(s.(stage := if pool.anyErr then Finished(false) else Enter(r, true, 0)))
      else None
    case Finalizing =>
      if e.Finalize?
      then Some(DriverState(Finished(true), s.sh.(progress := s.sh.progress.(completedSteps := r.plan.listed),
                                                  file := if e.cleared then Absent else s.sh.file)))
      else None
    case Finished(_) => None
  }

  function Boot(r: Run, file: File, returned: set<string>, now: int): (s: DriverState)
    ensures Inv(r, s)
  {
    var p := if r.options.resume then Restored(Loaded(r.owner, file, now), now) else FreshProgress(now);
    DriverState(Enter(r, false, 0), Shared(p.(totalSteps := r.plan.listed, startTime := now), file, returned))
  }

  lemma StepKeepsInv(r: Run, s: DriverState, e: Event)
    requires Inv(r, s) && Step(r, s, e).Some?
    ensures Inv(r, Step(r, s, e).value)
  {
    match s.stage
    case Batch(last, h) =>
      if !h.Reporting? { HandlerKeepsTask(BatchContext(r, last), h, s.sh, e.answer); }
    case Pooling(pool) =>
      if e.InPool? { Pool.StepKeepsInv(PoolContext(r), Pool.State(pool, s.sh), e.event); }
    case _ =>
  }

  function Exec(r: Run, s: DriverState, events: seq<Event>): (end: DriverState)
    requires Inv(r, s)
    ensures Inv(r, end)
    decreases |events|
  {
    if events == [] then s
    else match Step(r, s, events[0])
      case None => Exec(r, s, events[1..])
      case Some(next) => StepKeepsInv(r, s, events[0]); Exec(r, next, events[1..])
  }

  // ----- Nothing is called done that was not -----

  ghost predicate HandlerSound(tasks: seq<string>, h: Handler, returned: set<string>)
    requires h.Busy() ==> h.t < |tasks|
  {
    match h
    case Marking(t) => tasks[t] in returned
    case Snapshotting(t, v) => v.Broken? || tasks[t] in returned
    case Writing(t, v, data) => (v.Broken? || tasks[t] in returned) && Names(data.completedPhases) <= returned
    case Flushing(t, v, data) => (v.Broken? || tasks[t] in returned) && Names(data.completedPhases) <= returned
    case Reporting(t, v) => v.Broken? || tasks[t] in returned
    case _ => true
  }

  ghost predicate SharedSound(sh: Shared) {
    Names(sh.progress.checkpoints) <= sh.returned && FileNames(sh.file) <= sh.returned
  }

  ghost predicate AllReturned(tasks: seq<string>, returned: set<string>) {
    forall i | 0 <= i < |tasks| :: tasks[i] in returned
  }

  ghost predicate PoolSound(r: Run, pool: Pool.Pool, returned: set<string>) {
    && (forall w | 0 <= w < |pool.workers| ::
          && (pool.workers[w].Busy() ==> pool.workers[w].t < |r.plan.par|)
          && HandlerSound(r.plan.par, pool.workers[w], returned))
    && (forall i | 0 <= i < |pool.reports| ::
          && pool.reports[i].t < |r.plan.par|
          && (pool.reports[i].verdict.Broken? || r.plan.par[pool.reports[i].t] in returned))
  }

  /** The stages that come after a list of phases find all of it done. */
  ghost predicate StageSound(r: Run, s: DriverState)
    requires Inv(r, s)
  {
    match s.stage
    case Batch(last, h) =>
      && HandlerSound(BatchContext(r, last).tasks, h, s.sh.returned)
      && AllReturned(BatchContext(r, last).tasks[..h.t], s.sh.returned)
      && (last ==> AllReturned(r.plan.pre, s.sh.returned) && AllReturned(r.plan.par, s.sh.returned))
    case Pooling(pool) => AllReturned(r.plan.pre, s.sh.returned) && PoolSound(r, pool, s.sh.returned)
    case Finished(false) => true
    case _ => AllReturned(r.plan.pre + r.plan.par + r.plan.post, s.sh.returned)
  }

  ghost predicate Sound(r: Run, s: DriverState)
    requires Inv(r, s)
  {
    SharedSound(s.sh) && StageSound(r, s)
  }

  /** A step of one handler outside a dry run keeps its own bookkeeping honest and
      never takes a phase back, so the other handlers are not disturbed. */
  lemma HandlerStepSound(cx: Context, h: Handler, sh: Shared, a: Answer)
    requires h.Busy() && h.t < |cx.tasks| && !cx.options.dryRun
    requires SharedSound(sh) && HandlerSound(cx.tasks, h, sh.returned)
    requires HandlerStep(cx, h, sh, a).Some?
    ensures var m := HandlerStep(cx, h, sh, a).value;
            && m.h.Busy() && m.h.t == h.t
            && SharedSound(m.sh) && sh.returned <= m.sh.returned
            && HandlerSound(cx.tasks, m.h, m.sh.returned)
  {
  }

  lemma EnterSound(r: Run, last: bool, t: nat, sh: Shared)
    requires t <= |BatchContext(r, last).tasks| && SharedSound(sh)
    requires AllReturned(BatchContext(r, last).tasks[..t], sh.returned)
    requires last ==> AllReturned(r.plan.pre, sh.returned) && AllReturned(r.plan.par, sh.returned)
    ensures Inv(r, DriverState(Enter(r, last, t), sh)) && Sound(r, DriverState(Enter(r, last, t), sh))
  {
    var tasks := BatchContext(r, last).tasks;
    if t == |tasks| { assert tasks[..t] == tasks; }
  }

  /** One worker moves on, honestly, and the rest of the pool stays. */
  lemma PoolMoveSound(r: Run, pool: Pool.Pool, w: nat, h: Handler, was: set<string>, returned: set<string>)
    requires PoolSound(r, pool, was) && was <= returned && w < |pool.workers|
    requires (h.Busy() ==> h.t < |r.plan.par|) && HandlerSound(r.plan.par, h, returned)
    ensures PoolSound(r, pool.(workers := pool.workers[w := h]), returned)
  {
  }

  lemma PoolStepSound(r: Run, pool: Pool.Pool, sh: Shared, e: Pool.Event)
    requires WellFormed(PoolContext(r), pool) && !r.options.dryRun
    requires SharedSound(sh) && PoolSound(r, pool, sh.returned)
    requires Pool.Step(PoolContext(r), Pool.State(pool, sh), e).Some?
    ensures var next := Pool.Step(PoolContext(r), Pool.State(pool, sh), e).value;
            && sh.returned <= next.sh.returned && SharedSound(next.sh)
            && PoolSound(r, next.pool, next.sh.returned)
  {
    var next := Pool.Step(PoolContext(r), Pool.State(pool, sh), e).value;
    match e
    case Send(w) => PoolMoveSound(r, pool, w, Begun(pool.sent), sh.returned, sh.returned);
    case Close =>
    case Receive =>
    case Worker(w, answer) =>
      var h := pool.workers[w];
      if h.Reporting? || h.Waiting? {
        PoolMoveSound(r, pool, w, if h.Waiting? then Exited else Waiting, sh.returned, sh.returned);
      } else {
        HandlerStepSound(PoolContext(r), h, sh, answer);
        PoolMoveSound(r, pool, w, next.pool.workers[w], sh.returned, next.sh.returned);
      }
  }

  lemma CollectedSound(r: Run, pool: Pool.Pool, returned: set<string>)
    requires PoolInv(PoolContext(r), pool) && PoolSound(r, pool, returned)
    requires Collected(PoolContext(r), pool) && !pool.anyErr
    ensures AllReturned(r.plan.par, returned)
  {
    CollectedCovers(PoolContext(r), pool);
    forall t | 0 <= t < |r.plan.par| ensures r.plan.par[t] in returned {
      assert HasReport(pool.reports, t);
      var i :| 0 <= i < |pool.reports| && pool.reports[i].t == t;
      assert !pool.reports[i].verdict.Broken?;
    }
  }

  lemma StepKeepsSound(r: Run, s: DriverState, e: Event)
    requires Inv(r, s) && Sound(r, s) && !r.options.dryRun && Step(r, s, e).Some?
    ensures Inv(r, Step(r, s, e).value) && Sound(r, Step(r, s, e).value)
    ensures s.sh.returned <= Step(r, s, e).value.sh.returned
  {
    StepKeepsInv(r, s, e);
    match s.stage
    case Batch(last, h) =>
      var tasks := BatchContext(r, last).tasks;
      if h.Reporting? {
        assert tasks[..h.t + 1] == tasks[..h.t] + [tasks[h.t]];
        if !h.verdict.Broken? { EnterSound(r, last, h.t + 1, s.sh); }
      } else {
        HandlerStepSound(BatchContext(r, last), h, s.sh, e.answer);
      }
    case Pooling(pool) =>
      if e.InPool? {
        PoolStepSound(r, pool, s.sh, e.event);
      } else if !pool.anyErr {
        CollectedSound(r, pool, s.sh.returned);
        EnterSound(r, true, 0, s.sh);
      }
    case _ =>
  }

  /** In every state an interleaving can reach, crashed or not: the file, the
      memory and every snapshot in flight only name phases that returned nil, and
      no phase of the last batch is under way before every phase of the first
      batch and of the pool has. */
  lemma {:induction false} EveryInterleavingIsSound(r: Run, s: DriverState, events: seq<Event>)
    requires Inv(r, s) && Sound(r, s) && !r.options.dryRun
    ensures Sound(r, Exec(r, s, events))
    ensures s.sh.returned <= Exec(r, s, events).sh.returned
    decreases |events|
  {
    if events != [] {
      match Step(r, s, events[0])
      case None => EveryInterleavingIsSound(r, s, events[1..]);
      case Some(next) =>
        StepKeepsSound(r, s, events[0]);
        EveryInterleavingIsSound(r, next, events[1..]);
    }
  }

  lemma BootIsSound(r: Run, file: File, returned: set<string>, now: int)
    requires FileNames(file) <= returned
    ensures Sound(r, Boot(r, file, returned, now))
  {
    EnterSound(r, false, 0, Boot(r, file, returned, now).sh);
  }

  /** A dry run is the exception, and the pool is the only place: marking a task
      keeps the bookkeeping honest exactly when its function has returned nil,
      which a dry run does not wait for. */
  lemma MarkingIsHonestExactlyWhen(cx: Context, t: nat, sh: Shared)
    requires t < |cx.tasks| && SharedSound(sh)
    ensures SharedSound(HandlerStep(cx, Marking(t), sh, Go).value.sh) <==> cx.tasks[t] in sh.returned
  {
    var marked := HandlerStep(cx, Marking(t), sh, Go).value.sh;
    assert cx.tasks[t] in Names(marked.progress.checkpoints);
  }

  /** The only worker of a pool makes a move. */
  lemma AloneMoves(cx: Context, p: Pool.Pool, sh: Shared, a: Answer, events: seq<Pool.Event>) returns (m: Moved)
    requires PoolInv(cx, p) && |p.workers| == 1 && p.workers[0].Busy() && !p.workers[0].Reporting?
    requires events != [] && events[0] == Worker(0, a) && HandlerStep(cx, p.workers[0], sh, a).Some?
    ensures m == HandlerStep(cx, p.workers[0], sh, a).value && PoolInv(cx, p.(workers := [m.h]))
    ensures Pool.Exec(cx, Pool.State(p, sh), events) == Pool.Exec(cx, Pool.State(p.(workers := [m.h]), m.sh), events[1..])
  {
    m := HandlerStep(cx, p.workers[0], sh, a).value;
    Pool.StepKeepsInv(cx, Pool.State(p, sh), events[0]);
    assert p.workers[0 := m.h] == [m.h];
  }

  lemma WritingIsSaved(cx: Context, p: Pool.Pool, sh: Shared, data: CheckpointData, v: Verdict, events: seq<Pool.Event>)
    requires PoolInv(cx, p) && p.workers == [Writing(0, v, data)]
    requires |events| == 2 && events[0] == Worker(0, Cut) && events[1] == Worker(0, Flush(true))
    ensures Pool.Exec(cx, Pool.State(p, sh), events).sh == sh.(file := Stored(data))
  {
    var m := AloneMoves(cx, p, sh, Cut, events);
    var end := AloneMoves(cx, p.(workers := [m.h]), m.sh, Flush(true), events[1..]);
  }

  lemma MarkingIsTaken(cx: Context, p: Pool.Pool, sh: Shared, now: int, events: seq<Pool.Event>) returns (next: Pool.State)
    requires PoolInv(cx, p) && p.workers == [Marking(0)]
    requires |events| >= 2 && events[0] == Worker(0, Go) && events[1] == Worker(0, Snapshot(now))
    ensures var marked := Marked(sh.progress, cx.tasks[0]);
            && next.sh == sh.(progress := marked)
            && next.pool.workers == [Writing(0, Performed, DataOf(cx.owner, marked, now))]
    ensures PoolInv(cx, next.pool) && Pool.Exec(cx, Pool.State(p, sh), events) == Pool.Exec(cx, next, events[2..])
  {
    var m := AloneMoves(cx, p, sh, Go, events);
    var taken := AloneMoves(cx, p.(workers := [m.h]), m.sh, Snapshot(now), events[1..]);
    next := Pool.State(p.(workers := [taken.h]), taken.sh);
    assert events[1..][1..] == events[2..];
  }

  lemma MarkingIsSaved(cx: Context, p: Pool.Pool, sh: Shared, now: int, events: seq<Pool.Event>)
    requires PoolInv(cx, p) && p.workers == [Marking(0)] && |events| == 4
    requires events[0] == Worker(0, Go) && events[1] == Worker(0, Snapshot(now))
    requires events[2] == Worker(0, Cut) && events[3] == Worker(0, Flush(true))
    ensures var marked := Marked(sh.progress, cx.tasks[0]);
            Pool.Exec(cx, Pool.State(p, sh), events).sh ==
            sh.(progress := marked, file := Stored(DataOf(cx.owner, marked, now)))
  {
    var next := MarkingIsTaken(cx, p, sh, now, events);
    WritingIsSaved(cx, next.pool, next.sh, next.pool.workers[0].data, Performed, events[2..]);
  }

  /** So a dry parallel run over any pool task leaves a checkpoint from which the
      next run skips a phase that never ran. */
  lemma DryPoolRunIsSkippedLater(owner: Owner, phase: string, now: int)
    ensures var cx := Context(owner, Options(true, true, false), [phase], true);
            var s := Pool.Exec(cx, Pool.State(NewPool(cx, 1), Shared(FreshProgress(now), Absent, {})),
                               [Send(0), Worker(0, Go), Worker(0, Go), Worker(0, Snapshot(now)), Worker(0, Cut),
                                Worker(0, Flush(true))]);
            && s.sh.returned == {}
            && ShouldSkip(cx.options, Restored(Loaded(owner, s.sh.file, now), now), phase)
  {
    var cx := Context(owner, Options(true, true, false), [phase], true);
    var p, sh := NewPool(cx, 1), Shared(FreshProgress(now), Absent, {});
    var saving := [Worker(0, Go), Worker(0, Snapshot(now)), Worker(0, Cut), Worker(0, Flush(true))];
    var events := [Send(0), Worker(0, Go)] + saving;
    Pool.StepKeepsInv(cx, Pool.State(p, sh), events[0]);
    var sent := p.(workers := [Begun(0)], sent := 1);
    assert p.workers[0 := Begun(0)] == [Begun(0)];
    var m := AloneMoves(cx, sent, sh, Go, events[1..]);
    assert events[1..][1..] == saving;
    MarkingIsSaved(cx, sent.(workers := [m.h]), m.sh, now, saving);
    assert [Send(0), Worker(0, Go), Worker(0, Go), Worker(0, Snapshot(now)), Worker(0, Cut), Worker(0, Flush(true))] == events;
  }

  // ----- Which parallel checkpoints can be resumed from -----

  /** Once a reporter has announced a pool task the total is zero for good. */
  lemma ZeroTotalStays(r: Run, s: DriverState, e: Event)
    requires Inv(r, s) && r.options.reporter && s.sh.progress.totalSteps == 0 && Step(r, s, e).Some?
    ensures Step(r, s, e).value.sh.progress.totalSteps == 0
  {
  }

  /** The progress of the last batch under a reporter after the pool announced a
      task: no steps in total, and as many completed as the batch is past. */
  ghost predicate Deflated(r: Run, s: DriverState) {
    s.stage.Batch? && s.stage.last ==>
      s.sh.progress.totalSteps == 0 && (s.stage.h.Busy() && !s.stage.h.Begun? && !s.stage.h.Reporting? ==>
        s.sh.progress.completedSteps == s.stage.h.t)
  }

  lemma {:induction false} DeflatedStays(r: Run, s: DriverState, events: seq<Event>)
    requires Inv(r, s) && r.options.reporter && s.sh.progress.totalSteps == 0 && Deflated(r, s)
    ensures Exec(r, s, events).sh.progress.totalSteps == 0 && Deflated(r, Exec(r, s, events))
    decreases |events|
  {
    if events != [] {
      match Step(r, s, events[0])
      case None => DeflatedStays(r, s, events[1..]);
      case Some(next) =>
        StepKeepsInv(r, s, events[0]);
        ZeroTotalStays(r, s, events[0]);
        DeflatedStays(r, next, events[1..]);
    }
  }

  /** With a reporter, from the moment the pool announces a task: of the
      checkpoints the last batch saves, the one of its first phase is the only
      one a later run will accept. */
  lemma OnlyFirstPostCheckpointIsAccepted(r: Run, s: DriverState, events: seq<Event>, saved: int, now: int)
    requires Inv(r, s) && r.options.reporter && s.stage.Pooling? && s.sh.progress.totalSteps == 0
    requires now - saved <= DAY
    ensures var end := Exec(r, s, events);
            end.stage.Batch? && end.stage.last && end.stage.h.Snapshotting? ==>
              (Loaded(r.owner, Stored(DataOf(r.owner, end.sh.progress, saved)), now).Some? <==> end.stage.h.t == 0)
  {
    DeflatedStays(r, s, events);
  }

  /** A pool task that is announced under a reporter takes the total to zero. */
  lemma AnnouncingZeroesTheTotal(r: Run, s: DriverState, w: nat)
    requires Inv(r, s) && r.options.reporter && s.stage.Pooling? && w < |s.stage.pool.workers|
    requires s.stage.pool.workers[w].Begun?
    requires !ShouldSkip(r.options, s.sh.progress, r.plan.par[s.stage.pool.workers[w].t])
    ensures var next := Step(r, s, InPool(Worker(w, Go)));
            next.Some? && next.value.stage.Pooling? && next.value.sh.progress.totalSteps == 0
  {
  }

  /** Whether this event starts a phase of a sequential batch. */
  predicate StartsBatchPhase(r: Run, s: DriverState, e: Event) {
    s.stage.Batch? && s.stage.h.Begun? && e == Loop(Go) && s.stage.h.t < |BatchContext(r, s.stage.last).tasks|
    && !ShouldSkip(r.options, s.sh.progress, BatchContext(r, s.stage.last).tasks[s.stage.h.t])
  }

  function Starts(r: Run, s: DriverState, events: seq<Event>): nat
    requires Inv(r, s)
    decreases |events|
  {
    if events == [] then 0
    else match Step(r, s, events[0])
      case None => Starts(r, s, events[1..])
      case Some(next) =>
        StepKeepsInv(r, s, events[0]);
        (if StartsBatchPhase(r, s, events[0]) then 1 else 0) + Starts(r, next, events[1..])
  }

  /** One move, and what it adds to the step count. */
  lemma StepCounts(r: Run, s: DriverState, e: Event)
    requires Inv(r, s) && !r.options.reporter && !s.stage.Finished? && Step(r, s, e).Some?
    ensures var next := Step(r, s, e).value;
            !next.stage.Finished? || !next.stage.ok ==>
              && next.sh.progress.totalSteps == s.sh.progress.totalSteps
              && next.sh.progress.completedSteps ==
                 s.sh.progress.completedSteps + if StartsBatchPhase(r, s, e) then 1 else 0
  {
  }

  /** Without a reporter the step count is the number of batch phases started so
      far, restarts included: in this run, on top of what the loaded checkpoint
      had. */
  lemma {:induction false} StartsAreCounted(r: Run, s: DriverState, events: seq<Event>)
    requires Inv(r, s) && !r.options.reporter && !s.stage.Finished?
    ensures var end := Exec(r, s, events);
            !end.stage.Finished? || !end.stage.ok ==>
              && end.sh.progress.totalSteps == s.sh.progress.totalSteps
              && end.sh.progress.completedSteps == s.sh.progress.completedSteps + Starts(r, s, events)
    decreases |events|
  {
    if events != [] {
      match Step(r, s, events[0])
      case None => StartsAreCounted(r, s, events[1..]);
      case Some(next) =>
        StepKeepsInv(r, s, events[0]);
        StepCounts(r, s, events[0]);
        if next.stage.Finished? {
          FinishedStays(r, next, events[1..]);
        } else {
          StartsAreCounted(r, next, events[1..]);
        }
    }
  }

  lemma {:induction false} FinishedStays(r: Run, s: DriverState, events: seq<Event>)
    requires Inv(r, s) && s.stage.Finished?
    ensures Exec(r, s, events) == s && Starts(r, s, events) == 0
    decreases |events|
  {
    if events != [] { FinishedStays(r, s, events[1..]); }
  }

  /** So without a reporter a checkpoint of a parallel run is accepted within a
      day exactly when those starts are no more than the phases of the sequential
      list: a phase that keeps failing in resumed runs pushes them over. */
  lemma CheckpointAcceptedExactlyWhen(r: Run, file: File, returned: set<string>, boot: int, events: seq<Event>,
                                      saved: int, now: int)
    requires !r.options.reporter && now - saved <= DAY
    ensures var s := Boot(r, file, returned, boot);
            var end := Exec(r, s, events);
            !end.stage.Finished? ==>
              (Loaded(r.owner, Stored(DataOf(r.owner, end.sh.progress, saved)), now).Some? <==>
               s.sh.progress.completedSteps + Starts(r, s, events) <= r.plan.listed)
  {
    StartsAreCounted(r, Boot(r, file, returned, boot), events);
  }
}
