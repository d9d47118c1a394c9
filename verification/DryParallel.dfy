/** What a dry parallel run leaves in memory and on file (internal/bastion/init.go,
    phaseWorker): it marks pool phases it does not perform. */
module DryParallel {
  import opened Prelude
  import opened Checkpoints
  import opened Pool = PhasePool
  import opened ParallelRun

  /** The phases of the pool. */
  function PoolNames(r: Run): set<string> {
    set i | 0 <= i < |r.plan.par| :: r.plan.par[i]
  }

  /** A handler of a dry run never calls a function or fails, and once it has marked its
      task the phase is among the marked ones. */
  ghost predicate DryHandler(tasks: seq<string>, h: Handler, marked: set<string>, all: set<string>)
    requires h.Busy() ==> h.t < |tasks|
  {
    match h
    case Trying(_, _) => false
    case Snapshotting(t, v) => !v.Broken? && tasks[t] in marked
    case Writing(t, v, data) => !v.Broken? && tasks[t] in marked && Names(data.completedPhases) <= all
    case Flushing(t, v, data) => !v.Broken? && tasks[t] in marked && Names(data.completedPhases) <= all
    case Reporting(t, v) => !v.Broken? && tasks[t] in marked
    case _ => true
  }

  ghost predicate DryPool(r: Run, pool: Pool.Pool, marked: set<string>, all: set<string>) {
    && !pool.anyErr
    && (forall w | 0 <= w < |pool.workers| ::
          && (pool.workers[w].Busy() ==> pool.workers[w].t < |r.plan.par|)
          && DryHandler(r.plan.par, pool.workers[w], marked, all))
    && (forall i | 0 <= i < |pool.reports| ::
          && pool.reports[i].t < |r.plan.par| && !pool.reports[i].verdict.Broken?
          && r.plan.par[pool.reports[i].t] in marked)
  }

  ghost predicate DryStage(r: Run, s: DriverState)
    requires Inv(r, s)
  {
    var marked, all := Names(s.sh.progress.checkpoints), s.sh.returned + PoolNames(r);
    match s.stage
    case Batch(last, h) =>
      && (h.Begun? || (h.Reporting? && !h.verdict.Broken?))
      && (last ==> PoolNames(r) <= marked)
    case Pooling(pool) => DryPool(r, pool, marked, all)
    case Finished(false) => false
    case _ => PoolNames(r) <= marked
  }

  /** Nothing has returned since the start, and memory and file name nothing but what
      had and the phases of the pool. */
  ghost predicate Dry(r: Run, returned: set<string>, s: DriverState)
    requires Inv(r, s)
  {
    && s.sh.returned == returned
    && Names(s.sh.progress.checkpoints) <= returned + PoolNames(r)
    && FileNames(s.sh.file) <= returned + PoolNames(r)
    && DryStage(r, s)
  }

  lemma PoolHandlerStepDry(r: Run, h: Handler, sh: Shared, a: Answer, returned: set<string>)
    requires h.Busy() && h.t < |r.plan.par| && r.options.dryRun && sh.returned == returned
    requires Names(sh.progress.checkpoints) <= returned + PoolNames(r) && FileNames(sh.file) <= returned + PoolNames(r)
    requires DryHandler(r.plan.par, h, Names(sh.progress.checkpoints), returned + PoolNames(r))
    requires HandlerStep(PoolContext(r), h, sh, a).Some?
    ensures var m := HandlerStep(PoolContext(r), h, sh, a).value;
            && m.h.Busy() && m.h.t == h.t && m.sh.returned == returned
            && Names(sh.progress.checkpoints) <= Names(m.sh.progress.checkpoints) <= returned + PoolNames(r)
            && FileNames(m.sh.file) <= returned + PoolNames(r)
            && DryHandler(r.plan.par, m.h, Names(m.sh.progress.checkpoints), returned + PoolNames(r))
  {
    assert r.plan.par[h.t] in PoolNames(r);
  }

  lemma PoolMoveDry(r: Run, pool: Pool.Pool, w: nat, h: Handler, was: set<string>, marked: set<string>, all: set<string>)
    requires DryPool(r, pool, was, all) && was <= marked && w < |pool.workers|
    requires (h.Busy() ==> h.t < |r.plan.par|) && DryHandler(r.plan.par, h, marked, all)
    ensures DryPool(r, pool.(workers := pool.workers[w := h]), marked, all)
  {
  }

  lemma PoolStepDry(r: Run, pool: Pool.Pool, sh: Shared, e: Pool.Event, returned: set<string>)
    requires WellFormed(PoolContext(r), pool) && r.options.dryRun && sh.returned == returned
    requires Names(sh.progress.checkpoints) <= returned + PoolNames(r) && FileNames(sh.file) <= returned + PoolNames(r)
    requires DryPool(r, pool, Names(sh.progress.checkpoints), returned + PoolNames(r))
    requires Pool.Step(PoolContext(r), Pool.State(pool, sh), e).Some?
    ensures var next := Pool.Step(PoolContext(r), Pool.State(pool, sh), e).value;
            && next.sh.returned == returned
            && Names(next.sh.progress.checkpoints) <= returned + PoolNames(r)
            && FileNames(next.sh.file) <= returned + PoolNames(r)
            && DryPool(r, next.pool, Names(next.sh.progress.checkpoints), returned + PoolNames(r))
  {
    var next := Pool.Step(PoolContext(r), Pool.State(pool, sh), e).value;
    var marked, all := Names(sh.progress.checkpoints), returned + PoolNames(r);
    match e
    case Send(w) => PoolMoveDry(r, pool, w, Begun(pool.sent), marked, marked, all);
    case Close =>
    case Receive =>
    case Worker(w, answer) =>
      var h := pool.workers[w];
      if h.Reporting? || h.Waiting? {
        PoolMoveDry(r, pool, w, if h.Waiting? then Exited else Waiting, marked, marked, all);
      } else {
        PoolHandlerStepDry(r, h, sh, answer, returned);
        PoolMoveDry(r, pool, w, next.pool.workers[w], marked, Names(next.sh.progress.checkpoints), all);
      }
  }

  /** Once the collector has returned, every phase of the pool is marked. */
  lemma CollectedAreMarked(r: Run, pool: Pool.Pool, marked: set<string>, all: set<string>)
    requires PoolInv(PoolContext(r), pool) && DryPool(r, pool, marked, all) && Collected(PoolContext(r), pool)
    ensures PoolNames(r) <= marked
  {
    CollectedCovers(PoolContext(r), pool);
    forall t | 0 <= t < |r.plan.par| ensures r.plan.par[t] in marked {
      assert HasReport(pool.reports, t);
    }
  }

  lemma EnterDry(r: Run, last: bool, t: nat, sh: Shared)
    requires t <= |BatchContext(r, last).tasks| && (last ==> PoolNames(r) <= Names(sh.progress.checkpoints))
    ensures Inv(r, DriverState(Enter(r, last, t), sh)) && DryStage(r, DriverState(Enter(r, last, t), sh))
  {
  }

  lemma StepKeepsDry(r: Run, returned: set<string>, s: DriverState, e: ParallelRun.Event)
    requires Inv(r, s) && Dry(r, returned, s) && r.options.dryRun && ParallelRun.Step(r, s, e).Some?
    ensures Inv(r, ParallelRun.Step(r, s, e).value) && Dry(r, returned, ParallelRun.Step(r, s, e).value)
  {
    ParallelRun.StepKeepsInv(r, s, e);
    match s.stage
    case Batch(last, h) =>
      if h.Reporting? { EnterDry(r, last, h.t + 1, s.sh); }
    case Pooling(pool) =>
      if e.InPool? {
        PoolStepDry(r, pool, s.sh, e.event, returned);
      } else {
        CollectedAreMarked(r, pool, Names(s.sh.progress.checkpoints), returned + PoolNames(r));
        EnterDry(r, true, 0, s.sh);
      }
    case _ =>
  }

  lemma {:induction false} ExecKeepsDry(r: Run, returned: set<string>, s: DriverState, events: seq<ParallelRun.Event>)
    requires Inv(r, s) && Dry(r, returned, s) && r.options.dryRun
    ensures Dry(r, returned, ParallelRun.Exec(r, s, events))
    decreases |events|
  {
    if events != [] {
      match ParallelRun.Step(r, s, events[0])
      case None => ExecKeepsDry(r, returned, s, events[1..]);
      case Some(next) =>
        StepKeepsDry(r, returned, s, events[0]);
        ExecKeepsDry(r, returned, next, events[1..]);
    }
  }

  /** The pool is done with. */
  predicate PastPool(r: Run, s: DriverState) {
    match s.stage
    case Batch(last, _) => last
    case Pooling(pool) => Collected(PoolContext(r), pool)
    case _ => true
  }

  /** For any dry process, from any honest file, in any interleaving: its memory, and so
      what it saves and a resumed run would skip, is honest once the pool is done with
      exactly when every phase of the pool had already returned nil before; and the file
      never names more than those and the pool's. */
  lemma DryProcessIsHonestExactlyWhen(r: Run, file: File, returned: set<string>, now: int, events: seq<ParallelRun.Event>)
    requires r.options.dryRun && FileNames(file) <= returned
    ensures var end := ParallelRun.Exec(r, Boot(r, file, returned, now), events);
            && end.sh.returned == returned && FileNames(end.sh.file) <= returned + PoolNames(r)
            && (PastPool(r, end) ==>
                  (Names(end.sh.progress.checkpoints) <= returned <==> PoolNames(r) <= returned))
  {
    var s := Boot(r, file, returned, now);
    EnterDry(r, false, 0, s.sh);
    ExecKeepsDry(r, returned, s, events);
    var end := ParallelRun.Exec(r, s, events);
    if end.stage.Pooling? && PastPool(r, end) {
      CollectedAreMarked(r, end.stage.pool, Names(end.sh.progress.checkpoints), returned + PoolNames(r));
    }
  }
}
