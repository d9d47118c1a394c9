/** Chains of processes, sequential and parallel, that share one checkpoint file
    (internal/bastion/init.go, checkpoint.go). */
module ResumeSafety {
  import opened Prelude
  import opened PhaseErrors
  import opened Checkpoints
  import SR = SequentialRunner
  import PR = ParallelRun

  /** The file, and the phases whose function has ever returned nil. */
  datatype World = World(file: File, returned: set<string>)

  datatype Process =
    | Sequential(phases: seq<string>, run: SR.Run)
    | Parallel(options: Options, workers: int, plan: PR.Plan, now: int, events: seq<PR.Event>)
  {
    /** A parallel dry run marks pool tasks it did not perform. */
    predicate MarksHonestly() { Parallel? ==> !options.dryRun }
  }

  function ParallelEnd(owner: Owner, w: World, p: Process): PR.DriverState
    requires p.Parallel?
  {
    var r := PR.Run(owner, p.options, p.workers, p.plan);
    PR.Exec(r, PR.Boot(r, w.file, w.returned, p.now), p.events)
  }

  function SequentialEnd(owner: Owner, w: World, p: Process): SR.RunState
    requires p.Sequential?
  {
    SR.RunOnce(owner, p.phases, SR.World(w.file, []), p.run)
  }

  /** The world after a process has run, to its end or to wherever it died. */
  function After(owner: Owner, w: World, p: Process): World {
    if p.Sequential? then
      var end := SequentialEnd(owner, w, p);
      World(end.file, w.returned + SR.Done(end.log))
    else
      var end := ParallelEnd(owner, w, p);
      World(end.sh.file, end.sh.returned)
  }

  function Chain(owner: Owner, w: World, processes: seq<Process>): World
    decreases |processes|
  {
    if processes == [] then w else Chain(owner, After(owner, w, processes[0]), processes[1..])
  }

  ghost predicate Honest(w: World) {
    FileNames(w.file) <= w.returned
  }

  ghost predicate HonestState(returned: set<string>, st: SR.RunState) {
    && Names(st.progress.checkpoints) <= returned + SR.Done(st.log)
    && FileNames(st.file) <= returned + SR.Done(st.log)
  }

  lemma StepLogs(owner: Owner, options: Options, phases: seq<string>, index: nat, st: SR.RunState, reply: SR.PhaseReply)
    requires index < |phases|
    ensures var next := SR.PhaseStep(owner, options, phases, index, st, reply);
            && SR.Done(st.log) <= SR.Done(next.log)
            && Names(next.progress.checkpoints) <= Names(st.progress.checkpoints) + SR.Done(next.log)
  {
    var calling := SR.Repeat(phases[index], Retry(reply.attempts, 1).calls);
    SR.DoneExtends(st.log, calling);
    SR.DoneExtends(st.log + calling, [SR.Returned(phases[index])]);
    assert SR.Returned(phases[index]) in [SR.Returned(phases[index])];
  }

  lemma SequentialStepHonest(owner: Owner, options: Options, phases: seq<string>, index: nat, st: SR.RunState,
                             reply: SR.PhaseReply, returned: set<string>)
    requires index < |phases| && HonestState(returned, st)
    ensures HonestState(returned, SR.PhaseStep(owner, options, phases, index, st, reply))
  {
    StepLogs(owner, options, phases, index, st, reply);
  }

  lemma {:induction false} SequentialHonest(owner: Owner, options: Options, phases: seq<string>, index: nat,
                                            st: SR.RunState, replies: seq<SR.PhaseReply>, returned: set<string>)
    requires index <= |phases| && HonestState(returned, st)
    ensures HonestState(returned, SR.PhasesFrom(owner, options, phases, index, st, replies))
    decreases |phases| - index
  {
    if st.status.Running? && index < |phases| && index < |replies| {
      SequentialStepHonest(owner, options, phases, index, st, replies[index], returned);
      SequentialHonest(owner, options, phases, index + 1,
                       SR.PhaseStep(owner, options, phases, index, st, replies[index]), replies, returned);
    }
  }

  lemma ProcessKeepsHonest(owner: Owner, w: World, p: Process)
    requires Honest(w) && p.MarksHonestly()
    ensures Honest(After(owner, w, p)) && w.returned <= After(owner, w, p).returned
  {
    if p.Sequential? {
      var st := SR.Boot(owner, p.run.options, p.phases, SR.World(w.file, []), p.run.reply.now);
      assert SR.Done([]) == {};
      SequentialHonest(owner, p.run.options, p.phases, 0, st, p.run.reply.phases, w.returned);
    } else {
      var r := PR.Run(owner, p.options, p.workers, p.plan);
      PR.BootIsSound(r, w.file, w.returned, p.now);
      PR.EveryInterleavingIsSound(r, PR.Boot(r, w.file, w.returned, p.now), p.events);
    }
  }

  /** Over every chain of sequential and parallel processes, failing, dying at any
      point and interleaving their checkpoint writes in any order: each phase the
      file names is one whose function returned nil in some process. */
  lemma {:induction false} TheFileNeverOverclaims(owner: Owner, w: World, processes: seq<Process>)
    requires Honest(w) && forall p | p in processes :: p.MarksHonestly()
    ensures Honest(Chain(owner, w, processes)) && w.returned <= Chain(owner, w, processes).returned
    decreases |processes|
  {
    if processes != [] {
      ProcessKeepsHonest(owner, w, processes[0]);
      TheFileNeverOverclaims(owner, After(owner, w, processes[0]), processes[1..]);
    }
  }

  /** So wherever a process of either kind has got to, after any such chain, a phase it
      would skip is a phase that has returned nil. */
  lemma ResumeNeverSkipsUndoneWork(owner: Owner, w: World, before: seq<Process>, p: Process, phase: string)
    requires Honest(w) && (forall q | q in before :: q.MarksHonestly()) && p.MarksHonestly()
    ensures var now := Chain(owner, w, before);
            if p.Parallel? then
              var end := ParallelEnd(owner, now, p);
              ShouldSkip(p.options, end.sh.progress, phase) ==> phase in end.sh.returned
            else
              var end := SequentialEnd(owner, now, p);
              ShouldSkip(p.run.options, end.progress, phase) ==> phase in now.returned + SR.Done(end.log)
  {
    TheFileNeverOverclaims(owner, w, before);
    var now := Chain(owner, w, before);
    if p.Parallel? {
      var r := PR.Run(owner, p.options, p.workers, p.plan);
      PR.BootIsSound(r, now.file, now.returned, p.now);
      PR.EveryInterleavingIsSound(r, PR.Boot(r, now.file, now.returned, p.now), p.events);
    } else {
      var st := SR.Boot(owner, p.run.options, p.phases, SR.World(now.file, []), p.run.reply.now);
      SequentialHonest(owner, p.run.options, p.phases, 0, st, p.run.reply.phases, now.returned);
    }
  }

  ghost predicate Reached(phases: seq<string>, index: nat, returned: set<string>, st: SR.RunState)
    requires index <= |phases|
  {
    st.status.Running? ==> forall j | 0 <= j < index :: phases[j] in returned + SR.Done(st.log)
  }

  lemma StepReaches(owner: Owner, options: Options, phases: seq<string>, index: nat, st: SR.RunState,
                    reply: SR.PhaseReply, returned: set<string>)
    requires index < |phases| && !options.dryRun && st.status.Running?
    requires HonestState(returned, st) && Reached(phases, index, returned, st)
    ensures Reached(phases, index + 1, returned, SR.PhaseStep(owner, options, phases, index, st, reply))
  {
    var next := SR.PhaseStep(owner, options, phases, index, st, reply);
    if next.status.Running? && !ShouldSkip(options, st.progress, phases[index]) {
      var calling := SR.Repeat(phases[index], Retry(reply.attempts, 1).calls);
      SR.DoneExtends(st.log, calling);
      SR.DoneExtends(st.log + calling, [SR.Returned(phases[index])]);
      assert SR.Returned(phases[index]) in [SR.Returned(phases[index])];
    }
  }

  lemma {:induction false} SequentialReaches(owner: Owner, options: Options, phases: seq<string>, index: nat,
                                             st: SR.RunState, replies: seq<SR.PhaseReply>, returned: set<string>)
    requires index <= |phases| && !options.dryRun && HonestState(returned, st) && Reached(phases, index, returned, st)
    ensures Reached(phases, |phases|, returned, SR.PhasesFrom(owner, options, phases, index, st, replies))
    decreases |phases| - index
  {
    if st.status.Running? && index < |phases| && index < |replies| {
      SequentialStepHonest(owner, options, phases, index, st, replies[index], returned);
      StepReaches(owner, options, phases, index, st, replies[index], returned);
      SequentialReaches(owner, options, phases, index + 1,
                        SR.PhaseStep(owner, options, phases, index, st, replies[index]), replies, returned);
    }
  }

  /** And a process of either kind that reports success without being a dry run has,
      over all processes, seen every one of its phases return nil. */
  lemma SuccessMeansEveryPhaseReturned(owner: Owner, w: World, before: seq<Process>, p: Process)
    requires Honest(w) && forall q | q in before :: q.MarksHonestly()
    ensures var now := Chain(owner, w, before);
            p.Parallel? && !p.options.dryRun && ParallelEnd(owner, now, p).stage == PR.Finished(true) ==>
              forall phase | phase in p.plan.pre + p.plan.par + p.plan.post ::
                phase in ParallelEnd(owner, now, p).sh.returned
    ensures var now := Chain(owner, w, before);
            p.Sequential? && !p.run.options.dryRun && SequentialEnd(owner, now, p).status.Completed? ==>
              forall phase | phase in p.phases :: phase in now.returned + SR.Done(SequentialEnd(owner, now, p).log)
  {
    TheFileNeverOverclaims(owner, w, before);
    var now := Chain(owner, w, before);
    if p.Parallel? && !p.options.dryRun {
      var r := PR.Run(owner, p.options, p.workers, p.plan);
      PR.BootIsSound(r, now.file, now.returned, p.now);
      PR.EveryInterleavingIsSound(r, PR.Boot(r, now.file, now.returned, p.now), p.events);
    } else if p.Sequential? && !p.run.options.dryRun {
      var st := SR.Boot(owner, p.run.options, p.phases, SR.World(now.file, []), p.run.reply.now);
      SequentialReaches(owner, p.run.options, p.phases, 0, st, p.run.reply.phases, now.returned);
      SR.OnlyFinalizingCompletes(owner, p.run.options, p.phases, 0, st, p.run.reply.phases);
    }
  }

  /** In a sequential process after any such chain, whatever kinds it was made of, each
      phase is called only when every phase listed before it has returned nil, in this
      process or in an earlier one. */
  lemma MixedChainsAreOrdered(owner: Owner, w: World, before: seq<Process>, p: Process)
    requires Honest(w) && (forall q | q in before :: q.MarksHonestly()) && p.Sequential?
    requires SR.DistinctPhases(p.phases)
    ensures var now := Chain(owner, w, before);
            SR.OrderedLog(p.phases, now.returned, SequentialEnd(owner, now, p).log)
  {
    TheFileNeverOverclaims(owner, w, before);
    var now := Chain(owner, w, before);
    assert SR.OrderedLog(p.phases, now.returned, []) && SR.Done([]) == {};
    SR.RunKeepsSound(owner, p.phases, now.returned, SR.World(now.file, []), p.run);
  }
}
