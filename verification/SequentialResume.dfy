/** That a resumed sequential run skips what was done, and that what was done is there
    to be skipped (internal/bastion/init.go, executePhase and shouldSkipPhase;
    internal/bastion/checkpoint.go). */
module SequentialResume {
  import opened Prelude
  import opened PhaseErrors
  import opened Checkpoints
  import opened SequentialRunner

  // ----- What is marked is not called -----

  lemma StepSkips(owner: Owner, options: Options, phases: seq<string>, index: nat, st: RunState, reply: PhaseReply,
                  phase: string)
    requires index < |phases| && ShouldSkip(options, st.progress, phase)
    ensures var next := PhaseStep(owner, options, phases, index, st, reply);
            ShouldSkip(options, next.progress, phase) && Calls(next.log, phase) == Calls(st.log, phase)
  {
    if phases[index] != phase { RepeatCounts(phases[index], Retry(reply.attempts, 1).calls, phase); }
  }

  lemma {:induction false} PhasesSkip(owner: Owner, options: Options, phases: seq<string>, index: nat, st: RunState,
                                      replies: seq<PhaseReply>, phase: string)
    requires index <= |phases| && ShouldSkip(options, st.progress, phase)
    ensures Calls(PhasesFrom(owner, options, phases, index, st, replies).log, phase) == Calls(st.log, phase)
    decreases |phases| - index
  {
    if st.status.Running? && index < |phases| && index < |replies| {
      StepSkips(owner, options, phases, index, st, replies[index], phase);
      PhasesSkip(owner, options, phases, index + 1, PhaseStep(owner, options, phases, index, st, replies[index]),
                 replies, phase);
    }
  }

  /** A phase that the loaded checkpoint names is not called by a resumed run, whatever
      happens in it. */
  lemma MarkedPhaseIsNotCalled(owner: Owner, phases: seq<string>, w: World, run: Run, phase: string)
    requires ShouldSkip(run.options, Boot(owner, run.options, phases, w, run.reply.now).progress, phase)
    ensures Calls(RunOnce(owner, phases, w, run).log, phase) == Calls(w.log, phase)
  {
    PhasesSkip(owner, run.options, phases, 0, Boot(owner, run.options, phases, w, run.reply.now), run.reply.phases, phase);
  }

  // ----- What is done and saved is marked -----

  /** The file, unless an interrupted write has cut it, names the phase, and loads for
      a day from its last update. */
  predicate Secured(owner: Owner, file: File, phase: string) {
    file.Torn? || (file.Stored? && phase in FileNames(file) && ValidCheckpoint(owner, file.data, file.data.lastUpdate))
  }

  /** So does memory, and its counts are in order. */
  predicate Kept(owner: Owner, phases: seq<string>, st: RunState, phase: string) {
    && Secured(owner, st.file, phase) && phase in Names(st.progress.checkpoints)
    && st.progress.completedSteps <= st.progress.totalSteps == |phases|
  }

  lemma StepKeeps(owner: Owner, options: Options, phases: seq<string>, index: nat, st: RunState, reply: PhaseReply,
                  phase: string)
    requires index < |phases| && Kept(owner, phases, st, phase)
    ensures Kept(owner, phases, PhaseStep(owner, options, phases, index, st, reply), phase)
  {
  }

  lemma {:induction false} PhasesKeep(owner: Owner, options: Options, phases: seq<string>, index: nat, st: RunState,
                                      replies: seq<PhaseReply>, phase: string)
    requires index <= |phases| && Kept(owner, phases, st, phase)
    ensures Kept(owner, phases, PhasesFrom(owner, options, phases, index, st, replies), phase)
    decreases |phases| - index
  {
    if st.status.Running? && index < |phases| && index < |replies| {
      StepKeeps(owner, options, phases, index, st, replies[index], phase);
      PhasesKeep(owner, options, phases, index + 1, PhaseStep(owner, options, phases, index, st, replies[index]),
                 replies, phase);
    }
  }

  /** The run gets to the phase, its function returns nil, and the save that follows
      reaches the file. */
  predicate Saves(owner: Owner, options: Options, phases: seq<string>, index: nat, st: RunState,
                  replies: seq<PhaseReply>, phase: string)
    requires index <= |phases|
    decreases |phases| - index
  {
    && st.status.Running? && index < |phases| && index < |replies|
    && if phases[index] == phase && !ShouldSkip(options, st.progress, phase)
       then && !options.dryRun && Retry(replies[index].attempts, 1).outcome.Succeeded?
            && (replies[index].save.Written? || replies[index].save.KilledAfter?)
       else Saves(owner, options, phases, index + 1, PhaseStep(owner, options, phases, index, st, replies[index]),
                  replies, phase)
  }

  lemma {:induction false} SavedIsKept(owner: Owner, options: Options, phases: seq<string>, index: nat, st: RunState,
                                       replies: seq<PhaseReply>, phase: string)
    requires index <= |phases| && st.progress.totalSteps == |phases|
    requires Saves(owner, options, phases, index, st, replies, phase)
    ensures Kept(owner, phases, PhasesFrom(owner, options, phases, index, st, replies), phase)
    decreases |phases| - index
  {
    var next := PhaseStep(owner, options, phases, index, st, replies[index]);
    if phases[index] == phase && !ShouldSkip(options, st.progress, phase) {
      SaveSecures(owner, options, phases, index, st, replies[index]);
      PhasesKeep(owner, options, phases, index + 1, next, replies, phase);
    } else {
      SavedIsKept(owner, options, phases, index + 1, next, replies, phase);
    }
  }

  lemma SaveSecures(owner: Owner, options: Options, phases: seq<string>, index: nat, st: RunState, reply: PhaseReply)
    requires index < |phases| && st.progress.totalSteps == |phases|
    requires !options.dryRun && !ShouldSkip(options, st.progress, phases[index])
    requires Retry(reply.attempts, 1).outcome.Succeeded? && (reply.save.Written? || reply.save.KilledAfter?)
    ensures Kept(owner, phases, PhaseStep(owner, options, phases, index, st, reply), phases[index])
    ensures PhaseStep(owner, options, phases, index, st, reply).file.Stored?
  {
    var next := PhaseStep(owner, options, phases, index, st, reply);
    assert phases[index] in next.progress.checkpoints && next.progress.checkpoints[phases[index]];
  }

  /** The run resumes, in time, from a file that is whole. */
  predicate ResumesInTime(w: World, run: Run) {
    run.options.resume && w.file.Stored? && run.reply.now <= w.file.data.lastUpdate + DAY
  }

  lemma SecuredIsSkipped(owner: Owner, phases: seq<string>, w: World, run: Run, phase: string)
    requires Secured(owner, w.file, phase) && ResumesInTime(w, run)
    ensures ShouldSkip(run.options, Boot(owner, run.options, phases, w, run.reply.now).progress, phase)
  {
  }

  /** A phase that returned nil, and whose save reached the file, is named by the file
      that a run leaves that does not complete, unless a later write cut it; and then
      the next run that resumes within a day does not call it. */
  lemma SavedPhaseIsNotRepeated(owner: Owner, phases: seq<string>, w: World, run: Run, next: Run, phase: string)
    requires Saves(owner, run.options, phases, 0, Boot(owner, run.options, phases, w, run.reply.now), run.reply.phases, phase)
    ensures var st := RunOnce(owner, phases, w, run);
            var left := World(st.file, st.log);
            !st.status.Completed? ==>
              && Secured(owner, st.file, phase)
              && (ResumesInTime(left, next) ==> Calls(RunOnce(owner, phases, left, next).log, phase) == Calls(left.log, phase))
  {
    SavedIsKept(owner, run.options, phases, 0, Boot(owner, run.options, phases, w, run.reply.now), run.reply.phases, phase);
    var st := RunOnce(owner, phases, w, run);
    var left := World(st.file, st.log);
    if !st.status.Completed? && ResumesInTime(left, next) {
      SecuredIsSkipped(owner, phases, left, next, phase);
      MarkedPhaseIsNotCalled(owner, phases, left, next, phase);
    }
  }

  // ----- Over chains -----

  /** Every run of the chain resumes in time from a whole file, and none completes. */
  predicate AllResume(owner: Owner, phases: seq<string>, w: World, runs: seq<Run>)
    decreases |runs|
  {
    runs == [] ||
    (var st := RunOnce(owner, phases, w, runs[0]);
     && ResumesInTime(w, runs[0]) && !st.status.Completed?
     && AllResume(owner, phases, World(st.file, st.log), runs[1..]))
  }

  lemma ResumedRunKeepsSecured(owner: Owner, phases: seq<string>, w: World, run: Run, phase: string)
    requires Secured(owner, w.file, phase) && ResumesInTime(w, run)
    requires !RunOnce(owner, phases, w, run).status.Completed?
    ensures Secured(owner, RunOnce(owner, phases, w, run).file, phase)
  {
    var st := Boot(owner, run.options, phases, w, run.reply.now);
    LoadedIsSecured(owner, run.options, phases, 0, st, run.reply.phases, phase);
  }

  /** As `Kept`, before the first phase has set the step count. */
  lemma {:induction false} LoadedIsSecured(owner: Owner, options: Options, phases: seq<string>, index: nat, st: RunState,
                                           replies: seq<PhaseReply>, phase: string)
    requires index <= |phases| && st.progress.totalSteps == |phases|
    requires Secured(owner, st.file, phase) && phase in Names(st.progress.checkpoints)
    ensures Secured(owner, PhasesFrom(owner, options, phases, index, st, replies).file, phase)
    decreases |phases| - index
  {
    if st.status.Running? && index < |phases| && index < |replies| {
      LoadedIsSecured(owner, options, phases, index + 1, PhaseStep(owner, options, phases, index, st, replies[index]),
                      replies, phase);
    }
  }

  /** Once saved, a phase is never called again by any chain of runs that resume within
      a day of the last save, until one of them completes or an interrupted write cuts
      the file. */
  lemma {:induction false} SavedPhaseIsNeverRepeated(owner: Owner, phases: seq<string>, w: World, runs: seq<Run>, phase: string)
    requires Secured(owner, w.file, phase) && AllResume(owner, phases, w, runs)
    ensures Calls(Chain(owner, phases, w, runs).log, phase) == Calls(w.log, phase)
    decreases |runs|
  {
    if runs != [] {
      SecuredIsSkipped(owner, phases, w, runs[0], phase);
      MarkedPhaseIsNotCalled(owner, phases, w, runs[0], phase);
      ResumedRunKeepsSecured(owner, phases, w, runs[0], phase);
      var st := RunOnce(owner, phases, w, runs[0]);
      SavedPhaseIsNeverRepeated(owner, phases, World(st.file, st.log), runs[1..], phase);
    }
  }

  // ----- When a run completes -----

  /** Phase `i` is skipped, or its function returns nil within its tries and the process
      lives through the save. */
  predicate Passes(options: Options, phases: seq<string>, p: Progress, replies: seq<PhaseReply>, i: nat)
    requires i < |phases|
  {
    && i < |replies|
    && (ShouldSkip(options, p, phases[i])
        || (Retry(replies[i].attempts, 1).outcome.Succeeded? && replies[i].save.Alive()))
  }

  predicate AllPass(options: Options, phases: seq<string>, index: nat, p: Progress, replies: seq<PhaseReply>) {
    forall i: nat | index <= i < |phases| :: Passes(options, phases, p, replies, i)
  }

  lemma StepPasses(owner: Owner, options: Options, phases: seq<string>, index: nat, st: RunState, replies: seq<PhaseReply>)
    requires DistinctPhases(phases) && index < |phases| && index < |replies| && !options.dryRun && st.status.Running?
    ensures var next := PhaseStep(owner, options, phases, index, st, replies[index]);
            && (next.status.Running? <==> Passes(options, phases, st.progress, replies, index))
            && forall i: nat | index < i < |phases| ::
                 Passes(options, phases, next.progress, replies, i) <==> Passes(options, phases, st.progress, replies, i)
  {
  }

  /** `StepPasses`, as the loop sees it. */
  lemma StepGoesOn(owner: Owner, options: Options, phases: seq<string>, index: nat, st: RunState, replies: seq<PhaseReply>)
      returns (next: RunState)
    requires DistinctPhases(phases) && index < |phases| && index < |replies| && !options.dryRun && st.status.Running?
    ensures PhasesFrom(owner, options, phases, index, st, replies) ==
            PhasesFrom(owner, options, phases, index + 1, next, replies)
    ensures AllPass(options, phases, index, st.progress, replies) <==>
              next.status.Running? && AllPass(options, phases, index + 1, next.progress, replies)
  {
    next := PhaseStep(owner, options, phases, index, st, replies[index]);
    StepPasses(owner, options, phases, index, st, replies);
    PassesFirst(options, phases, index, st.progress, next.progress, replies);
  }

  lemma PassesFirst(options: Options, phases: seq<string>, index: nat, p: Progress, next: Progress, replies: seq<PhaseReply>)
    requires index < |phases|
    requires forall i: nat | index < i < |phases| ::
               Passes(options, phases, next, replies, i) <==> Passes(options, phases, p, replies, i)
    ensures AllPass(options, phases, index, p, replies) <==>
              Passes(options, phases, p, replies, index) && AllPass(options, phases, index + 1, next, replies)
  {
  }

  lemma NothingIsLeft(owner: Owner, options: Options, phases: seq<string>, index: nat, st: RunState,
                      replies: seq<PhaseReply>)
    requires index <= |phases| && !(st.status.Running? && index < |phases| && index < |replies|)
    ensures PhasesFrom(owner, options, phases, index, st, replies).status.Running? <==>
              st.status.Running? && AllPass(options, phases, index, st.progress, replies)
  {
    if index < |phases| && index >= |replies| { assert !Passes(options, phases, st.progress, replies, index); }
  }

  lemma {:induction false} PhasesPass(owner: Owner, options: Options, phases: seq<string>, index: nat, st: RunState,
                                      replies: seq<PhaseReply>)
    requires DistinctPhases(phases) && index <= |phases| && !options.dryRun
    ensures PhasesFrom(owner, options, phases, index, st, replies).status.Running? <==>
              st.status.Running? && AllPass(options, phases, index, st.progress, replies)
    decreases |phases| - index
  {
    if st.status.Running? && index < |phases| && index < |replies| {
      var next := StepGoesOn(owner, options, phases, index, st, replies);
      PhasesPass(owner, options, phases, index + 1, next, replies);
    } else {
      NothingIsLeft(owner, options, phases, index, st, replies);
    }
  }

  /** A run reports success exactly when every phase is one that its checkpoint names, or
      returns nil within its tries with the process alive after the save. */
  lemma RunCompletesExactlyWhen(owner: Owner, phases: seq<string>, w: World, run: Run)
    requires DistinctPhases(phases) && !run.options.dryRun
    ensures var st := Boot(owner, run.options, phases, w, run.reply.now);
            RunOnce(owner, phases, w, run).status.Completed? <==>
              AllPass(run.options, phases, 0, st.progress, run.reply.phases)
  {
    var st := Boot(owner, run.options, phases, w, run.reply.now);
    PhasesPass(owner, run.options, phases, 0, st, run.reply.phases);
    OnlyFinalizingCompletes(owner, run.options, phases, 0, st, run.reply.phases);
  }
}
