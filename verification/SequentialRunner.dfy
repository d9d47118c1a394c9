/** The sequential driver of the bastion phases
    (internal/bastion/init.go: executeSequentialPhases and what it calls), over
    chains of runs that fail, die and resume. */
module SequentialRunner {
  import opened Prelude
  import opened PhaseErrors
  import opened Checkpoints

  /** What the phase functions did, in order, over all runs. */
  datatype Event = Called(phase: string) | Returned(phase: string)

  /** What outlives a process. */
  datatype World = World(file: File, log: seq<Event>)

  datatype Status = Running | Completed | Errored | Dead

  /** A checkpoint handed to Save, with the progress it was made from. */
  datatype SaveRecord = SaveRecord(progress: Progress, data: CheckpointData)

  datatype RunState = RunState(
    progress: Progress,
    file: File,
    log: seq<Event>,
    saves: seq<SaveRecord>,
    status: Status)

  /** The environment of one phase: what each call of its function does, and how
      the save that follows ends. */
  datatype PhaseReply = PhaseReply(attempts: seq<Attempt>, saveTime: int, save: WriteReply)

  /** The environment of one run; a process also dies when `phases` runs out. */
  datatype RunReply = RunReply(now: int, phases: seq<PhaseReply>, cleared: bool)

  datatype Run = Run(options: Options, reply: RunReply)

  function Repeat(phase: string, calls: nat): (r: seq<Event>)
    ensures |r| == calls && forall i | 0 <= i < calls :: r[i] == Called(phase)
  {
    seq(calls, _ => Called(phase))
  }

  function Saved(owner: Owner, st: RunState, reply: PhaseReply): RunState {
    var data := DataOf(owner, st.progress, reply.saveTime);
    st.(file := AfterWrite(st.file, data, reply.save), saves := st.saves + [SaveRecord(st.progress, data)])
  }

  /** One phase: skipped, announced only (dry run), or tried, then checkpointed. */
  function PhaseStep(owner: Owner, options: Options, phases: seq<string>, index: nat, st: RunState,
                     reply: PhaseReply): RunState
    requires index < |phases|
  {
    var phase := phases[index];
    if ShouldSkip(options, st.progress, phase) then st
    else
      var begun := st.(progress := st.progress.(
        currentStep := phase, completedSteps := index,
        totalSteps := if options.reporter then |phases| else st.progress.totalSteps));
      if options.dryRun then begun
      else
        var tried := Retry(reply.attempts, 1);
        var called := begun.(log := begun.log + Repeat(phase, tried.calls));
        match tried.outcome
        case Died => called.(status := Dead)
        case Failed =>
          var s := Saved(owner, called, reply);
          s.(status := if reply.save.Alive() then Errored else Dead)
        case Succeeded =>
          var marked := called.(progress := Marked(called.progress, phase),
                                log := called.log + [Returned(phase)]);
          var s := Saved(owner, marked, reply);
          s.(status := if reply.save.Alive() then Running else Dead)
  }

  function PhasesFrom(owner: Owner, options: Options, phases: seq<string>, index: nat, st: RunState,
                      replies: seq<PhaseReply>): RunState
    requires index <= |phases|
    decreases |phases| - index
  {
    if !st.status.Running? || index == |phases| then st
    else if index >= |replies| then st.(status := Dead)
    else PhasesFrom(owner, options, phases, index + 1,
                    PhaseStep(owner, options, phases, index, st, replies[index]), replies)
  }

  function Boot(owner: Owner, options: Options, phases: seq<string>, w: World, now: int): RunState {
    var p := if options.resume then Restored(Loaded(owner, w.file, now), now) else FreshProgress(now);
    RunState(p.(totalSteps := |phases|, startTime := now), w.file, w.log, [], Running)
  }

  function Finalized(phases: seq<string>, st: RunState, cleared: bool): RunState {
    if st.status.Running?
    then st.(progress := st.progress.(completedSteps := |phases|),
             file := if cleared then Absent else st.file, status := Completed)
    else st
  }

  function RunOnce(owner: Owner, phases: seq<string>, w: World, run: Run): RunState {
    var st := Boot(owner, run.options, phases, w, run.reply.now);
    Finalized(phases, PhasesFrom(owner, run.options, phases, 0, st, run.reply.phases), run.reply.cleared)
  }

  /** A chain of runs, each one a new process over the same file and host. */
  function Chain(owner: Owner, phases: seq<string>, w: World, runs: seq<Run>): World
    decreases |runs|
  {
    if runs == [] then w
    else
      var st := RunOnce(owner, phases, w, runs[0]);
      Chain(owner, phases, World(st.file, st.log), runs[1..])
  }

  // ----- What every chain keeps -----

  function Done(log: seq<Event>): set<string> {
    set e | e in log && e.Returned? :: e.phase
  }

  predicate DistinctPhases(phases: seq<string>) {
    forall i, j | 0 <= i < j < |phases| :: phases[i] != phases[j]
  }

  /** Each call of a phase function comes after a successful return of every phase
      listed before it, in this log or earlier: `returned` holds the phases that had
      returned nil before it. */
  ghost predicate OrderedLog(phases: seq<string>, returned: set<string>, log: seq<Event>) {
    forall p, i, j | 0 <= p < |log| && 0 <= j < i < |phases| && log[p] == Called(phases[i]) ::
      phases[j] in returned + Done(log[..p])
  }

  lemma DoneExtends(log: seq<Event>, more: seq<Event>)
    ensures Done(log) <= Done(log + more)
    ensures Done(log + more) == Done(log) + Done(more)
  {
    forall e | e in log + more ensures e in log || e in more {}
    forall e | e in log || e in more ensures e in log + more {}
  }

  lemma OrderedExtends(phases: seq<string>, returned: set<string>, log: seq<Event>, index: nat, calls: nat)
    requires DistinctPhases(phases) && index < |phases|
    requires OrderedLog(phases, returned, log)
    requires forall j | 0 <= j < index :: phases[j] in returned + Done(log)
    ensures OrderedLog(phases, returned, log + Repeat(phases[index], calls))
    ensures OrderedLog(phases, returned, log + Repeat(phases[index], calls) + [Returned(phases[index])])
    ensures Done(log + Repeat(phases[index], calls)) == Done(log)
    ensures Done(log + Repeat(phases[index], calls) + [Returned(phases[index])]) == Done(log) + {phases[index]}
  {
    var calling := Repeat(phases[index], calls);
    var more := calling + [Returned(phases[index])];
    assert log + calling + [Returned(phases[index])] == log + more;
    DoneExtends(log, calling);
    DoneExtends(log + calling, [Returned(phases[index])]);
    assert Done(calling) == {};
    var last := [Returned(phases[index])];
    assert last[0] in last;
    forall p, i, j | 0 <= p < |log + more| && 0 <= j < i < |phases| && (log + more)[p] == Called(phases[i])
      ensures phases[j] in returned + Done((log + more)[..p])
    {
      if p < |log| {
        assert (log + more)[..p] == log[..p];
      } else {
        assert i == index;
        assert (log + more)[..p] == log + more[..p - |log|];
        DoneExtends(log, more[..p - |log|]);
      }
    }
    assert log + calling == (log + more)[..|log + calling|];
    forall p | 0 <= p < |log + calling| ensures (log + calling)[..p] == (log + more)[..p] {}
  }

  /** The state between two phases of a run that is not a dry one. */
  ghost predicate Sound(phases: seq<string>, returned: set<string>, index: nat, st: RunState)
    requires index <= |phases|
  {
    && OrderedLog(phases, returned, st.log)
    && Names(st.progress.checkpoints) <= returned + Done(st.log)
    && FileNames(st.file) <= returned + Done(st.log)
    && (st.status.Running? ==> forall j | 0 <= j < index :: phases[j] in returned + Done(st.log))
  }

  lemma StepKeepsSound(owner: Owner, options: Options, phases: seq<string>, returned: set<string>, index: nat,
                       st: RunState, reply: PhaseReply)
    requires DistinctPhases(phases) && index < |phases|
    requires !options.dryRun && st.status.Running? && Sound(phases, returned, index, st)
    ensures Sound(phases, returned, index + 1, PhaseStep(owner, options, phases, index, st, reply))
  {
    if !ShouldSkip(options, st.progress, phases[index]) {
      OrderedExtends(phases, returned, st.log, index, Retry(reply.attempts, 1).calls);
      TriedKeepsSound(owner, options, phases, returned, index, st, reply);
    }
  }

  lemma TriedKeepsSound(owner: Owner, options: Options, phases: seq<string>, returned: set<string>, index: nat,
                        st: RunState, reply: PhaseReply)
    requires index < |phases| && !ShouldSkip(options, st.progress, phases[index])
    requires !options.dryRun && st.status.Running? && Sound(phases, returned, index, st)
    requires var calling := st.log + Repeat(phases[index], Retry(reply.attempts, 1).calls);
             var done := calling + [Returned(phases[index])];
             && OrderedLog(phases, returned, calling) && Done(calling) == Done(st.log)
             && OrderedLog(phases, returned, done) && Done(done) == Done(st.log) + {phases[index]}
    ensures Sound(phases, returned, index + 1, PhaseStep(owner, options, phases, index, st, reply))
  {
  }

  lemma {:induction false} PhasesKeepSound(owner: Owner, options: Options, phases: seq<string>, returned: set<string>,
                                           index: nat, st: RunState, replies: seq<PhaseReply>)
    requires DistinctPhases(phases) && index <= |phases|
    requires !options.dryRun && Sound(phases, returned, index, st)
    ensures Sound(phases, returned, |phases|, PhasesFrom(owner, options, phases, index, st, replies))
    decreases |phases| - index
  {
    if st.status.Running? && index < |phases| && index < |replies| {
      StepKeepsSound(owner, options, phases, returned, index, st, replies[index]);
      PhasesKeepSound(owner, options, phases, returned, index + 1,
                      PhaseStep(owner, options, phases, index, st, replies[index]), replies);
    }
  }

  lemma {:induction false} OnlyFinalizingCompletes(owner: Owner, options: Options, phases: seq<string>,
                                                   index: nat, st: RunState, replies: seq<PhaseReply>)
    requires index <= |phases| && !st.status.Completed?
    ensures !PhasesFrom(owner, options, phases, index, st, replies).status.Completed?
    decreases |phases| - index
  {
    if st.status.Running? && index < |phases| && index < |replies| {
      OnlyFinalizingCompletes(owner, options, phases, index + 1,
                              PhaseStep(owner, options, phases, index, st, replies[index]), replies);
    }
  }

  /** A dry run calls nothing and writes nothing until it finalizes. */
  lemma {:induction false} DryPhasesTouchNothing(owner: Owner, options: Options, phases: seq<string>,
                                                 index: nat, st: RunState, replies: seq<PhaseReply>)
    requires index <= |phases| && options.dryRun
    ensures var end := PhasesFrom(owner, options, phases, index, st, replies);
            end.log == st.log && end.file == st.file && end.saves == st.saves
            && end.progress.checkpoints == st.progress.checkpoints 
            && (st.status.Running? ==> end.status.Running? || end.status.Dead?)
    decreases |phases| - index
  {
    if st.status.Running? && index < |phases| && index < |replies| {
      DryPhasesTouchNothing(owner, options, phases, index + 1,
                            PhaseStep(owner, options, phases, index, st, replies[index]), replies);
    }
  }

  /** Yet a dry run that reaches its end clears the checkpoint a real run would
      have resumed from. */
  lemma DryRunDropsTheCheckpoint(owner: Owner, phases: seq<string>, w: World, run: Run)
    requires run.options.dryRun && run.reply.cleared
    ensures var st := RunOnce(owner, phases, w, run);
            st.log == w.log && (st.status.Completed? <==> st.status != Dead)
            && (st.status.Completed? ==> st.file == Absent) && (st.status.Dead? ==> st.file == w.file)
  {
    DryPhasesTouchNothing(owner, run.options, phases, 0, Boot(owner, run.options, phases, w, run.reply.now),
                          run.reply.phases);
  }

  ghost predicate SoundWorld(phases: seq<string>, returned: set<string>, w: World) {
    OrderedLog(phases, returned, w.log) && FileNames(w.file) <= returned + Done(w.log)
  }

  /** A run keeps the world sound, whatever had returned nil before and however; one
      that reports success without being a dry run leaves every listed phase done; and
      wherever a run ends, a phase it would skip is one that is done. */
  lemma RunKeepsSound(owner: Owner, phases: seq<string>, returned: set<string>, w: World, run: Run)
    requires DistinctPhases(phases) && SoundWorld(phases, returned, w)
    ensures var st := RunOnce(owner, phases, w, run);
            SoundWorld(phases, returned, World(st.file, st.log))
    ensures var st := RunOnce(owner, phases, w, run);
            st.status.Completed? && !run.options.dryRun ==>
              forall i | 0 <= i < |phases| :: phases[i] in returned + Done(st.log)
    ensures var st := RunOnce(owner, phases, w, run);
            Names(st.progress.checkpoints) <= returned + Done(st.log)
  {
    var st := Boot(owner, run.options, phases, w, run.reply.now);
    if run.options.dryRun {
      DryPhasesTouchNothing(owner, run.options, phases, 0, st, run.reply.phases);
    } else {
      PhasesKeepSound(owner, run.options, phases, returned, 0, st, run.reply.phases);
      OnlyFinalizingCompletes(owner, run.options, phases, 0, st, run.reply.phases);
    }
  }

  /** Over every chain of failing, dying, dry and resumed sequential runs: a phase
      function is called only after every earlier phase has returned nil, and the file
      only ever names phases that have. */
  lemma {:induction false} EveryChainIsOrdered(owner: Owner, phases: seq<string>, returned: set<string>, w: World,
                                               runs: seq<Run>)
    requires DistinctPhases(phases) && SoundWorld(phases, returned, w)
    ensures SoundWorld(phases, returned, Chain(owner, phases, w, runs))
    decreases |runs|
  {
    if runs != [] {
      RunKeepsSound(owner, phases, returned, w, runs[0]);
      var st := RunOnce(owner, phases, w, runs[0]);
      EveryChainIsOrdered(owner, phases, returned, World(st.file, st.log), runs[1..]);
    }
  }

  /** A run that completed and could remove its checkpoint leaves nothing to resume:
      the next one starts afresh, whenever it comes. */
  lemma SuccessIsForgotten(owner: Owner, phases: seq<string>, w: World, run: Run, next: Run)
    requires RunOnce(owner, phases, w, run).status.Completed? && run.reply.cleared
    ensures var st := RunOnce(owner, phases, w, run);
            Boot(owner, next.options, phases, World(st.file, st.log), next.reply.now).progress
              == FreshProgress(next.reply.now).(totalSteps := |phases|)
  {
    OnlyFinalizingCompletes(owner, run.options, phases, 0, Boot(owner, run.options, phases, w, run.reply.now),
                            run.reply.phases);
  }

  // ----- How often one run calls a phase -----

  function Calls(log: seq<Event>, phase: string): nat {
    multiset(log)[Called(phase)]
  }

  lemma RepeatCounts(phase: string, calls: nat, other: string)
    ensures Calls(Repeat(phase, calls), other) == if phase == other then calls else 0
    decreases calls
  {
    if calls > 0 {
      RepeatCounts(phase, calls - 1, other);
      assert Repeat(phase, calls) == Repeat(phase, calls - 1) + [Called(phase)];
    }
  }

  lemma StepCalls(owner: Owner, options: Options, phases: seq<string>, index: nat, st: RunState, reply: PhaseReply,
                  phase: string)
    requires index < |phases|
    ensures Calls(PhaseStep(owner, options, phases, index, st, reply).log, phase) <=
            Calls(st.log, phase) + (if phases[index] == phase then MAX_RETRIES else 0)
  {
    RepeatCounts(phases[index], Retry(reply.attempts, 1).calls, phase);
  }

  /** From phase `index` on, a run adds at most three calls of each phase still
      ahead and none of the phases behind. */
  lemma {:induction false} AtMostThreeCalls(owner: Owner, options: Options, phases: seq<string>, index: nat,
                                            st: RunState, replies: seq<PhaseReply>, phase: string)
    requires DistinctPhases(phases) && index <= |phases|
    ensures var end := PhasesFrom(owner, options, phases, index, st, replies);
            Calls(end.log, phase) <= Calls(st.log, phase) + (if phase in phases[index..] then MAX_RETRIES else 0)
    decreases |phases| - index
  {
    if st.status.Running? && index < |phases| && index < |replies| {
      var next := PhaseStep(owner, options, phases, index, st, replies[index]);
      AtMostThreeCalls(owner, options, phases, index + 1, next, replies, phase);
      StepCalls(owner, options, phases, index, st, replies[index], phase);
      assert phases[index..] == [phases[index]] + phases[index + 1..];
    }
  }

  lemma RunCallsAtMostThreeTimes(owner: Owner, phases: seq<string>, w: World, run: Run, phase: string)
    requires DistinctPhases(phases)
    ensures Calls(RunOnce(owner, phases, w, run).log, phase) <= Calls(w.log, phase) + MAX_RETRIES
  {
    AtMostThreeCalls(owner, run.options, phases, 0, Boot(owner, run.options, phases, w, run.reply.now),
                     run.reply.phases, phase);
  }

  // ----- What the sequential driver saves can be resumed from -----

  /** At any time up to a day later the record loads, and restoring it gives back the
      very progress it was made from. */
  ghost predicate Resumable(owner: Owner, r: SaveRecord) {
    && r.data == DataOf(owner, r.progress, r.data.lastUpdate)
    && forall now | now <= r.data.lastUpdate + DAY ::
         ValidCheckpoint(owner, r.data, now) && Restored(Loaded(owner, Stored(r.data), now), now) == r.progress
  }

  /** The record says where the run stands: at which phase, and how many of all
      phases lie before it. */
  predicate Placed(phases: seq<string>, r: SaveRecord) {
    && 0 <= r.data.completedSteps < |phases| && r.data.totalSteps == |phases|
    && r.data.currentStep == phases[r.data.completedSteps]
  }

  lemma {:induction false} PhasesSaveResumable(owner: Owner, options: Options, phases: seq<string>, index: nat,
                                               st: RunState, replies: seq<PhaseReply>)
    requires index <= |phases| && st.progress.totalSteps == |phases|
    requires forall r | r in st.saves :: Resumable(owner, r) && Placed(phases, r)
    ensures forall r | r in PhasesFrom(owner, options, phases, index, st, replies).saves ::
              Resumable(owner, r) && Placed(phases, r)
    decreases |phases| - index
  {
    if st.status.Running? && index < |phases| && index < |replies| {
      var next := PhaseStep(owner, options, phases, index, st, replies[index]);
      assert next.saves == st.saves || (next.saves == st.saves + [next.saves[|st.saves|]]
             && next.saves[|st.saves|].progress == next.progress);
      PhasesSaveResumable(owner, options, phases, index + 1, next, replies);
    }
  }

  /** Whatever is on disk when it starts, every checkpoint a sequential run hands
      to Save says where the run stands, passes validation for its own bloc for a
      day, and restores to the same steps, current step and completed phases. */
  lemma EverySaveIsResumable(owner: Owner, phases: seq<string>, w: World, run: Run)
    ensures forall r | r in RunOnce(owner, phases, w, run).saves :: Resumable(owner, r) && Placed(phases, r)
  {
    PhasesSaveResumable(owner, run.options, phases, 0, Boot(owner, run.options, phases, w, run.reply.now),
                        run.reply.phases);
  }

  // ----- The driver itself -----

  class Manager {
    const options: Options
    const checkpointManager: CheckpointManager
    var progress: Progress
    var log: seq<Event>
    var saves: seq<SaveRecord>
    var status: Status

    constructor (owner: Owner, options: Options, w: World, now: int)
      ensures fresh(checkpointManager) && checkpointManager.owner == owner && this.options == options
      ensures log == w.log && saves == [] && status == Running && checkpointManager.file == w.file
      ensures progress == if options.resume then Restored(Loaded(owner, w.file, now), now) else FreshProgress(now)
    {
      var manager := new CheckpointManager(owner, w.file);
      var p := FreshProgress(now);
      if options.resume {
        var checkpoint := manager.Load(now);
        p := Restored(checkpoint, now);
      }
      this.options, checkpointManager, progress := options, manager, p;
      log, saves, status := w.log, [], Running;
    }

    function State(): RunState
      reads this, checkpointManager
    {
      RunState(progress, checkpointManager.file, log, saves, status)
    }

    method Save(reply: PhaseReply) returns (alive: bool)
      modifies this, checkpointManager
      ensures State() == Saved(checkpointManager.owner, old(State()), reply) && alive == reply.save.Alive()
    {
      saves := saves + [SaveRecord(progress, DataOf(checkpointManager.owner, progress, reply.saveTime))];
      alive := checkpointManager.Save(progress, reply.saveTime, reply.save);
    }

    method ExecutePhase(phases: seq<string>, index: nat, reply: PhaseReply)
      requires index < |phases| && status == Running
      modifies this, checkpointManager
      ensures State() == PhaseStep(checkpointManager.owner, options, phases, index, old(State()), reply)
    {
      var phase := phases[index];
      if options.resume && phase in progress.checkpoints && progress.checkpoints[phase] { return; }
      progress := progress.(currentStep := phase, completedSteps := index);
      if options.reporter {
        progress := progress.(currentStep := phase, completedSteps := index, totalSteps := |phases|);
      }
      if options.dryRun { return; }
      var outcome, calls := ExecuteWithRetry(reply.attempts);
      log := log + Repeat(phase, calls);
      if outcome == Died {
        status := Dead;
      } else if outcome == Failed {
        var alive := Save(reply);
        status := if alive then Errored else Dead;
      } else {
        log := log + [Returned(phase)];
        progress := Marked(progress, phase);
        var alive := Save(reply);
        if !alive { status := Dead; }
      }
    }

    method ExecuteSequentialPhases(phases: seq<string>, replies: seq<PhaseReply>)
      modifies this, checkpointManager
      ensures State() == PhasesFrom(checkpointManager.owner, options, phases, 0, old(State()), replies)
    {
      var index := 0;
      while index < |phases| && status == Running
        invariant index <= |phases|
        invariant PhasesFrom(checkpointManager.owner, options, phases, 0, old(State()), replies)
               == PhasesFrom(checkpointManager.owner, options, phases, index, State(), replies)
        decreases |phases| - index
      {
        if index >= |replies| { status := Dead; return; }
        ExecutePhase(phases, index, replies[index]);
        index := index + 1;
      }
    }

    method ExecuteInitializationPhases(phases: seq<string>, reply: RunReply)
      requires status == Running
      modifies this, checkpointManager
      ensures var booted := old(State()).(progress := old(progress).(totalSteps := |phases|, startTime := reply.now));
              State() == Finalized(phases, PhasesFrom(checkpointManager.owner, options, phases, 0, booted, reply.phases),
                                   reply.cleared)
    {
      progress := progress.(totalSteps := |phases|, startTime := reply.now);
      ExecuteSequentialPhases(phases, reply.phases);
      if status == Running {
        progress := progress.(completedSteps := |phases|);
        checkpointManager.Clear(reply.cleared);
        status := Completed;
      }
    }
  }

  /** One process from start to end: it keeps the world sound, saves only what can
      be resumed from, and its success is a real one unless it was a dry run. */
  method Initialize(owner: Owner, phases: seq<string>, w: World, run: Run) returns (st: RunState)
    ensures st == RunOnce(owner, phases, w, run)
    ensures forall r | r in st.saves :: Resumable(owner, r) && Placed(phases, r)
    ensures forall returned :: DistinctPhases(phases) && SoundWorld(phases, returned, w) ==>
              && SoundWorld(phases, returned, World(st.file, st.log))
              && (st.status.Completed? && !run.options.dryRun ==>
                    forall i | 0 <= i < |phases| :: phases[i] in returned + Done(st.log))
  {
    var m := new Manager(owner, run.options, w, run.reply.now);
    m.ExecuteInitializationPhases(phases, run.reply);
    st := m.State();
    EverySaveIsResumable(owner, phases, w, run);
    forall returned | DistinctPhases(phases) && SoundWorld(phases, returned, w)
      ensures SoundWorld(phases, returned, World(st.file, st.log))
           && (st.status.Completed? && !run.options.dryRun ==>
                 forall i | 0 <= i < |phases| :: phases[i] in returned + Done(st.log))
    {
      RunKeepsSound(owner, phases, returned, w, run);
    }
  }
}
