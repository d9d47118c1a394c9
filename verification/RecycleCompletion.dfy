/** What a recycle that reports success has done, and an abort that does
    (internal/recycle/engine.go, internal/bootstrap/recycle_cluster.go). */
module RecycleCompletion {
  import opened Prelude
  import opened Recycle
  import opened RecycleWorld
  import opened RecycleSafety

  /** The replacement carries the final name, is the recorded instance, and runs. */
  predicate IsAdopted(site: Site, w: World) {
    Final(site, w).Some? && w.disk.instance == Final(site, w) && IsRunning(w.guests, Final(site, w).value)
  }

  // ----- Runs -----

  /** Where the data volume has been carried to when phase `p` is about to run.  A
      provider that cannot rename leaves the replacement under its transient name. */
  ghost predicate Carried(site: Site, w: World, p: Phase)
    requires DataKept(w)
  {
    if p.Index() <= 4 then true
    else if p.Index() == 5 then OnTransient(site, w)
    else if p.Index() == 6 || !site.canRename then OnTransient(site, w) && Final(site, w).None?
    else OnFinal(site, w) && Transient(site, w).None? && IsAdopted(site, w)
  }

  lemma RetireCarries(site: Site, o: Options, w: World, s: seq<Reply>)
    requires WellFormed(site, w) && OnTransient(site, w)
    ensures var done := RunPhase(site, o, w, Retired, s);
            done.status.Fine? ==> WellFormed(site, done.w) && OnTransient(site, done.w) && Final(site, done.w).None?
  {
    NamesDiffer(site, w);
    if Final(site, w).Some? { DeleteView(site, w, Final(site, w).value, s); }
  }

  lemma RecordAndStart(site: Site, w: World, id: nat, s: seq<Reply>)
    requires WellFormed(site, w) && id in w.guests
    ensures var saved := Save(w.(mem := w.mem.(instance := Some(id))), s);
            var done := if !saved.status.Fine? || IsRunning(saved.w.guests, id) then saved
                        else SetRunning(saved.w, id, true, saved.rest);
            done.status.Fine? ==>
              && WellFormed(site, done.w) && Data(done.w) == Data(w)
              && Final(site, done.w) == Final(site, w) && Transient(site, done.w) == Transient(site, w)
              && done.w.disk.instance == Some(id) && IsRunning(done.w.guests, id)
  {
    var noted := w.(mem := w.mem.(instance := Some(id)));
    MemView(site, w, noted.mem);
    SaveView(site, noted, s);
    var saved := Save(noted, s);
    if saved.status.Fine? { SetRunningView(site, saved.w, id, true, saved.rest); }
  }

  lemma AdoptCarries(site: Site, w: World, s: seq<Reply>)
    requires WellFormed(site, w) && OnTransient(site, w) && Final(site, w).None?
    ensures var done := AdoptReplacement(site, w, s);
            done.status.Fine? ==> WellFormed(site, done.w) && Carried(site, done.w, Provisioned)
  {
    var id := Transient(site, w).value;
    if site.canRename {
      RenameView(site, w, id, s);
      var renamed := Rename(w, id, site.finalName, s);
      if renamed.status.Fine? { RecordAndStart(site, renamed.w, id, renamed.rest); }
    } else {
      RecordAndStart(site, w, id, s);
    }
  }

  /** Each phase that returns nil carries the volume on to the next one. */
  lemma PhaseCarries(site: Site, o: Options, w: World, p: Phase, s: seq<Reply>, kept: bool)
    requires Ready(site, w, kept) && w.disk.journal == Some(p) && Allowed(kept, s)
    requires Carried(site, w, p) && RunPhase(site, o, w, p, s).status.Fine?
    ensures var done := RunPhase(site, o, w, p, s).w;
            && DataKept(done) && (p.Verified? ==> site.canRename)
            && if p.Next().Some? then Carried(site, done, p.Next().value) else Carried(site, done, p)
  {
    RunPhaseSafe(site, o, w, p, s, kept);
    match p
    case HandedOver => HandOverSafe(site, w, s, kept);
    case Retired => RetireCarries(site, o, w, s);
    case Adopted => AdoptCarries(site, w, s);
    case _ =>
  }

  /** Writing the journal moves nothing. */
  lemma SaveCarries(site: Site, w: World, p: Phase, mem: StateFile, s: seq<Reply>, kept: bool)
    requires Ready(site, w, kept) && Allowed(kept, s) && Carried(site, w, p)
    requires mem == w.mem.(journal := mem.journal) && Journalled(site, w, mem)
    ensures var o := Save(w.(mem := mem), s);
            o.status.Fine? ==> DataKept(o.w) && Carried(site, o.w, p)
  {
    SaveSafe(site, w, mem, s, kept);
  }

  /** The new bastion has the final name, is recorded, runs and holds the data volume,
      and the journal is cleared. */
  ghost predicate Completed(site: Site, w: World) {
    && DataKept(w) && w.disk.journal.None?
    && OnFinal(site, w) && Transient(site, w).None? && IsAdopted(site, w)
  }

  /** Stopped before retirement, as asked, with the volume handed over. */
  ghost predicate Parked(site: Site, o: Options, w: World) {
    && o.stopBeforeRetire && DataKept(w) && OnTransient(site, w)
    && (w.disk.journal.Some? ==> w.disk.journal.value.HandedOver? || w.disk.journal.value.Retired?)
  }

  /** One journalled phase that returns nil, and what the next one finds. */
  lemma StepCarries(site: Site, o: Options, w: World, p: Phase, s: seq<Reply>, kept: bool) returns (done: Out)
    requires Ready(site, w, kept) && Allowed(kept, s) && Journalled(site, w, w.disk.(journal := Some(p)))
    requires Carried(site, w, p) && !(o.stopBeforeRetire && p.Retired?)
    requires PhasesFrom(site, o, w, p, s).status.Fine?
    ensures PhasesFrom(site, o, w, p, s) ==
            if p.Next().None? then ClearJournal(done.w, done.rest)
            else PhasesFrom(site, o, done.w, p.Next().value, done.rest)
    ensures Ready(site, done.w, kept) && Allowed(kept, done.rest) && done.w.disk.journal == Some(p)
    ensures Journalled(site, done.w, done.w.disk.(journal := p.Next()))
    ensures Carried(site, done.w, if p.Next().Some? then p.Next().value else p) && (p.Verified? ==> site.canRename)
  {
    var mem := w.mem.(journal := Some(p));
    SaveSafe(site, w, mem, s, kept);
    SaveCarries(site, w, p, mem, s, kept);
    var saved := SaveJournal(w, p, s);
    RunPhaseSafe(site, o, saved.w, p, saved.rest, kept);
    PhaseCarries(site, o, saved.w, p, saved.rest, kept);
    done := RunPhase(site, o, saved.w, p, saved.rest);
  }

  lemma LastCompletes(site: Site, w: World, p: Phase, s: seq<Reply>, kept: bool)
    requires Ready(site, w, kept) && Allowed(kept, s) && Journalled(site, w, w.disk.(journal := None))
    requires p.Index() == 8 && site.canRename && Carried(site, w, p) && ClearJournal(w, s).status.Fine?
    ensures Completed(site, ClearJournal(w, s).w)
  {
    SaveSafe(site, w, w.mem.(journal := None), s, kept);
    SaveCarries(site, w, p, w.mem.(journal := None), s, kept);
  }

  lemma {:induction false} PhasesFinish(site: Site, o: Options, w: World, p: Phase, s: seq<Reply>, kept: bool)
    requires Ready(site, w, kept) && Allowed(kept, s) && Journalled(site, w, w.disk.(journal := Some(p)))
    requires Carried(site, w, p) && PhasesFrom(site, o, w, p, s).status.Fine?
    requires p.Retired? && w.disk.journal.Some? ==> w.disk.journal.value.HandedOver? || w.disk.journal.value.Retired?
    ensures var end := PhasesFrom(site, o, w, p, s).w;
            (site.canRename && Completed(site, end)) || Parked(site, o, end)
    decreases p.Left()
  {
    if !(o.stopBeforeRetire && p.Retired?) {
      var done := StepCarries(site, o, w, p, s, kept);
      if p.Next().None? {
        LastCompletes(site, done.w, p, done.rest, kept);
      } else {
        PhasesFinish(site, o, done.w, p.Next().value, done.rest, kept);
      }
    }
  }

  /** A run that starts where the data volume is on its way and returns nil has
      completed, or is parked before retirement as asked; a provider that cannot
      rename only ever gets to the second. */
  lemma SuccessfulRunHandsOver(site: Site, o: Options, w: World, s: seq<Reply>, kept: bool)
    requires Safe(site, w, kept) && Allowed(kept, s)
    requires var loaded := w.(mem := w.disk);
             var start := StartPhase(site, loaded);
             start.Some? && Carried(site, loaded, start.value)
    ensures var end := Run(site, o, w, s);
            end.status.Fine? ==> (site.canRename && Completed(site, end.w)) || Parked(site, o, end.w)
  {
    var loaded := w.(mem := w.disk);
    ReloadReady(site, w, kept);
    StartIsTrue(site, loaded, kept);
    var p := StartPhase(site, loaded).value;
    if PhasesFrom(site, o, loaded, p, s).status.Fine? { PhasesFinish(site, o, loaded, p, s, kept); }
  }

  // ----- Aborts -----

  /** What undoing `p` and everything before it has restored. */
  ghost predicate Restored(site: Site, w: World, next: World, p: Phase) {
    && DataKept(next) && Final(site, next) == Final(site, w)
    && (p.Index() >= 1 ==> Final(site, next).Some? ==> IsRunning(next.guests, Final(site, next).value))
    && (p.Index() >= 3 || Transient(site, w).None? ==> Transient(site, next).None?)
    && (p.HandedOver? || HoldsOnFinal(site, w) ==> OnFinal(site, next))
  }

  ghost predicate HoldsOnFinal(site: Site, w: World) {
    DataKept(w) && OnFinal(site, w)
  }

  lemma CompensationRestores(site: Site, w: World, p: Phase, s: seq<Reply>, kept: bool)
    requires Ready(site, w, kept) && Allowed(kept, s) && CanUndo(site, w, p) && p.CanAbort()
    requires w.disk.journal == None || w.disk.journal.value.CanAbort()
    requires p.HandedOver? ==> w.disk.journal == None || w.disk.journal == Some(HandedOver)
    requires Compensate(site, w, p, s).status.Fine?
    ensures var next := Compensate(site, w, p, s).w;
            && DataKept(next) && Final(site, next) == Final(site, w)
            && (p.Quiesced? ==> Final(site, next).Some? ==> IsRunning(next.guests, Final(site, next).value))
            && (p.Planned? ==> next == w)
            && (p.Built? || Transient(site, w).None? ==> Transient(site, next).None?)
            && (p.HandedOver? || HoldsOnFinal(site, w) ==> OnFinal(site, next))
  {
    NamesDiffer(site, w);
    match p
    case Quiesced =>
      if Final(site, w).Some? { SetRunningView(site, w, Final(site, w).value, true, s); }
    case Built =>
      if Transient(site, w).Some? { DeleteView(site, w, Transient(site, w).value, s); }
    case HandedOver => MoveDiskOutcome(site, w, site.TransientName(), site.finalName, s, kept);
    case _ =>
  }

  lemma {:induction false} CompensationsRestore(site: Site, w: World, p: Phase, s: seq<Reply>, kept: bool)
    requires Ready(site, w, kept) && Allowed(kept, s) && CanUndo(site, w, p) && p.CanAbort()
    requires w.disk.journal == None || w.disk.journal.value.CanAbort()
    requires p.HandedOver? ==> w.disk.journal == None || w.disk.journal == Some(HandedOver)
    requires CompensateAll(site, w, AbortPlan(p), s).status.Fine?
    ensures Restored(site, w, CompensateAll(site, w, AbortPlan(p), s).w, p)
    decreases p.Index()
  {
    PlanSteps(p);
    CompensateSafe(site, w, p, s, kept);
    CompensationRestores(site, w, p, s, kept);
    var undone := Compensate(site, w, p, s);
    if p.Previous().Some? {
      CompensationsRestore(site, undone.w, p.Previous().value, undone.rest, kept);
    }
  }

  lemma UndoneThenCleared(site: Site, w: World, p: Phase, s: seq<Reply>, kept: bool)
    requires Ready(site, w, kept) && Allowed(kept, s) && CanUndo(site, w, p) && p.CanAbort()
    requires w.disk.journal == None || w.disk.journal == Some(p)
    requires var undone := CompensateAll(site, w, AbortPlan(p), s);
             undone.status.Fine? && ClearJournal(undone.w, undone.rest).status.Fine?
    ensures var undone := CompensateAll(site, w, AbortPlan(p), s);
            var cleared := ClearJournal(undone.w, undone.rest).w;
            cleared.disk.journal.None? && Restored(site, w, cleared, p) && undone.w.mem.journal == w.disk.journal
  {
    CompensationsSafe(site, w, p, s, kept);
    CompensationsRestore(site, w, p, s, kept);
    JournalStays(site, w, p, s, kept);
    var undone := CompensateAll(site, w, AbortPlan(p), s);
    SaveSafe(site, undone.w, undone.w.mem.(journal := None), undone.rest, kept);
  }

  lemma {:induction false} JournalStays(site: Site, w: World, p: Phase, s: seq<Reply>, kept: bool)
    requires Ready(site, w, kept) && Allowed(kept, s) && CanUndo(site, w, p) && p.CanAbort()
    requires w.disk.journal == None || w.disk.journal.value.CanAbort()
    requires p.HandedOver? ==> w.disk.journal == None || w.disk.journal == Some(HandedOver)
    requires CompensateAll(site, w, AbortPlan(p), s).status.Fine?
    ensures var undone := CompensateAll(site, w, AbortPlan(p), s).w;
            undone.disk.journal == w.disk.journal && undone.mem == undone.disk
    decreases p.Index()
  {
    PlanSteps(p);
    CompensateSafe(site, w, p, s, kept);
    var undone := Compensate(site, w, p, s);
    if p.Previous().Some? { JournalStays(site, undone.w, p.Previous().value, undone.rest, kept); }
  }

  lemma AbortSplits(site: Site, w: World, s: seq<Reply>) returns (p: Phase, undone: Out)
    requires w.mem == w.disk && Abort(site, w, s).status.Fine?
    ensures Some(p) == if w.mem.journal.Some? then w.mem.journal else Reconstructed(Observe(site, w))
    ensures p.CanAbort() && undone == CompensateAll(site, w, AbortPlan(p), s) && undone.status.Fine?
    ensures Abort(site, w, s) == ClearJournal(undone.w, undone.rest) && undone.w.mem.journal.Some?
  {
    assert w.(mem := w.disk) == w;
    p := (if w.mem.journal.Some? then w.mem.journal else Reconstructed(Observe(site, w))).value;
    undone := CompensateAll(site, w, AbortPlan(p), s);
  }

  /** An abort returns nil only where there was a journal to clear: without one it
      undoes what it finds and then fails.  When it does return nil, the original is
      back: running if it had been stopped, alone if a replacement had been built,
      and with the data volume if that had been handed over. */
  lemma SuccessfulAbortRestores(site: Site, w: World, s: seq<Reply>, kept: bool)
    requires Ready(site, w, kept) && Allowed(kept, s)
    ensures Abort(site, w, s).status.Fine? ==>
              && w.disk.journal.Some? && Abort(site, w, s).w.disk.journal.None?
              && Restored(site, w, Abort(site, w, s).w, w.disk.journal.value)
  {
    if Abort(site, w, s).status.Fine? {
      var p, undone := AbortSplits(site, w, s);
      ReachedCanUndo(site, w, kept);
      UndoneThenCleared(site, w, p, s, kept);
    }
  }
}
