/** What a recycle cannot pick up again after a crash: a handover whose volume is out
    of sight, and an adoption (internal/bootstrap/recycle_cluster.go,
    internal/recycle/engine.go). */
module RecycleResume {
  import opened Prelude
  import opened Recycle
  import opened RecycleWorld
  import opened RecycleSafety
  import opened RecycleCompletion
  import opened RecycleHandOver

  // ----- A handover out of sight -----

  /** The handover is journalled, both guests are there, and the volume is on the
      replacement without anything to tell it by. */
  ghost predicate Stranded(site: Site, w: World) {
    && WellFormed(site, w) && w.mem == w.disk && w.disk.journal == Some(HandedOver)
    && Final(site, w).Some? && OnTransient(site, w) && !Recognised(site, Data(w), w.disk)
  }

  /** The crash that gets there: a reassignment that moved and renamed the volume, in
      a process that died before it gave the serial back. */
  lemma DeathBeforeTheSerialStrands(site: Site, w: World, id: string)
    requires Handing(site, w) && OnFinal(site, w) && Recognised(site, Data(w), w.mem)
    requires w.disk.journal == Some(HandedOver) && RecordedId(w.disk) == Some(Data(w).id) && NameFree(w.volumes, id)
    ensures Stranded(site, Attempt(site, w, [Reply(true, Death, id, true, false)]))
    ensures Attempt(site, w, [Reply(true, Death, id, true, false)]).disk == w.disk
  {
    var s := [Reply(true, Death, id, true, false)];
    BothMine(site, w);
    HandOverRoute(site, w, s);
    ReassignHands(site, w, Final(site, w).value, Transient(site, w).value, s);
  }

  lemma StrandedMovesNothing(site: Site, w: World, s: seq<Reply>)
    requires Stranded(site, w)
    ensures HandOverDisk(site, w, s).w == w && !HandOverDisk(site, w, s).status.Fine?
    ensures ReturnDisk(site, w, s).w == w && !ReturnDisk(site, w, s).status.Fine?
  {
    BothMine(site, w);
    OwnedIsData(site, w, Transient(site, w).value);
    MoveRoute(site, w, site.finalName, site.TransientName(), s);
    MoveRoute(site, w, site.TransientName(), site.finalName, s);
  }

  lemma StrandedRunFails(site: Site, o: Options, w: World, p: Phase, s: seq<Reply>)
    requires w.mem == w.disk && w.disk.journal == Some(p) && p.HandedOver? && Final(site, w).Some? && Allowed(true, s)
    requires forall t :: HandOverDisk(site, w, t).w == w && !HandOverDisk(site, w, t).status.Fine?
    ensures var end := Run(site, o, w, s); !end.status.Fine? && end.w == w
  {
    TakeAllowed(true, s);
    assert w.(mem := w.disk) == w;
    var saved := SaveJournal(w, p, s);
    assert saved.w == w;
    assert RunPhase(site, o, w, p, saved.rest) == HandOverDisk(site, w, saved.rest);
  }

  lemma StrandedAbortFails(site: Site, w: World, p: Phase, s: seq<Reply>)
    requires w.mem == w.disk && w.disk.journal == Some(p) && p.HandedOver?
    requires ReturnDisk(site, w, s).w == w && !ReturnDisk(site, w, s).status.Fine?
    ensures var end := Abort(site, w, s); !end.status.Fine? && end.w == w
  {
    assert w.(mem := w.disk) == w;
    PlanSteps(p);
    assert Compensate(site, w, p, s) == ReturnDisk(site, w, s);
  }

  /** From there every command fails and changes nothing. */
  lemma StrandedStays(site: Site, w: World, c: Command)
    requires Stranded(site, w) && Allowed(true, c.script)
    ensures !Invoke(site, w, c).status.Fine? && Invoke(site, w, c).w == w
  {
    match c {
      case RunCommand(o, s) =>
        forall t ensures HandOverDisk(site, w, t).w == w && !HandOverDisk(site, w, t).status.Fine? {
          StrandedMovesNothing(site, w, t);
        }
        StrandedRunFails(site, o, w, w.disk.journal.value, s);
      case AbortCommand(s) =>
        StrandedMovesNothing(site, w, s);
        StrandedAbortFails(site, w, w.disk.journal.value, s);
    }
  }

  // ----- Adopting -----

  /** Uninterrupted, adoption ends with the replacement under the final name,
      recorded in the file, and running. */
  lemma AdoptionCompletes(site: Site, w: World, id: nat, s: seq<Reply>)
    requires WellFormed(site, w) && site.canRename && Transient(site, w) == Some(id) && Final(site, w).None?
    requires Cooperative(s, 3)
    ensures var o := AdoptReplacement(site, w, s);
            && o.status.Fine? && Final(site, o.w) == Some(id) && Transient(site, o.w).None?
            && o.w.disk.instance == Some(id) && IsRunning(o.w.guests, id)
  {
    RenameView(site, w, id, s);
    var renamed := Rename(w, id, site.finalName, s);
    var noted := renamed.w.(mem := renamed.w.mem.(instance := Some(id)));
    var saved := Save(noted, renamed.rest);
    if !IsRunning(saved.w.guests, id) {
      MemView(site, renamed.w, noted.mem);
      SaveView(site, noted, renamed.rest);
      SetRunningView(site, saved.w, id, true, saved.rest);
    }
  }

  /** Run again after any interruption, adoption always returns nil, and finishes the
      job exactly when the rename had not happened yet or nothing was left to do. */
  lemma AdoptionResumesExactlyWhen(site: Site, w: World, s: seq<Reply>)
    requires WellFormed(site, w) && site.canRename && (Transient(site, w).Some? <==> Final(site, w).None?)
    requires Cooperative(s, 3)
    ensures AdoptReplacement(site, w, s).status.Fine?
    ensures IsAdopted(site, AdoptReplacement(site, w, s).w) <==> Transient(site, w).Some? || IsAdopted(site, w)
  {
    if Transient(site, w).Some? { AdoptionCompletes(site, w, Transient(site, w).value, s); }
  }

  /** A process that dies right after the rename leaves work the next run takes for
      done: that run reports success and clears the journal with the bastion
      stopped and its instance unrecorded. */
  lemma AdoptionIsNotResumed(site: Site, o: Options, w: World, id: nat, s: seq<Reply>)
    requires WellFormed(site, w) && w.disk.journal == Some(Adopted)
    requires Transient(site, w).None? && Final(site, w) == Some(id) && !IsRunning(w.guests, id)
    requires Cooperative(s, 5)
    ensures var end := Run(site, o, w, s);
            && end.status.Fine? && end.w.disk.journal == None
            && !IsRunning(end.w.guests, id) && end.w.disk.instance == w.disk.instance
  {
    var w0 := w.(mem := w.disk);
    assert StartPhase(site, w0) == Some(Adopted);
    var s1 := SaveJournal(w0, Adopted, s);
    var s2 := SaveJournal(s1.w, Provisioned, s1.rest);
    var s3 := SaveJournal(s2.w, Verified, s2.rest);
    var s4 := Verify(site, s3.w, s3.rest);
    assert s1.rest == s[1..] && s2.rest == s[2..] && s3.rest == s[3..] && s4.rest == s[4..];
    calc {
      Run(site, o, w, s);
      PhasesFrom(site, o, w0, Adopted, s);
      PhasesFrom(site, o, s1.w, Provisioned, s1.rest);
      PhasesFrom(site, o, s2.w, Verified, s2.rest);
      ClearJournal(s4.w, s4.rest);
    }
  }
}
