/** Exactly when an abort can finish, and what is left of one that cannot or dies
    (internal/recycle/engine.go, Abort; internal/recycle/phase.go, AbortPlan). */
module RecycleAbort {
  import opened Prelude
  import opened Recycle
  import opened RecycleWorld
  import opened RecycleSafety
  import opened RecycleHandOver

  // ----- When an abort can finish -----

  /** How many calls it takes to undo the phases up to `p`, a handover aside. */
  function Needs(p: Phase): nat {
    if p.Index() == 0 then 0 else if p.Index() <= 2 then 1 else 2
  }

  /** Below the handover, with the provider cooperating, everything can be undone. */
  lemma {:induction false} UndoFinishes(site: Site, w: World, p: Phase, s: seq<Reply>)
    requires p.Index() <= 3 && Cooperative(s, Needs(p) + 1)
    ensures var o := CompensateAll(site, w, AbortPlan(p), s);
            o.status.Fine? && o.w.mem == w.mem && Cooperative(o.rest, 1)
    decreases p.Index()
  {
    PlanSteps(p);
    var undone := Compensate(site, w, p, s);
    assert undone.status.Fine? && undone.w.mem == w.mem && (undone.rest == s || undone.rest == s[1..]);
    assert p.Secured? || p.Planned? ==> undone.rest == s;
    if p.Previous().Some? { UndoFinishes(site, undone.w, p.Previous().value, undone.rest); }
  }

  /** The original is there, and the replacement can be seen to hold the volume. */
  ghost predicate CanReturn(site: Site, w: World)
    requires DataKept(w)
  {
    Final(site, w).Some? && OnTransient(site, w) && Recognised(site, Data(w), w.mem)
  }

  /** Otherwise nothing is returned, whatever the provider answers. */
  lemma ReturnNeeds(site: Site, w: World, s: seq<Reply>)
    requires WellFormed(site, w) && !CanReturn(site, w)
    ensures ReturnDisk(site, w, s).w == w && !ReturnDisk(site, w, s).status.Fine?
  {
    if Final(site, w).Some? && Transient(site, w).Some? {
      BothMine(site, w);
      MoveRoute(site, w, site.TransientName(), site.finalName, s);
    }
  }

  lemma ReturnCompletes(site: Site, w: World, s: seq<Reply>)
    requires WellFormed(site, w) && w.mem == w.disk && w.disk.volume.Some? && site.canReassign && CanReturn(site, w)
    requires Clean(s) && Cooperative(s, 2)
    ensures var o := ReturnDisk(site, w, s); MovedTo(site, w, o, Final(site, w).value) && o.rest == s[2..]
  {
    BothMine(site, w);
    MoveRoute(site, w, site.TransientName(), site.finalName, s);
    MoveCompletes(site, w, Transient(site, w).value, Final(site, w).value, s);
  }

  lemma PlanReturns(site: Site, w: World, p: Phase, s: seq<Reply>) returns (o: Out)
    requires WellFormed(site, w) && w.mem == w.disk && w.disk.volume.Some? && site.canReassign && CanReturn(site, w)
    requires Clean(s) && Cooperative(s, 5) && p.HandedOver?
    ensures o.w.mem.journal == w.mem.journal && Cooperative(o.rest, 3)
    ensures CompensateAll(site, w, AbortPlan(p), s) == CompensateAll(site, o.w, AbortPlan(p.Previous().value), o.rest)
  {
    ReturnCompletes(site, w, s);
    o := ReturnDisk(site, w, s);
    PlanSteps(p);
  }

  lemma PlanFinishes(site: Site, w: World, p: Phase, s: seq<Reply>)
    requires WellFormed(site, w) && w.mem == w.disk && w.disk.volume.Some? && site.canReassign && p.CanAbort()
    requires Clean(s) && Cooperative(s, 5) && (p.HandedOver? ==> CanReturn(site, w))
    ensures var o := CompensateAll(site, w, AbortPlan(p), s);
            o.status.Fine? && o.w.mem.journal == w.mem.journal && Cooperative(o.rest, 1)
  {
    if p.HandedOver? {
      var returned := PlanReturns(site, w, p, s);
      UndoFinishes(site, returned.w, p.Previous().value, returned.rest);
    } else {
      UndoFinishes(site, w, p, s);
    }
  }

  lemma PlanNeeds(site: Site, w: World, p: Phase, s: seq<Reply>)
    requires WellFormed(site, w) && p.HandedOver? && !CanReturn(site, w)
    ensures var o := CompensateAll(site, w, AbortPlan(p), s); o.w == w && !o.status.Fine?
  {
    PlanSteps(p);
    ReturnNeeds(site, w, s);
  }

  lemma AbortIs(site: Site, w: World, p: Phase, s: seq<Reply>)
    requires w.mem == w.disk && w.disk.journal == Some(p) && p.CanAbort()
    ensures var undone := CompensateAll(site, w, AbortPlan(p), s);
            Abort(site, w, s) == if undone.status.Fine? then ClearJournal(undone.w, undone.rest) else undone
  {
    assert w.(mem := w.disk) == w;
  }

  /** With the provider cooperating, the abort of a journalled run returns nil exactly
      when no handover was begun, or one was and the original is there with the
      volume seen on the replacement. */
  lemma AbortFinishesExactlyWhen(site: Site, w: World, s: seq<Reply>)
    requires WellFormed(site, w) && w.mem == w.disk && w.disk.volume.Some? && site.canReassign
    requires w.disk.journal.Some? && w.disk.journal.value.CanAbort() && Clean(s) && Cooperative(s, 5)
    ensures Abort(site, w, s).status.Fine? <==> (w.disk.journal == Some(HandedOver) ==> CanReturn(site, w))
  {
    var p := w.disk.journal.value;
    AbortIs(site, w, p, s);
    if p.HandedOver? && !CanReturn(site, w) {
      PlanNeeds(site, w, p, s);
    } else {
      PlanFinishes(site, w, p, s);
    }
  }

  /** So a handover that failed with the volume still on the original, or in any other
      place or guise, can never be aborted: the abort starts with a return that finds
      nothing to return, and leaves everything as it is. */
  lemma FailedHandOverCannotBeAborted(site: Site, w: World, s: seq<Reply>)
    requires WellFormed(site, w) && w.mem == w.disk && w.disk.journal == Some(HandedOver) && !CanReturn(site, w)
    ensures !Abort(site, w, s).status.Fine? && Abort(site, w, s).w == w
  {
    var p := w.disk.journal.value;
    AbortIs(site, w, p, s);
    PlanNeeds(site, w, p, s);
  }

  // ----- An abort that dies -----

  /** The handover is journalled and the replacement is gone. */
  predicate Wedged(site: Site, w: World) {
    w.disk.journal == Some(HandedOver) && Transient(site, w).None?
  }

  /** From there every command fails and leaves it there. */
  lemma WedgedStays(site: Site, w: World, c: Command)
    requires Wedged(site, w) && Allowed(true, c.script)
    ensures !Invoke(site, w, c).status.Fine? && Wedged(site, Invoke(site, w, c).w)
  {
    TakeAllowed(true, c.script);
  }

  /** The `i`-th reply, or the death of a process whose replies have run out. */
  function Nth(s: seq<Reply>, i: nat): Reply {
    if i < |s| then s[i] else Reply(false, Death, "", false, false)
  }

  /** What undoing the phases before the handover comes to: delete the replacement, then
      start the original. */
  lemma UndoIsDeleteThenStart(site: Site, w: World, q: Phase, s: seq<Reply>)
    requires q.Built? && Transient(site, w).Some?
    ensures var deleted := Delete(w, Transient(site, w).value, s);
            CompensateAll(site, w, AbortPlan(q), s) ==
              if deleted.status.Fine? then StartOriginal(site, deleted.w, deleted.rest) else deleted
  {
    var deleted := Delete(w, Transient(site, w).value, s);
    PlanSteps(q);
    if deleted.status.Fine? { StartIsLast(site, deleted.w, q.Previous().value, deleted.rest); }
  }

  lemma StartIsLast(site: Site, w: World, q: Phase, s: seq<Reply>)
    requires q.Secured?
    ensures CompensateAll(site, w, AbortPlan(q), s) == StartOriginal(site, w, s)
  {
    var started := StartOriginal(site, w, s);
    PlanSteps(q);
    PlanSteps(Quiesced);
    PlanSteps(Planned);
    assert CompensateAll(site, w, AbortPlan(q), s) == CompensateAll(site, w, AbortPlan(Quiesced), s);
    assert CompensateAll(site, started.w, AbortPlan(Planned), started.rest)
        == CompensateAll(site, started.w, [], started.rest);
  }

  /** The volume is back, the journal and the replacement are still there. */
  ghost predicate Returned(site: Site, w: World) {
    && WellFormed(site, w) && w.mem == w.disk && w.disk.journal == Some(HandedOver)
    && OnFinal(site, w) && Transient(site, w).Some?
  }

  lemma DeletedView(site: Site, w: World, s: seq<Reply>)
    requires Returned(site, w)
    ensures var deleted := Delete(w, Transient(site, w).value, s);
            && (Transient(site, deleted.w).None? <==> Take(s).Applied()) && Final(site, deleted.w) == Final(site, w)
            && deleted.w.mem == w.mem && deleted.w.disk == w.disk && deleted.status == StatusOf(Take(s).answer)
            && deleted.rest == Rest(s) && (deleted.status.Fine? ==> WellFormed(site, deleted.w))
  {
    NamesDiffer(site, w);
    DeleteView(site, w, Transient(site, w).value, s);
  }

  /** The deletion takes effect, and one of the two calls that follow keeps the abort
      from clearing the journal. */
  predicate StopsShort(deletion: Reply, start: Reply, clearing: Reply) {
    deletion.Applied() && !(deletion.answer.Ok? && start.answer.Ok? && clearing.Applied())
  }

  /** How an abort ends once its plan has. */
  function AfterPlan(undone: Out): Out {
    if undone.status.Fine? then ClearJournal(undone.w, undone.rest) else undone
  }

  /** From there the abort is wedged exactly when it stops short. */
  lemma RestWedgesExactlyWhen(site: Site, w: World, q: Phase, s: seq<Reply>)
    requires Returned(site, w) && q.Built? && Clean(s)
    ensures Wedged(site, AfterPlan(CompensateAll(site, w, AbortPlan(q), s)).w) <==>
              StopsShort(Nth(s, 0), Nth(s, 1), Nth(s, 2))
  {
    UndoIsDeleteThenStart(site, w, q, s);
    DeletedView(site, w, s);
    var deleted := Delete(w, Transient(site, w).value, s);
    if deleted.status.Fine? { StartThenClear(site, deleted.w, Final(site, w).value, deleted.rest); }
  }

  lemma StartThenClear(site: Site, w: World, id: nat, s: seq<Reply>)
    requires WellFormed(site, w) && Wedged(site, w) && w.mem == w.disk && Final(site, w) == Some(id) && Clean(s)
    ensures Wedged(site, AfterPlan(StartOriginal(site, w, s)).w) <==> !(Nth(s, 0).answer.Ok? && Nth(s, 1).Applied())
  {
    SetRunningView(site, w, id, true, s);
    assert Allowed(true, s);
    TakeAllowed(true, s);
    TakeAllowed(true, Rest(s));
  }

  /** An abort that has moved the volume back ends wedged exactly when it stops short. */
  lemma AbortWedgesExactlyWhen(site: Site, w: World, s: seq<Reply>)
    requires WellFormed(site, w) && w.mem == w.disk && w.disk.volume.Some? && site.canReassign && CanReturn(site, w)
    requires w.disk.journal == Some(HandedOver) && Clean(s) && Cooperative(s, 2)
    ensures Wedged(site, Abort(site, w, s).w) <==> StopsShort(Nth(s, 2), Nth(s, 3), Nth(s, 4))
  {
    var p := w.disk.journal.value;
    AbortIs(site, w, p, s);
    ReturnCompletes(site, w, s);
    BothMine(site, w);
    var q := p.Previous().value;
    IsTheReturn(site, w, p, q, s);
    assert forall r | r in s[2..] :: r in s;
    RestWedgesExactlyWhen(site, ReturnDisk(site, w, s).w, q, s[2..]);
    ReturnThenRest(site, w, p, q, s, ReturnDisk(site, w, s));
  }

  lemma IsTheReturn(site: Site, w: World, p: Phase, q: Phase, s: seq<Reply>)
    requires p.HandedOver? && p.Previous() == Some(q)
    ensures q.Built? && Compensate(site, w, p, s) == ReturnDisk(site, w, s)
  {
  }

  lemma PlanSplits(site: Site, w: World, p: Phase, q: Phase, s: seq<Reply>, first: Out)
    requires p.Previous() == Some(q) && first == Compensate(site, w, p, s) && first.status.Fine?
    ensures CompensateAll(site, w, AbortPlan(p), s) == CompensateAll(site, first.w, AbortPlan(q), first.rest)
  {
    PlanSteps(p);
  }

  lemma ReturnThenRest(site: Site, w: World, p: Phase, q: Phase, s: seq<Reply>, returned: Out)
    requires p.Previous() == Some(q) && returned == Compensate(site, w, p, s) && returned.status.Fine?
    requires 2 <= |s| && returned.rest == s[2..]
    requires Wedged(site, AfterPlan(CompensateAll(site, returned.w, AbortPlan(q), s[2..])).w) <==>
               StopsShort(Nth(s[2..], 0), Nth(s[2..], 1), Nth(s[2..], 2))
    ensures Wedged(site, AfterPlan(CompensateAll(site, w, AbortPlan(p), s)).w) <==>
              StopsShort(Nth(s, 2), Nth(s, 3), Nth(s, 4))
  {
    PlanSplits(site, w, p, q, s, returned);
  }

  // ----- Where the survival theorem needs its assumption -----

  /** With the state file gone, both guests there and the data volume on the
      replacement, an abort whose calls all work keeps the volume exactly when it
      can be recognised without any record. */
  lemma UnjournalledAbortKeepsExactlyWhen(site: Site, w: World, s: seq<Reply>)
    requires WellFormed(site, w) && w.disk == NO_STATE && Final(site, w).Some? && OnTransient(site, w)
    requires Cooperative(s, 1) && Allowed(true, s)
    ensures DataKept(Abort(site, w, s).w) <==> Recognised(site, Data(w), NO_STATE)
  {
    if Recognised(site, Data(w), NO_STATE) {
      AbortSafe(site, w, s, true);
    } else {
      var loaded := w.(mem := w.disk);
      var p := UnrecognisedIsBuilt(site, w);
      AbortFromBuilt(site, loaded, p, s);
    }
  }

  /** The replacement then looks like one that was built and not handed the volume. */
  lemma UnrecognisedIsBuilt(site: Site, w: World) returns (p: Phase)
    requires WellFormed(site, w) && w.disk == NO_STATE && Final(site, w).Some? && OnTransient(site, w)
    requires !Recognised(site, Data(w), NO_STATE)
    ensures var loaded := w.(mem := w.disk);
            && Reconstructed(Observe(site, loaded)) == Some(p) && p.Previous() == Some(Secured)
            && WellFormed(site, loaded) && Data(loaded) == Data(w) && OnTransient(site, loaded)
  {
    var loaded := w.(mem := w.disk);
    ReloadWellFormed(site, w);
    NamesDiffer(site, loaded);
    OwnedIsData(site, loaded, Transient(site, loaded).value);
    p := Built;
  }

  lemma AbortFromBuilt(site: Site, w: World, p: Phase, s: seq<Reply>)
    requires WellFormed(site, w) && w.mem == w.disk == NO_STATE && OnTransient(site, w) && Cooperative(s, 1)
    requires Reconstructed(Observe(site, w)) == Some(p) && p.Previous() == Some(Secured)
    ensures !DataKept(Abort(site, w, s).w)
  {
    var deleted := Delete(w, Transient(site, w).value, s);
    HolderTakesIt(w, Transient(site, w).value, s);
    DeletionThenStart(site, w, p, s, deleted);
  }

  lemma HolderTakesIt(w: World, id: nat, s: seq<Reply>)
    requires DataKept(w) && Data(w).owner == Some(id) && Cooperative(s, 1)
    requires forall u, v :: u in w.volumes && v in w.volumes && u.precious && v.precious ==> u == v
    ensures !DataKept(Delete(w, id, s).w)
  {
  }

  lemma DeletionThenStart(site: Site, w: World, p: Phase, s: seq<Reply>, deleted: Out)
    requires w.mem == w.disk == NO_STATE && p.Previous() == Some(Secured) && deleted.status.Fine?
    requires Reconstructed(Observe(site, w)) == Some(p) && deleted == DeleteNamed(w, site.TransientName(), s)
    ensures Abort(site, w, s).w.volumes == deleted.w.volumes
  {
    PlanSteps(p);
    assert deleted == Compensate(site, w, p, s);
    OnlyStarts(site, deleted.w, deleted.rest);
    assert w.(mem := w.disk) == w;
  }

  /** What is left of an abort after the replacement is gone touches no volume. */
  lemma OnlyStarts(site: Site, w: World, s: seq<Reply>)
    ensures CompensateAll(site, w, AbortPlan(Secured), s).w.volumes == w.volumes
  {
    StartIsLast(site, w, Secured, s);
  }

  /** And losing both the state file and the serial gets there: a handover dies
      while the volume has moved but not got its serial back, the next save loses
      the file, and the abort that follows destroys the data volume. */
  lemma LosingBothLosesTheDisk(site: Site, o: Options, w: World, id: string)
    requires Handing(site, w) && OnFinal(site, w) && Recognised(site, Data(w), w.mem) && w.disk.journal == Some(HandedOver)
    requires NameFree(w.volumes, id) && !EndsWith(id, "-data")
    ensures var ok := Reply(true, Ok, "", false, false);
            !DataKept(Session(site, w, [
              RunCommand(o, [ok, Reply(true, Death, id, true, false)]),
              RunCommand(o, [Reply(false, Error, "", false, true)]),
              AbortCommand([ok])]))
  {
    var ok := Reply(true, Ok, "", false, false);
    var c1 := RunCommand(o, [ok, Reply(true, Death, id, true, false)]);
    var c2 := RunCommand(o, [Reply(false, Error, "", false, true)]);
    var c3 := AbortCommand([ok]);
    AfterBothLosses(site, o, w, id);
    UnjournalledAbortKeepsExactlyWhen(site, Invoke(site, Invoke(site, w, c1).w, c2).w, [ok]);
    ThreeCommands(site, w, c1, c2, c3);
  }

  lemma AfterBothLosses(site: Site, o: Options, w: World, id: string)
    requires Handing(site, w) && OnFinal(site, w) && Recognised(site, Data(w), w.mem) && w.disk.journal == Some(HandedOver)
    requires NameFree(w.volumes, id) && !EndsWith(id, "-data")
    ensures var first := RunCommand(o, [Reply(true, Ok, "", false, false), Reply(true, Death, id, true, false)]);
            var end := Invoke(site, Invoke(site, w, first).w, RunCommand(o, [Reply(false, Error, "", false, true)])).w;
            && WellFormed(site, end) && end.disk == NO_STATE && Final(site, end).Some? && OnTransient(site, end)
            && !Recognised(site, Data(end), NO_STATE)
  {
    SerialLost(site, o, w, id);
    FileLost(site, o, Run(site, o, w, [Reply(true, Ok, "", false, false), Reply(true, Death, id, true, false)]).w);
  }

  lemma ThreeCommands(site: Site, w: World, c1: Command, c2: Command, c3: Command)
    ensures Session(site, w, [c1, c2, c3]) == Invoke(site, Invoke(site, Invoke(site, w, c1).w, c2).w, c3).w
  {
    assert [c1, c2, c3][1..] == [c2, c3] && [c2, c3][1..] == [c3] && [c3][1..] == [];
    var w1 := Invoke(site, w, c1).w;
    assert Session(site, w, [c1, c2, c3]) == Session(site, w1, [c2, c3]);
    assert Session(site, w1, [c2, c3]) == Session(site, Invoke(site, w1, c2).w, [c3]);
  }

  /** The reassignment took effect, the caller died, and the serial is gone. */
  lemma MovedBare(site: Site, w: World, from: nat, to: nat, id: string)
    requires WellFormed(site, w) && Data(w).owner == Some(from) && to < w.nextId
    requires NameFree(w.volumes, id) && !EndsWith(id, "-data")
    ensures var moved := Reassign(w, Data(w).id, from, to, [Reply(true, Death, id, true, false)]);
            && moved.status.Dead? && moved.w.disk == w.disk && SameNames(site, w, moved.w)
            && Data(moved.w).owner == Some(to) && !Recognised(site, Data(moved.w), NO_STATE)
  {
    RecordedIsData(site, w, Data(w).id);
    ReplaceView(site, w, Data(w).(id := id, name := id, owner := Some(to), serial := false));
  }

  lemma SerialLost(site: Site, o: Options, w: World, id: string)
    requires Handing(site, w) && OnFinal(site, w) && Recognised(site, Data(w), w.mem) && w.disk.journal == Some(HandedOver)
    requires NameFree(w.volumes, id) && !EndsWith(id, "-data")
    ensures var ok := Reply(true, Ok, "", false, false);
            var w1 := Run(site, o, w, [ok, Reply(true, Death, id, true, false)]).w;
            && WellFormed(site, w1) && w1.mem == w1.disk && w1.disk.journal == Some(HandedOver)
            && Final(site, w1).Some? && OnTransient(site, w1) && !Recognised(site, Data(w1), NO_STATE)
  {
    var dies := Reply(true, Death, id, true, false);
    HandOverRoute(site, w, [dies]);
    var from, to := Final(site, w).value, Transient(site, w).value;
    MovedBare(site, w, from, to, id);
    var moved := Reassign(w, Data(w).id, from, to, [dies]);
    assert MoveVolume(site, w, Data(w).id, from, to, [dies]) == moved;
    RunStopsAt(site, o, w, [Reply(true, Ok, "", false, false), dies], moved);
  }

  lemma RunStopsAt(site: Site, o: Options, w: World, s: seq<Reply>, stopped: Out)
    requires w.mem == w.disk && w.disk.journal == Some(HandedOver)
    requires Final(site, w).Some? && |s| == 2 && s[0].answer.Ok?
    requires HandOverDisk(site, w, s[1..]) == stopped && !stopped.status.Fine?
    ensures Run(site, o, w, s) == stopped
  {
    assert w.(mem := w.disk) == w && StartPhase(site, w) == Some(HandedOver);
    assert SaveJournal(w, HandedOver, s) == Out(w, s[1..], Fine);
  }

  lemma FileLost(site: Site, o: Options, w: World)
    requires WellFormed(site, w) && w.mem == w.disk && w.disk.journal == Some(HandedOver)
    requires Final(site, w).Some? && OnTransient(site, w)
    ensures var next := Run(site, o, w, [Reply(false, Error, "", false, true)]).w;
            && WellFormed(site, next) && next.disk == NO_STATE && Data(next) == Data(w)
            && Final(site, next).Some? && OnTransient(site, next)
  {
    var next := Run(site, o, w, [Reply(false, Error, "", false, true)]).w;
    assert w.(mem := w.disk) == w && StartPhase(site, w) == Some(HandedOver);
    assert next == w.(mem := next.mem, disk := NO_STATE);
    LostWellFormed(site, w, next);
  }

  lemma LostWellFormed(site: Site, w: World, next: World)
    requires WellFormed(site, w) && next == w.(mem := next.mem, disk := NO_STATE)
    requires RecordedId(next.mem) == RecordedId(w.mem)
    ensures WellFormed(site, next) && Data(next) == Data(w)
  {
    forall v | v in next.volumes && !v.precious ensures Ordinary(site, v, next) {
      assert Ordinary(site, v, w);
    }
  }
}
