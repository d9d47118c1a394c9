/** Exactly when a whole recycle finishes with everything working, and what it has done
    by the time the data volume moves and the original goes
    (internal/recycle/engine.go, internal/bootstrap/recycle_cluster.go). */
module RecycleProgress {
  import opened Prelude
  import opened Recycle
  import opened RecycleWorld
  import opened RecycleSafety
  import opened RecycleCompletion
  import opened RecycleHandOver

  // ----- Everything works -----

  /** Every call works; a volume that is reassigned is to be called `name`. */
  predicate AllWork(s: seq<Reply>, name: string) {
    forall r | r in s :: r.answer.Ok? && !r.lost && !r.bare && r.id == name
  }

  lemma WorkRest(s: seq<Reply>, name: string, n: nat)
    requires AllWork(s, name) && n <= |s|
    ensures AllWork(s[n..], name) && Clean(s) && Cooperative(s, |s|) && Allowed(true, s)
  {
    forall r | r in s[n..] ensures r in s {}
    forall i | 0 <= i < |s| ensures s[i].answer.Ok? {
      assert s[i] in s;
    }
  }

  function Working(name: string): Reply { Reply(true, Ok, name, false, false) }

  /** A reassignment leaves the data volume recognisable; without one it keeps its name
      and is given the serial. */
  ghost predicate Keeps(site: Site, w: World, name: string)
    requires DataKept(w)
  {
    site.canReassign ==> Recognised(site, Handed(w, 0, Working(name)), w.mem)
  }

  // ----- The handover, by whichever way -----

  /** The fallback completes too: detached, attached under the serial, and recorded for
      its new holder under the name it always had. */
  lemma ReattachCompletes(site: Site, w: World, from: nat, to: nat, s: seq<Reply>)
    requires WellFormed(site, w) && w.mem.volume.Some? && Data(w).owner == Some(from) && to < w.nextId
    requires Clean(s) && Cooperative(s, 3)
    ensures var o := MoveByReattach(w, Data(w).id, from, to, s);
            && MovedTo(site, w, o, to) && o.rest == s[3..]
            && o.w.disk.volume == Some(VolumeRecord(Data(w).id, to)) && Data(o.w).id == Data(w).id
  {
    var detached := DetachCompletes(site, w, from, s);
    var attached := AttachCompletes(site, detached.w, to, detached.rest);
    NamesDataIsHarmless(site, attached.w, Data(w).id);
    RecordFollows(site, w, attached.w, Data(w).id, to, attached.rest);
    RecordCompletes(site, attached.w, Data(w).id, to, attached.rest);
  }

  lemma DetachCompletes(site: Site, w: World, from: nat, s: seq<Reply>) returns (o: Out)
    requires WellFormed(site, w) && Data(w).owner == Some(from) && Cooperative(s, 1)
    ensures o == Detach(w, Data(w).id, from, s) && o.status.Fine? && o.rest == s[1..]
    ensures SameNames(site, w, o.w) && o.w.guests == w.guests && o.w.nextId == w.nextId
    ensures Data(o.w) == Data(w).(owner := None)
  {
    o := Detach(w, Data(w).id, from, s);
    RecordedIsData(site, w, Data(w).id);
    ReplaceView(site, w, Data(w).(owner := None));
  }

  lemma AttachCompletes(site: Site, w: World, to: nat, s: seq<Reply>) returns (o: Out)
    requires WellFormed(site, w) && to < w.nextId && Cooperative(s, 1)
    ensures o == Attach(w, Data(w).id, to, s) && o.status.Fine? && o.rest == s[1..]
    ensures SameNames(site, w, o.w) && o.w.guests == w.guests && o.w.nextId == w.nextId
    ensures Data(o.w) == Data(w).(owner := Some(to), serial := true)
  {
    o := Attach(w, Data(w).id, to, s);
    RecordedIsData(site, w, Data(w).id);
    ReplaceView(site, w, Data(w).(owner := Some(to), serial := true));
  }

  lemma HandedOwner(site: Site, w: World, to: nat, r: Reply, name: string)
    requires DataKept(w) && r.answer.Ok? && r.id == name
    ensures Recognised(site, Handed(w, to, r), w.mem) <==> Recognised(site, Handed(w, 0, Working(name)), w.mem)
  {
  }

  /** What a working handover leaves. */
  ghost predicate HandedOverWell(site: Site, w: World, o: Out, s: seq<Reply>, keeps: bool) {
    && Transient(site, w).Some? && MovedTo(site, w, o, Transient(site, w).value) && |s| >= 3
    && (o.rest == s[2..] || o.rest == s[3..]) && (Recognised(site, Data(o.w), o.w.mem) <==> keeps)
  }

  lemma HandOverWorks(site: Site, w: World, s: seq<Reply>, name: string) returns (o: Out)
    requires WellFormed(site, w) && w.mem == w.disk && w.disk.volume.Some?
    requires Final(site, w).Some? && Transient(site, w).Some? && OnFinal(site, w) && Recognised(site, Data(w), w.mem)
    requires AllWork(s, name) && |s| >= 3
    ensures o == HandOverDisk(site, w, s) && HandedOverWell(site, w, o, s, Keeps(site, w, name))
  {
    BothMine(site, w);
    OwnedIsData(site, w, Transient(site, w).value);
    MoveRoute(site, w, site.finalName, site.TransientName(), s);
    o := MoveWorks(site, w, s, name);
  }

  lemma MoveWorks(site: Site, w: World, s: seq<Reply>, name: string) returns (o: Out)
    requires WellFormed(site, w) && w.mem == w.disk && w.disk.volume.Some?
    requires Final(site, w).Some? && Transient(site, w).Some? && OnFinal(site, w) && Recognised(site, Data(w), w.mem)
    requires AllWork(s, name) && |s| >= 3
    ensures o == MoveVolume(site, w, Data(w).id, Final(site, w).value, Transient(site, w).value, s)
    ensures HandedOverWell(site, w, o, s, Keeps(site, w, name))
  {
    BothMine(site, w);
    WorkRest(s, name, 0);
    var from, to := Final(site, w).value, Transient(site, w).value;
    o := MoveVolume(site, w, Data(w).id, from, to, s);
    if site.canReassign {
      MoveCompletes(site, w, from, to, s);
      MoveAttempt(site, w, from, to, s);
      assert s[0] in s;
      HandedOwner(site, w, to, s[0], name);
      assert o.w.(mem := o.w.disk) == o.w;
    } else {
      ReattachCompletes(site, w, from, to, s);
    }
  }

  // ----- Phase by phase -----

  /** Where a run that is getting on stands before phase `p`; `keeps` tells whether the
      volume is, or will be, recognisable on the replacement. */
  ghost predicate Along(site: Site, w: World, p: Phase, name: string, keeps: bool) {
    && WellFormed(site, w) && w.mem == w.disk && w.mem.volume.Some?
    && if p.Index() <= 3 then
         Final(site, w).Some? && Transient(site, w).None? && OnFinal(site, w)
         && Recognised(site, Data(w), w.mem) && (keeps <==> Keeps(site, w, name))
       else if p.Index() == 4 then
         Final(site, w).Some? && Transient(site, w).Some? && OnFinal(site, w)
         && Recognised(site, Data(w), w.mem) && (keeps <==> Keeps(site, w, name))
       else if p.Index() == 5 then
         Final(site, w).Some? && OnTransient(site, w) && (keeps <==> Recognised(site, Data(w), w.mem))
       else if p.Index() == 6 then keeps && OnTransient(site, w) && Final(site, w).None?
       else keeps && (Final(site, w).Some? <==> site.canRename)
  }

  /** A phase works, uses up at most three replies, and leaves the run along. */
  ghost predicate Works(site: Site, o: Out, s: seq<Reply>, q: Phase, name: string, keeps: bool) {
    && o.status.Fine? && Along(site, o.w, q, name, keeps)
    && exists n: nat :: n <= 3 && n <= |s| && o.rest == s[n..]
  }

  lemma Used(site: Site, o: Out, s: seq<Reply>, q: Phase, name: string, keeps: bool, n: nat)
    requires o.status.Fine? && Along(site, o.w, q, name, keeps) && n <= 3 && n <= |s| && o.rest == s[n..]
    ensures Works(site, o, s, q, name, keeps)
  {
  }

  lemma SameAlong(site: Site, w: World, next: World, p: Phase, q: Phase, name: string, keeps: bool)
    requires Along(site, w, p, name, keeps) && p.Index() <= 3 && q.Index() <= 3
    requires SameView(site, w, next) && next.mem == next.disk && next.volumes == w.volumes
    ensures Along(site, next, q, name, keeps)
  {
  }

  lemma QuiesceWorks(site: Site, w: World, p: Phase, s: seq<Reply>, name: string, keeps: bool)
    requires Along(site, w, p, name, keeps) && p.Quiesced? && AllWork(s, name) && |s| >= 3
    ensures Works(site, StopOriginal(site, w, s), s, Secured, name, keeps)
  {
    assert s[0] in s;
    SetRunningView(site, w, Final(site, w).value, false, s);
    SameAlong(site, w, StopOriginal(site, w, s).w, p, Secured, name, keeps);
    Used(site, StopOriginal(site, w, s), s, Secured, name, keeps, 1);
  }

  lemma ArchiveWorks(site: Site, w: World, p: Phase, s: seq<Reply>, name: string, keeps: bool)
    requires Along(site, w, p, name, keeps) && p.Index() <= 3 && AllWork(s, name) && |s| >= 1
    ensures var o := ArchiveOriginal(site, w, s);
            && o.status.Fine? && Along(site, o.w, p, name, keeps) && o.rest == s[1..]
  {
    assert s[0] in s;
    CopyView(site, w, s);
    SameAlong(site, w, ArchiveOriginal(site, w, s).w, p, p, name, keeps);
  }

  lemma SecureWorks(site: Site, o: Options, w: World, p: Phase, s: seq<Reply>, name: string, keeps: bool)
    requires Along(site, w, p, name, keeps) && p.Secured? && AllWork(s, name) && |s| >= 3
    ensures var done := RunPhase(site, o, w, p, s);
            if o.storage || o.copyTaken then Works(site, done, s, Built, name, keeps) else !done.status.Fine?
  {
    if o.storage || o.copyTaken {
      var copied := Snapshot(site, o, w, s);
      if o.storage { ArchiveWorks(site, w, p, s, name, keeps); }
      WorkRest(s, name, if o.storage then 1 else 0);
      assert s[0..] == s;
      if o.archive { ArchiveWorks(site, copied.w, p, copied.rest, name, keeps); }
      var done := RunPhase(site, o, w, p, s);
      SameAlong(site, done.w, done.w, p, Built, name, keeps);
      Used(site, done, s, Built, name, keeps, (if o.storage then 1 else 0) + (if o.archive then 1 else 0));
    }
  }

  lemma BuildWorks(site: Site, w: World, p: Phase, s: seq<Reply>, name: string, keeps: bool)
    requires Along(site, w, p, name, keeps) && p.Built? && AllWork(s, name) && |s| >= 3
    ensures Transient(site, BuildReplacement(site, w, s).w).Some?
    ensures Works(site, BuildReplacement(site, w, s), s, HandedOver, name, keeps)
  {
    assert s[0] in s;
    CreateView(site, w, s);
    var o := BuildReplacement(site, w, s);
    assert w.nextId in o.w.guests && o.w.guests[w.nextId].name == site.TransientName();
    Used(site, o, s, HandedOver, name, keeps, 1);
  }

  /** `Along`, before the handover, without the choice of phase. */
  ghost predicate ToHandOver(site: Site, w: World, name: string, keeps: bool) {
    && WellFormed(site, w) && w.mem == w.disk && w.disk.volume.Some?
    && Final(site, w).Some? && Transient(site, w).Some? && OnFinal(site, w) && Recognised(site, Data(w), w.mem)
    && (keeps <==> Keeps(site, w, name))
  }

  lemma AlongToHandOver(site: Site, w: World, p: Phase, name: string, keeps: bool)
    requires Along(site, w, p, name, keeps) && p.HandedOver?
    ensures ToHandOver(site, w, name, keeps)
  {
  }

  lemma HandOverAlong(site: Site, w: World, s: seq<Reply>, q: Phase, name: string, keeps: bool)
    requires ToHandOver(site, w, name, keeps) && q.Index() == 5 && AllWork(s, name) && |s| >= 3
    ensures Works(site, HandOverDisk(site, w, s), s, q, name, keeps)
  {
    var o := HandOverWorks(site, w, s, name);
    MovedIsAlong(site, w, o, s, q, name, keeps);
  }

  lemma MovedIsAlong(site: Site, w: World, o: Out, s: seq<Reply>, q: Phase, name: string, keeps: bool)
    requires HandedOverWell(site, w, o, s, keeps) && Final(site, w).Some? && q.Index() == 5
    ensures Works(site, o, s, q, name, keeps)
  {
    Used(site, o, s, q, name, keeps, if o.rest == s[2..] then 2 else 3);
  }

  lemma RetireWorks(site: Site, o: Options, w: World, p: Phase, s: seq<Reply>, name: string, keeps: bool)
    requires Along(site, w, p, name, keeps) && p.Retired? && AllWork(s, name) && |s| >= 3
    ensures var done := RunPhase(site, o, w, p, s);
            if keeps then Works(site, done, s, Adopted, name, keeps) else !done.status.Fine?
  {
    assert s[0] in s;
    BothMine(site, w);
    OwnedIsData(site, w, Transient(site, w).value);
    if keeps {
      DeleteView(site, w, Final(site, w).value, s);
      Used(site, RunPhase(site, o, w, p, s), s, Adopted, name, keeps, 1);
    } else {
      UnseenIsNotRetired(site, o, w, s);
    }
  }

  lemma StartWorks(site: Site, w: World, id: nat, s: seq<Reply>, name: string)
    requires WellFormed(site, w) && w.mem == w.disk && w.mem.volume.Some? && id in w.guests && AllWork(s, name) && |s| >= 2
    ensures var noted := w.(mem := w.mem.(instance := Some(id)));
            var saved := Save(noted, s);
            var done := if !saved.status.Fine? || IsRunning(saved.w.guests, id) then saved
                        else SetRunning(saved.w, id, true, saved.rest);
            && done.status.Fine? && WellFormed(site, done.w) && done.w.mem == done.w.disk && done.w.mem.volume.Some?
            && Final(site, done.w) == Final(site, w) && (done.rest == s[1..] || done.rest == s[2..])
  {
    assert s[0] in s && s[1] in s;
    RecordAndStart(site, w, id, s);
  }

  lemma AdoptWorks(site: Site, w: World, p: Phase, s: seq<Reply>, name: string, keeps: bool)
    requires Along(site, w, p, name, keeps) && p.Adopted? && AllWork(s, name) && |s| >= 3
    ensures Works(site, AdoptReplacement(site, w, s), s, Provisioned, name, keeps)
  {
    assert s[0] in s;
    var id := Transient(site, w).value;
    WorkRest(s, name, 1);
    if site.canRename {
      RenameView(site, w, id, s);
      StartWorks(site, Rename(w, id, site.finalName, s).w, id, s[1..], name);
    } else {
      StartWorks(site, w, id, s, name);
    }
    var o := AdoptReplacement(site, w, s);
    assert s[1..][1..] == s[2..] && s[1..][2..] == s[3..];
    Used(site, o, s, Provisioned, name, keeps, if o.rest == s[1..] then 1 else if o.rest == s[2..] then 2 else 3);
  }

  /** With everything working, a phase fails only for want of a safety copy, of a volume
      that can be seen on the replacement, or of a bastion under the final name. */
  ghost predicate Stumbles(site: Site, o: Options, p: Phase, keeps: bool) {
    || (p.Secured? && !o.storage && !o.copyTaken)
    || (p.Retired? && !keeps)
    || (p.Verified? && !site.canRename)
  }

  lemma IdleWorks(site: Site, w: World, p: Phase, q: Phase, s: seq<Reply>, name: string, keeps: bool)
    requires Along(site, w, p, name, keeps) && ((p.Index() == 0 && q.Index() == 1) || (p.Index() == 7 && q.Index() == 8))
    ensures Works(site, Out(w, s, Fine), s, q, name, keeps)
  {
    assert s[0..] == s;
    Used(site, Out(w, s, Fine), s, q, name, keeps, 0);
  }

  lemma VerifyWorks(site: Site, w: World, p: Phase, s: seq<Reply>, name: string, keeps: bool)
    requires Along(site, w, p, name, keeps) && p.Verified? && AllWork(s, name) && |s| >= 3
    ensures var done := Verify(site, w, s);
            if site.canRename then done.status.Fine? && done.w == w && done.rest == s[1..] else !done.status.Fine?
  {
    assert s[0] in s;
  }

  /** The outcome of phase `p` when everything works. */
  ghost predicate Ends(site: Site, o: Options, w: World, p: Phase, s: seq<Reply>, done: Out, name: string, keeps: bool) {
    if Stumbles(site, o, p, keeps) then !done.status.Fine?
    else if p.Next().Some? then Works(site, done, s, p.Next().value, name, keeps)
    else done.status.Fine? && done.w == w && s != [] && done.rest == s[1..]
  }

  lemma FirstPhaseWorks(site: Site, o: Options, w: World, p: Phase, s: seq<Reply>, name: string, keeps: bool)
    requires Along(site, w, p, name, keeps) && AllWork(s, name) && |s| >= 3 && p.Index() <= 1
    ensures Ends(site, o, w, p, s, RunPhase(site, o, w, p, s), name, keeps)
  {
    if p.Planned? {
      IdleWorks(site, w, p, p.Next().value, s, name, keeps);
    } else {
      QuiesceWorks(site, w, p, s, name, keeps);
    }
  }

  lemma BuildPhaseWorks(site: Site, o: Options, w: World, p: Phase, s: seq<Reply>, name: string, keeps: bool)
    requires Along(site, w, p, name, keeps) && AllWork(s, name) && |s| >= 3 && p.Built?
    ensures Ends(site, o, w, p, s, RunPhase(site, o, w, p, s), name, keeps)
  {
    BuildWorks(site, w, p, s, name, keeps);
  }

  lemma HandOverPhaseWorks(site: Site, o: Options, w: World, p: Phase, s: seq<Reply>, name: string, keeps: bool)
    requires Along(site, w, p, name, keeps) && AllWork(s, name) && |s| >= 3 && p.HandedOver?
    ensures Ends(site, o, w, p, s, RunPhase(site, o, w, p, s), name, keeps)
  {
    AlongToHandOver(site, w, p, name, keeps);
    HandOverAlong(site, w, s, p.Next().value, name, keeps);
  }

  lemma LatePhaseWorks(site: Site, o: Options, w: World, p: Phase, s: seq<Reply>, name: string, keeps: bool)
    requires Along(site, w, p, name, keeps) && AllWork(s, name) && |s| >= 3 && p.Index() > 4
    ensures Ends(site, o, w, p, s, RunPhase(site, o, w, p, s), name, keeps)
  {
    match p
    case Retired => RetireWorks(site, o, w, p, s, name, keeps);
    case Adopted => AdoptWorks(site, w, p, s, name, keeps);
    case Provisioned => IdleWorks(site, w, p, Verified, s, name, keeps);
    case Verified => VerifyWorks(site, w, p, s, name, keeps);
  }

  lemma PhaseWorks(site: Site, o: Options, w: World, p: Phase, s: seq<Reply>, name: string, keeps: bool)
    requires Along(site, w, p, name, keeps) && AllWork(s, name) && |s| >= 3
    ensures Ends(site, o, w, p, s, RunPhase(site, o, w, p, s), name, keeps)
  {
    if p.Index() <= 1 {
      FirstPhaseWorks(site, o, w, p, s, name, keeps);
    } else if p.Secured? {
      SecureWorks(site, o, w, p, s, name, keeps);
    } else if p.Built? {
      BuildPhaseWorks(site, o, w, p, s, name, keeps);
    } else if p.HandedOver? {
      HandOverPhaseWorks(site, o, w, p, s, name, keeps);
    } else {
      LatePhaseWorks(site, o, w, p, s, name, keeps);
    }
  }

  /** Only the journal has changed. */
  ghost predicate Rejournalled(site: Site, w: World, next: World)
    requires WellFormed(site, w)
  {
    && WellFormed(site, next) && Data(next) == Data(w) && next.volumes == w.volumes && next.guests == w.guests
    && next.mem == next.disk && next.mem.volume == w.mem.volume
  }

  lemma JournalView(site: Site, w: World, mem: StateFile, s: seq<Reply>)
    requires WellFormed(site, w) && mem.volume == w.mem.volume && s != [] && s[0].answer.Ok?
    ensures var saved := Save(w.(mem := mem), s);
            saved.status.Fine? && saved.rest == s[1..] && Rejournalled(site, w, saved.w) && saved.w.mem == mem
  {
    MemView(site, w, mem);
    SaveView(site, w.(mem := mem), s);
  }

  lemma RejournalledAlong(site: Site, w: World, next: World, p: Phase, name: string, keeps: bool)
    requires Along(site, w, p, name, keeps) && Rejournalled(site, w, next)
    ensures Along(site, next, p, name, keeps)
  {
  }

  lemma JournalAlong(site: Site, w: World, p: Phase, s: seq<Reply>, name: string, keeps: bool)
    requires Along(site, w, p, name, keeps) && AllWork(s, name) && |s| >= 1
    ensures var saved := SaveJournal(w, p, s);
            && saved.status.Fine? && saved.rest == s[1..] && Along(site, saved.w, p, name, keeps)
            && saved.w.mem.journal == Some(p)
  {
    assert s[0] in s;
    JournalView(site, w, w.mem.(journal := Some(p)), s);
    RejournalledAlong(site, w, SaveJournal(w, p, s).w, p, name, keeps);
  }

  lemma PhasesUnfold(site: Site, o: Options, w: World, p: Phase, s: seq<Reply>)
    requires !o.stopBeforeRetire && SaveJournal(w, p, s).status.Fine?
    ensures var saved := SaveJournal(w, p, s);
            var done := RunPhase(site, o, saved.w, p, saved.rest);
            PhasesFrom(site, o, w, p, s) ==
              if !done.status.Fine? then done
              else if p.Next().None? then ClearJournal(done.w, done.rest)
              else PhasesFrom(site, o, done.w, p.Next().value, done.rest)
  {
  }

  /** One phase, journalled, and what the run comes to if it is done. */
  lemma StepWorks(site: Site, o: Options, w: World, p: Phase, s: seq<Reply>, name: string, keeps: bool) returns (done: Out)
    requires Along(site, w, p, name, keeps) && AllWork(s, name) && |s| >= 4 * p.Left() + 1 && !o.stopBeforeRetire
    ensures done.status.Fine? <==> !Stumbles(site, o, p, keeps)
    ensures !done.status.Fine? ==> PhasesFrom(site, o, w, p, s) == done
    ensures done.status.Fine? && p.Next().None? ==> PhasesFrom(site, o, w, p, s).status.Fine?
    ensures done.status.Fine? && p.Next().Some? ==>
              && PhasesFrom(site, o, w, p, s) == PhasesFrom(site, o, done.w, p.Next().value, done.rest)
              && Along(site, done.w, p.Next().value, name, keeps) && AllWork(done.rest, name)
              && |done.rest| >= 4 * p.Next().value.Left() + 1
  {
    JournalAlong(site, w, p, s, name, keeps);
    var saved := SaveJournal(w, p, s);
    WorkRest(s, name, 1);
    PhasesUnfold(site, o, w, p, s);
    PhaseWorks(site, o, saved.w, p, saved.rest, name, keeps);
    done := RunPhase(site, o, saved.w, p, saved.rest);
    if done.status.Fine? {
      if p.Next().None? {
        ClearingWorks(done.w, done.rest, s, name);
      } else {
        var n: nat :| n <= 3 && n <= |saved.rest| && done.rest == saved.rest[n..];
        WorkRest(saved.rest, name, n);
      }
    }
  }

  lemma ClearingWorks(w: World, rest: seq<Reply>, s: seq<Reply>, name: string)
    requires w.mem.journal.Some? && AllWork(s, name) && |s| >= 3 && rest == s[1..][1..]
    ensures ClearJournal(w, rest).status.Fine?
  {
    assert rest[0] == s[2] && s[2] in s;
  }

  /** The phases from `p` on, with everything working, succeed exactly when none of them
      stumbles. */
  predicate Arrives(site: Site, o: Options, p: Phase, keeps: bool) {
    (p.Index() <= 2 ==> o.storage || o.copyTaken) && keeps && site.canRename
  }

  lemma {:induction false} PhasesArriveExactlyWhen(site: Site, o: Options, w: World, p: Phase, s: seq<Reply>, name: string,
                                                   keeps: bool)
    requires Along(site, w, p, name, keeps) && AllWork(s, name) && |s| >= 4 * p.Left() + 1 && !o.stopBeforeRetire
    ensures PhasesFrom(site, o, w, p, s).status.Fine? <==> Arrives(site, o, p, keeps)
    decreases p.Left()
  {
    var done := StepWorks(site, o, w, p, s, name, keeps);
    if done.status.Fine? && p.Next().Some? {
      PhasesArriveExactlyWhen(site, o, done.w, p.Next().value, done.rest, name, keeps);
      NextArrives(site, o, w, done.w, p, name, keeps);
    }
  }

  lemma NextArrives(site: Site, o: Options, w: World, next: World, p: Phase, name: string, keeps: bool)
    requires p.Next().Some? && !Stumbles(site, o, p, keeps) && Along(site, w, p, name, keeps)
    ensures Arrives(site, o, p, keeps) <==> Arrives(site, o, p.Next().value, keeps)
  {
  }

  lemma RunIs(site: Site, o: Options, w: World, p: Phase, s: seq<Reply>)
    requires w.mem == w.disk && StartPhase(site, w) == Some(p)
    ensures Run(site, o, w, s) == PhasesFrom(site, o, w, p, s)
  {
    assert w.(mem := w.disk) == w;
  }

  /** A recycle that has not begun: the bastion can be seen to hold the recorded data
      volume, and there is neither a replacement nor a journal. */
  ghost predicate NotBegun(site: Site, w: World) {
    && WellFormed(site, w) && w.mem == w.disk && w.disk.volume.Some? && w.disk.journal.None?
    && Final(site, w).Some? && Transient(site, w).None? && OnFinal(site, w) && Recognised(site, Data(w), w.mem)
  }

  /** From there, with everything working and no pause asked for, a recycle returns nil
      exactly when there is a safety copy or a storage for one, the provider can rename
      guests, and the volume is recognisable as it is handed over; and it then ends with
      the new bastion under the final name, recorded, running and holding it. */
  lemma RecycleFinishesExactlyWhen(site: Site, o: Options, w: World, s: seq<Reply>, name: string)
    requires NotBegun(site, w) && AllWork(s, name) && |s| >= 37 && !o.stopBeforeRetire
    ensures Run(site, o, w, s).status.Fine? <==>
              (o.storage || o.copyTaken) && site.canRename && Keeps(site, w, name)
    ensures Run(site, o, w, s).status.Fine? ==> Completed(site, Run(site, o, w, s).w)
  {
    var p := NotBegunIsPlanned(site, w);
    RunIs(site, o, w, p, s);
    PhasesArriveExactlyWhen(site, o, w, p, s, name, Keeps(site, w, name));
    WorkRest(s, name, 0);
    assert Safe(site, w, true);
    assert w.(mem := w.disk) == w;
    SuccessfulRunHandsOver(site, o, w, s, true);
  }

  lemma NotBegunIsPlanned(site: Site, w: World) returns (p: Phase)
    requires NotBegun(site, w)
    ensures StartPhase(site, w) == Some(p) && p.Index() == 0
  {
    p := Planned;
  }

  // ----- Before the volume moves and the original goes -----

  /** The world in which a run that goes on at `p` begins phase `q`, if it gets there. */
  ghost function Begun(site: Site, o: Options, w: World, p: Phase, s: seq<Reply>, q: Phase): Option<World>
    decreases p.Left()
  {
    if o.stopBeforeRetire && p.Retired? then None
    else
      var saved := SaveJournal(w, p, s);
      if !saved.status.Fine? then None
      else if p == q then Some(saved.w)
      else
        var done := RunPhase(site, o, saved.w, p, saved.rest);
        if !done.status.Fine? || p.Next().None? then None
        else Begun(site, o, done.w, p.Next().value, done.rest, q)
  }

  ghost predicate Stopped(site: Site, w: World) {
    Final(site, w).Some? ==> !IsRunning(w.guests, Final(site, w).value)
  }

  /** What holds when phase `p` begins: past quiescing the original is stopped, past
      securing there is a copy, or the operator's word. */
  ghost predicate Prepared(site: Site, o: Options, w: World, p: Phase, copies: nat) {
    && (1 < p.Index() <= 4 ==> Stopped(site, w))
    && copies <= w.copies && (2 < p.Index() ==> copies < w.copies || o.copyTaken)
  }

  lemma PhasePrepares(site: Site, o: Options, w: World, p: Phase, s: seq<Reply>, copies: nat, kept: bool)
    requires Ready(site, w, kept) && w.disk.journal == Some(p) && Allowed(kept, s) && p.Next().Some?
    requires Prepared(site, o, w, p, copies) && RunPhase(site, o, w, p, s).status.Fine?
    ensures Prepared(site, o, RunPhase(site, o, w, p, s).w, p.Next().value, copies)
  {
    NamesDiffer(site, w);
    match p
    case Quiesced => SetRunningView(site, w, Final(site, w).value, false, s);
    case Secured => CopiesPrepare(site, o, w, s, copies);
    case Built => if Transient(site, w).None? { CreateView(site, w, s); }
    case HandedOver => MovesCopyNothing(site, w, s);
    case Retired => DeletingCopiesNothing(site, o, w, s);
    case Adopted => AdoptingCopiesNothing(site, w, s);
    case _ =>
  }

  lemma CopiesPrepare(site: Site, o: Options, w: World, s: seq<Reply>, copies: nat)
    requires WellFormed(site, w) && Stopped(site, w) && copies <= w.copies
    requires RunPhase(site, o, w, Secured, s).status.Fine?
    ensures Prepared(site, o, RunPhase(site, o, w, Secured, s).w, Built, copies)
  {
  }

  lemma ReattachCopiesNothing(w: World, id: string, from: nat, to: nat, s: seq<Reply>)
    ensures MoveByReattach(w, id, from, to, s).w.copies == w.copies
  {
    assert Detach(w, id, from, s).w.copies == w.copies;
    var detached := Detach(w, id, from, s);
    assert Attach(detached.w, id, to, detached.rest).w.copies == w.copies;
  }

  lemma RecordCopiesNothing(w: World, id: string, guest: nat, s: seq<Reply>)
    ensures RecordVolumeOwner(w, id, guest, s).w.copies == w.copies
  {
  }

  lemma MoveCopiesNothing(site: Site, w: World, id: string, from: nat, to: nat, s: seq<Reply>)
    ensures MoveVolume(site, w, id, from, to, s).w.copies == w.copies
  {
    if site.canReassign {
      var moved := Reassign(w, id, from, to, s);
      assert moved.w.copies == w.copies;
      ReattachCopiesNothing(moved.w, id, from, to, moved.rest);
    } else {
      ReattachCopiesNothing(w, id, from, to, s);
    }
  }

  lemma MovesCopyNothing(site: Site, w: World, s: seq<Reply>)
    ensures HandOverDisk(site, w, s).w.copies == w.copies
  {
    var from, to := FindGuest(w.guests, site.finalName), FindGuest(w.guests, site.TransientName());
    if from.Some? && to.Some? {
      var owned := OwnedData(site, w, from.value);
      var id := if owned.Some? then owned else RecordedId(w.mem);
      if id.Some? { MoveCopiesNothing(site, w, id.value, from.value, to.value, s); }
    }
  }

  lemma DeletingCopiesNothing(site: Site, o: Options, w: World, s: seq<Reply>)
    ensures RunPhase(site, o, w, Retired, s).w.copies == w.copies
  {
  }

  lemma AdoptingCopiesNothing(site: Site, w: World, s: seq<Reply>)
    ensures AdoptReplacement(site, w, s).w.copies == w.copies
  {
  }

  lemma SavePrepares(site: Site, o: Options, w: World, next: World, p: Phase, copies: nat)
    requires Prepared(site, o, w, p, copies) && next.guests == w.guests && next.copies == w.copies
    ensures Prepared(site, o, next, p, copies)
  {
  }

  /** One journalled phase of a run, and where it leaves it. */
  lemma StepPrepares(site: Site, o: Options, w: World, p: Phase, s: seq<Reply>, copies: nat, kept: bool)
    requires Ready(site, w, kept) && Allowed(kept, s) && Journalled(site, w, w.disk.(journal := Some(p)))
    requires Prepared(site, o, w, p, copies) && SaveJournal(w, p, s).status.Fine?
    ensures var saved := SaveJournal(w, p, s);
            var done := RunPhase(site, o, saved.w, p, saved.rest);
            && Prepared(site, o, saved.w, p, copies)
            && (done.status.Fine? && p.Next().Some? ==>
                  && Ready(site, done.w, kept) && Allowed(kept, done.rest)
                  && Journalled(site, done.w, done.w.disk.(journal := p.Next()))
                  && Prepared(site, o, done.w, p.Next().value, copies))
  {
    SaveSafe(site, w, w.mem.(journal := Some(p)), s, kept);
    var saved := SaveJournal(w, p, s);
    SavePrepares(site, o, w, saved.w, p, copies);
    RunPhaseSafe(site, o, saved.w, p, saved.rest, kept);
    if RunPhase(site, o, saved.w, p, saved.rest).status.Fine? && p.Next().Some? {
      PhasePrepares(site, o, saved.w, p, saved.rest, copies, kept);
    }
  }

  lemma BegunUnfolds(site: Site, o: Options, w: World, p: Phase, s: seq<Reply>, q: Phase)
    ensures var saved := SaveJournal(w, p, s);
            var done := RunPhase(site, o, saved.w, p, saved.rest);
            Begun(site, o, w, p, s, q) ==
              if (o.stopBeforeRetire && p.Retired?) || !saved.status.Fine? then None
              else if p == q then Some(saved.w)
              else if !done.status.Fine? || p.Next().None? then None
              else Begun(site, o, done.w, p.Next().value, done.rest, q)
  {
  }

  lemma {:induction false} BegunIsPrepared(site: Site, o: Options, w: World, p: Phase, s: seq<Reply>, q: Phase, copies: nat,
                                           kept: bool)
    requires Ready(site, w, kept) && Allowed(kept, s) && Journalled(site, w, w.disk.(journal := Some(p)))
    requires Prepared(site, o, w, p, copies)
    ensures var begun := Begun(site, o, w, p, s, q); begun.Some? ==> Prepared(site, o, begun.value, q, copies)
    decreases p.Left()
  {
    BegunUnfolds(site, o, w, p, s, q);
    if !(o.stopBeforeRetire && p.Retired?) && SaveJournal(w, p, s).status.Fine? {
      StepPrepares(site, o, w, p, s, copies, kept);
      var saved := SaveJournal(w, p, s);
      var done := RunPhase(site, o, saved.w, p, saved.rest);
      if p != q && done.status.Fine? && p.Next().Some? {
        BegunIsPrepared(site, o, done.w, p.Next().value, done.rest, q, copies, kept);
      }
    }
  }

  /** Whatever fails in it: in a run from the beginning, the original is stopped whenever
      it is copied, its replacement is built or the data volume is moved, and a safety
      copy has been taken, or vouched for, before the original is destroyed. */
  lemma StoppedAndCopiedFirst(site: Site, o: Options, w: World, s: seq<Reply>, q: Phase, kept: bool)
    requires Ready(site, w, kept) && Allowed(kept, s) && StartPhase(site, w) == Some(Planned)
    ensures var begun := Begun(site, o, w, Planned, s, q);
            && (begun.Some? && (q.Secured? || q.Built? || q.HandedOver?) ==> Stopped(site, begun.value))
            && (begun.Some? && q.Index() >= 3 ==> w.copies < begun.value.copies || o.copyTaken)
  {
    var p := StartPhase(site, w).value;
    StartIsTrue(site, w, kept);
    BegunIsPrepared(site, o, w, p, s, q, w.copies, kept);
  }
}
