/** The data disk survives: over every session of runs and aborts, whichever
    provider call fails and wherever a process dies (internal/recycle/engine.go,
    internal/bootstrap/recycle_cluster.go). */
module RecycleSafety {
  import opened Prelude
  import opened Recycle
  import opened RecycleWorld

  ghost predicate OnFinal(site: Site, w: World)
    requires DataKept(w)
  {
    Final(site, w).Some? && Data(w).owner == Final(site, w)
  }

  ghost predicate OnTransient(site: Site, w: World)
    requires DataKept(w)
  {
    Transient(site, w).Some? && Data(w).owner == Transient(site, w)
  }

  /** What a state file that says `f` implies about where the data volume is: the
      ordering discipline of the engine, one line a journalled phase. */
  ghost predicate Journalled(site: Site, w: World, f: StateFile)
    requires DataKept(w)
  {
    match f.journal
    case None => OnTransient(site, w) ==> Recognised(site, Data(w), f)
    case Some(p) =>
      if p.Index() < HandedOver.Index() then !OnTransient(site, w)
      else if p.HandedOver? then true
      else if p.Retired? then
        && !OnFinal(site, w)
        && (Final(site, w).None? && OnTransient(site, w) ==> Recognised(site, Data(w), f))
      else
        && (OnTransient(site, w) ==> Recognised(site, Data(w), f))
        && (Transient(site, w).Some? ==> Final(site, w).None?)
  }

  /** Either the state file is never lost (`kept`), or the provider finds volumes
      by serial and the data volume carries its serial. */
  ghost predicate Trusted(site: Site, w: World, kept: bool)
    requires DataKept(w)
  {
    kept || (site.serialLookup && Data(w).serial)
  }

  predicate Allowed(kept: bool, s: seq<Reply>) {
    forall r | r in s :: if kept then !r.lost else !r.bare
  }

  ghost predicate Safe(site: Site, w: World, kept: bool) {
    WellFormed(site, w) && Trusted(site, w, kept) && Journalled(site, w, w.disk)
  }

  /** Where every recycle begins: the bastion holds its recorded data volume, and the
      other guests may hold whatever they like, data disks with the same serial and
      suffix included. */
  lemma FreshBlocIsSafe(site: Site, w: World, bastion: nat, data: Volume)
    requires bastion in w.guests && w.guests[bastion].name == site.finalName
    requires forall g | g in w.guests && g != bastion ::
               w.guests[g].name != site.finalName && w.guests[g].name != site.TransientName()
    requires forall g | g in w.guests :: g < w.nextId
    requires data in w.volumes && data.precious && data.owner == Some(bastion) && data.serial && data.id != ""
    requires forall v | v in w.volumes :: v.id != "" && (v.owner.Some? ==> v.owner.value < w.nextId)
    requires forall u, v | u in w.volumes && v in w.volumes && u.id == v.id :: u == v
    requires forall v | v in w.volumes && v != data :: !v.precious && v.name != data.id
    requires forall v | v in w.volumes && v != data && v.owner == Some(bastion) :: !v.serial && !IsPreserved(v, None)
    requires w.mem == w.disk == StateFile(Some(VolumeRecord(data.id, bastion)), Some(bastion), None)
    ensures Safe(site, w, true) && (site.serialLookup ==> Safe(site, w, false))
    ensures StartPhase(site, w) == Some(Planned)
  {
    assert |site.finalName| != |site.TransientName()|;
    assert bastion in Named(w.guests, site.finalName);
    assert Data(w) == data;
    assert WellFormed(site, w);
  }

  /** Between two steps of a live process memory and file agree. */
  ghost predicate Ready(site: Site, w: World, kept: bool) {
    Safe(site, w, kept) && w.mem == w.disk
  }

  lemma TakeAllowed(kept: bool, s: seq<Reply>)
    requires Allowed(kept, s)
    ensures (if kept then !Take(s).lost else !Take(s).bare) && Allowed(kept, Rest(s))
  {
    if s != [] { assert s[0] in s; }
  }

  // ----- Moving the volume -----

  /** The volume, or nothing, goes by this id. */
  ghost predicate NamesData(w: World, id: string)
    requires DataKept(w)
  {
    RecordedId(w.mem) == Some(id) || Data(w).id == id
  }

  /** Nothing but the data volume takes this id for its own. */
  ghost predicate HarmlessId(w: World, id: string) {
    forall v :: v in w.volumes && !v.precious ==> v.id != id && v.name != id
  }

  lemma NamesDataIsHarmless(site: Site, w: World, id: string)
    requires WellFormed(site, w) && NamesData(w, id)
    ensures HarmlessId(w, id)
  {
    forall v | v in w.volumes && !v.precious ensures v.id != id && v.name != id {
      assert Ordinary(site, v, w);
    }
  }

  /** `next` has the data volume as it was, or at `to`, or at nobody's; the names
      stay, and so does what identifies the volume where the file may get lost. */
  ghost predicate Moved(site: Site, w: World, next: World, to: nat, kept: bool) {
    && WellFormed(site, w) && WellFormed(site, next) && Trusted(site, next, kept)
    && Final(site, next) == Final(site, w) && Transient(site, next) == Transient(site, w)
    && next.nextId == w.nextId
    && (Data(next) == Data(w) || Data(next).owner == Some(to) || Data(next).owner == None)
  }

  /** Exactly what a reassignment can do: nothing, or hand the data volume from
      its owner to `to`, serial and all unless the caller is left in the dark. */
  lemma ReassignEffect(site: Site, w: World, id: string, from: nat, to: nat, s: seq<Reply>)
    requires WellFormed(site, w) && NamesData(w, id) && to < w.nextId
    ensures var o := Reassign(w, id, from, to, s);
            || (o.w == w && !o.status.Fine?)
            || (&& Data(w).id == id && Data(w).owner == Some(from)
                && SameNames(site, w, o.w) && o.w.disk == w.disk && o.w.nextId == w.nextId
                && Data(o.w).owner == Some(to)
                && Data(o.w).serial == (Data(w).serial && (Take(s).answer.Ok? || !Take(s).bare))
                && forall u :: u in o.w.volumes && !u.precious ==> u in w.volumes)
  {
    RecordedIsData(site, w, id);
    var r, v := Take(s), FindVolume(w.volumes, id);
    if v.Some? && v.value.owner == Some(from) && r.Applied() {
      var newId := NewVolumeId(w.volumes, id, r.id);
      ReplaceView(site, w, v.value.(id := newId, name := if newId == id then v.value.name else newId,
                                    owner := Some(to), serial := v.value.serial && (r.answer.Ok? || !r.bare)));
    }
  }

  lemma ReassignMoves(site: Site, w: World, id: string, from: nat, to: nat, s: seq<Reply>, kept: bool)
    requires WellFormed(site, w) && Trusted(site, w, kept) && Allowed(kept, s)
    requires NamesData(w, id) && to < w.nextId
    ensures var o := Reassign(w, id, from, to, s);
            && Moved(site, w, o.w, to, kept) && o.w.mem == w.mem && o.w.disk == w.disk && Allowed(kept, o.rest)
            && (o.status.Fine? ==> Data(w).owner == Some(from) && Data(o.w).owner == Some(to) && Data(w).id == id)
            && (o.status.Fine? && Data(w).serial ==> Data(o.w).serial)
            && (o.w == w || Data(o.w).owner == Some(to)) && HarmlessId(o.w, id)
  {
    TakeAllowed(kept, s);
    NamesDataIsHarmless(site, w, id);
    ReassignEffect(site, w, id, from, to, s);
    assert Reassign(w, id, from, to, s).status.Fine? ==> Take(s).answer.Ok?;
  }

  lemma DetachMoves(site: Site, w: World, id: string, from: nat, to: nat, s: seq<Reply>, kept: bool)
    requires WellFormed(site, w) && Trusted(site, w, kept) && Allowed(kept, s) && NamesData(w, id)
    ensures var o := Detach(w, id, from, s);
            && Moved(site, w, o.w, to, kept) && o.w.mem == w.mem && o.w.disk == w.disk && Allowed(kept, o.rest)
            && (o.status.Fine? ==> Data(o.w).id == id && Data(o.w).owner == None)
  {
    TakeAllowed(kept, s);
    RecordedIsData(site, w, id);
    var v := FindVolume(w.volumes, id);
    if v.Some? && v.value.owner == Some(from) && Take(s).Applied() {
      ReplaceView(site, w, v.value.(owner := None));
    }
  }

  lemma AttachMoves(site: Site, w: World, id: string, to: nat, s: seq<Reply>, kept: bool)
    requires WellFormed(site, w) && Trusted(site, w, kept) && Allowed(kept, s)
    requires Data(w).id == id && Data(w).owner == None && to < w.nextId
    ensures var o := Attach(w, id, to, s);
            && Moved(site, w, o.w, to, kept) && o.w.mem == w.mem && o.w.disk == w.disk && Allowed(kept, o.rest)
            && (o.status.Fine? ==> Data(o.w).owner == Some(to) && Data(o.w).id == id)
  {
    TakeAllowed(kept, s);
    RecordedIsData(site, w, id);
    if FindVolume(w.volumes, id).Some? && Take(s).Applied() {
      ReplaceView(site, w, Data(w).(owner := Some(to), serial := true));
    }
  }

  /** The owner is recorded, the file may lag or get lost, the journal stays. */
  lemma RecordKeeps(site: Site, w: World, id: string, guest: nat, s: seq<Reply>, kept: bool)
    requires WellFormed(site, w) && Trusted(site, w, kept) && Allowed(kept, s) && HarmlessId(w, id)
    ensures var o := RecordVolumeOwner(w, id, guest, s);
            && WellFormed(site, o.w) && Trusted(site, o.w, kept) && Data(o.w) == Data(w) && Allowed(kept, o.rest)
            && Final(site, o.w) == Final(site, w) && Transient(site, o.w) == Transient(site, w)
            && o.w.nextId == w.nextId && o.w.mem.journal == w.mem.journal
            && (w.mem.volume.Some? ==> o.w.mem.volume.Some?)
            && (o.w.disk == w.disk || o.w.disk == o.w.mem || (!kept && o.w.disk == NO_STATE))
            && (o.status.Fine? ==>
                  if w.mem.volume.None? then o.w == w
                  else o.w.disk == o.w.mem && o.w.mem.volume == Some(VolumeRecord(id, guest)))
  {
    TakeAllowed(kept, s);
    if w.mem.volume.Some? {
      var mem := w.mem.(volume := Some(VolumeRecord(id, guest)));
      MemView(site, w, mem);
      if id != "" { SaveView(site, w.(mem := mem), s); }
    }
  }

  /** How a move of the disk can leave the world. */
  ghost predicate MoveOutcome(site: Site, w: World, o: Out, to: nat, kept: bool) {
    && Moved(site, w, o.w, to, kept) && Allowed(kept, o.rest)
    && o.w.mem.journal == w.mem.journal
    && (o.w.disk.journal == w.disk.journal || (!kept && o.w.disk == NO_STATE))
    && (Data(o.w) == Data(w) ==> o.w.disk == w.disk || Data(w).owner == Some(to))
    && (kept && w.disk.volume.Some? ==> o.w.disk.volume.Some?)
    && (o.status.Fine? ==> Data(o.w).owner == Some(to) && o.w.mem == o.w.disk && o.w.disk.journal == w.disk.journal)
  }

  lemma ReattachOutcome(site: Site, w: World, id: string, from: nat, to: nat, s: seq<Reply>, kept: bool)
    requires WellFormed(site, w) && Trusted(site, w, kept) && Allowed(kept, s)
    requires w.mem == w.disk && NamesData(w, id) && to < w.nextId
    ensures MoveOutcome(site, w, MoveByReattach(w, id, from, to, s), to, kept)
  {
    DetachMoves(site, w, id, from, to, s, kept);
    var detached := Detach(w, id, from, s);
    if detached.status.Fine? {
      AttachMoves(site, detached.w, id, to, detached.rest, kept);
      var attached := Attach(detached.w, id, to, detached.rest);
      if attached.status.Fine? {
        RecordKeeps(site, attached.w, id, to, attached.rest, kept);
      }
    }
  }

  /** A reassignment that took effect leaves nothing at the source to detach, so
      the fallback stops at once. */
  lemma NothingToDetach(site: Site, w: World, id: string, from: nat, to: nat, s: seq<Reply>, kept: bool)
    requires VolumesOk(site, w) && HarmlessId(w, id) && Data(w).owner == Some(to) && from != to && Allowed(kept, s)
    ensures var o := MoveByReattach(w, id, from, to, s);
            o.w == w && !o.status.Fine? && Allowed(kept, o.rest)
  {
    TakeAllowed(kept, s);
  }

  lemma MoveVolumeOutcome(site: Site, w: World, id: string, from: nat, to: nat, s: seq<Reply>, kept: bool)
    requires WellFormed(site, w) && Trusted(site, w, kept) && Allowed(kept, s)
    requires w.mem == w.disk && NamesData(w, id) && from != to && to < w.nextId && Mine(site, w, to)
    ensures MoveOutcome(site, w, MoveVolume(site, w, id, from, to, s), to, kept)
  {
    if !site.canReassign {
      ReattachOutcome(site, w, id, from, to, s, kept);
    } else {
      ReassignMoves(site, w, id, from, to, s, kept);
      var moved := Reassign(w, id, from, to, s);
      match moved.status
      case Dead =>
      case Failed =>
        if moved.w == w {
          ReattachOutcome(site, w, id, from, to, moved.rest, kept);
        } else {
          NothingToDetach(site, moved.w, id, from, to, moved.rest, kept);
        }
      case Fine =>
        OwnedIsData(site, moved.w, to);
        var newId := OwnedData(site, moved.w, to);
        RecordKeeps(site, moved.w, if newId.Some? then newId.value else id, to, moved.rest, kept);
    }
  }

  lemma MoveDiskOutcome(site: Site, w: World, fromName: string, toName: string, s: seq<Reply>, kept: bool)
    requires WellFormed(site, w) && Trusted(site, w, kept) && Allowed(kept, s) && w.mem == w.disk
    requires {fromName, toName} == {site.finalName, site.TransientName()}
    ensures var o := MoveDisk(site, w, fromName, toName, s);
            if FindGuest(w.guests, fromName).Some? && FindGuest(w.guests, toName).Some?
            then MoveOutcome(site, w, o, FindGuest(w.guests, toName).value, kept)
            else o == Out(w, s, Failed)
  {
    NamesDiffer(site, w);
    assert fromName in {fromName, toName} && toName in {fromName, toName};
    assert site.finalName in {fromName, toName} && site.TransientName() in {fromName, toName};
    var from, to := FindGuest(w.guests, fromName), FindGuest(w.guests, toName);
    if from.Some? && to.Some? {
      OwnedIsData(site, w, from.value);
      var owned := OwnedData(site, w, from.value);
      var id := if owned.Some? then owned else RecordedId(w.mem);
      if id.Some? { MoveVolumeOutcome(site, w, id.value, from.value, to.value, s, kept); }
    }
  }

  // ----- The phases -----

  /** A phase that starts Ready under its own journal entry ends Safe, and if it
      succeeds the world is Ready for the next one. */
  ghost predicate PhaseDone(site: Site, w: World, o: Out, p: Phase, kept: bool) {
    && Safe(site, o.w, kept) && Allowed(kept, o.rest)
    && (o.status.Fine? ==>
          && o.w.mem == o.w.disk && o.w.disk.journal == Some(p)
          && Journalled(site, o.w, o.w.disk.(journal := p.Next())))
  }

  lemma HandOverAgainSafe(site: Site, w: World, s: seq<Reply>, to: nat, kept: bool)
    requires Ready(site, w, kept) && w.disk.journal == Some(HandedOver) && Allowed(kept, s)
    requires Transient(site, w) == Some(to) && OwnedData(site, w, to).Some?
    ensures PhaseDone(site, w, RecordVolumeOwner(w, OwnedData(site, w, to).value, to, s), HandedOver, kept)
    ensures OnTransient(site, RecordVolumeOwner(w, OwnedData(site, w, to).value, to, s).w)
  {
    NamesDiffer(site, w);
    OwnedIsData(site, w, to);
    NamesDataIsHarmless(site, w, OwnedData(site, w, to).value);
    RecordKeeps(site, w, OwnedData(site, w, to).value, to, s, kept);
  }

  lemma MovedOverSafe(site: Site, w: World, o: Out, kept: bool)
    requires Ready(site, w, kept) && w.disk.journal == Some(HandedOver)
    requires Final(site, w).Some? && Transient(site, w).Some?
    requires MoveOutcome(site, w, o, Transient(site, w).value, kept)
    ensures PhaseDone(site, w, o, HandedOver, kept)
    ensures o.status.Fine? ==> OnTransient(site, o.w)
  {
    NamesDiffer(site, w);
  }

  lemma FirstHandOverSafe(site: Site, w: World, s: seq<Reply>, kept: bool)
    requires Ready(site, w, kept) && w.disk.journal == Some(HandedOver) && Allowed(kept, s)
    ensures PhaseDone(site, w, MoveDisk(site, w, site.finalName, site.TransientName(), s), HandedOver, kept)
    ensures var o := MoveDisk(site, w, site.finalName, site.TransientName(), s);
            o.status.Fine? ==> OnTransient(site, o.w)
  {
    MoveDiskOutcome(site, w, site.finalName, site.TransientName(), s, kept);
    var o := MoveDisk(site, w, site.finalName, site.TransientName(), s);
    if Final(site, w).Some? && Transient(site, w).Some? { MovedOverSafe(site, w, o, kept); }
  }

  /** The handover succeeds only with the data volume on the replacement. */
  lemma HandOverSafe(site: Site, w: World, s: seq<Reply>, kept: bool)
    requires Ready(site, w, kept) && w.disk.journal == Some(HandedOver) && Allowed(kept, s)
    ensures PhaseDone(site, w, HandOverDisk(site, w, s), HandedOver, kept)
    ensures HandOverDisk(site, w, s).status.Fine? ==> OnTransient(site, HandOverDisk(site, w, s).w)
  {
    var to := Transient(site, w);
    if to.Some? && OwnedData(site, w, to.value).Some? {
      HandOverAgainSafe(site, w, s, to.value, kept);
    } else {
      FirstHandOverSafe(site, w, s, kept);
    }
  }

  /** The engine only lets the original be deleted when the replacement is seen to
      hold the data volume, or the original is gone. */
  lemma RetireSafe(site: Site, o: Options, w: World, s: seq<Reply>, kept: bool)
    requires Ready(site, w, kept) && w.disk.journal == Some(Retired) && Allowed(kept, s)
    ensures PhaseDone(site, w, RunPhase(site, o, w, Retired, s), Retired, kept)
  {
    NamesDiffer(site, w);
    TakeAllowed(kept, s);
    var obs := Observe(site, w);
    if Transient(site, w).Some? { OwnedIsData(site, w, Transient(site, w).value); }
    if obs.original && obs.owner.OnReplacement? {
      DeleteView(site, w, Final(site, w).value, s);
    }
  }

  lemma StartSafe(site: Site, w: World, id: nat, s: seq<Reply>, kept: bool)
    requires Ready(site, w, kept) && w.disk.journal == Some(Adopted) && Allowed(kept, s)
    ensures PhaseDone(site, w, SetRunning(w, id, true, s), Adopted, kept)
  {
    TakeAllowed(kept, s);
    SetRunningView(site, w, id, true, s);
  }

  lemma AdoptedTailSafe(site: Site, w: World, id: nat, s: seq<Reply>, kept: bool)
    requires Ready(site, w, kept) && w.disk.journal == Some(Adopted) && Allowed(kept, s)
    ensures var noted := w.(mem := w.mem.(instance := Some(id)));
            var saved := Save(noted, s);
            PhaseDone(site, w, if !saved.status.Fine? || IsRunning(saved.w.guests, id) then saved
                               else SetRunning(saved.w, id, true, saved.rest), Adopted, kept)
  {
    var noted := w.(mem := w.mem.(instance := Some(id)));
    SaveSafe(site, w, noted.mem, s, kept);
    var saved := Save(noted, s);
    if saved.status.Fine? { StartSafe(site, saved.w, id, saved.rest, kept); }
  }

  lemma AdoptSafe(site: Site, w: World, s: seq<Reply>, kept: bool)
    requires Ready(site, w, kept) && w.disk.journal == Some(Adopted) && Allowed(kept, s)
    ensures PhaseDone(site, w, AdoptReplacement(site, w, s), Adopted, kept)
  {
    var found := Transient(site, w);
    if found.Some? {
      if site.canRename {
        TakeAllowed(kept, s);
        RenameView(site, w, found.value, s);
        var renamed := Rename(w, found.value, site.finalName, s);
        if renamed.status.Fine? { AdoptedTailSafe(site, renamed.w, found.value, renamed.rest, kept); }
      } else {
        AdoptedTailSafe(site, w, found.value, s, kept);
      }
    }
  }

  lemma BuildSafe(site: Site, w: World, s: seq<Reply>, kept: bool)
    requires Ready(site, w, kept) && w.disk.journal == Some(Built) && Allowed(kept, s)
    ensures PhaseDone(site, w, BuildReplacement(site, w, s), Built, kept)
  {
    TakeAllowed(kept, s);
    if Transient(site, w).None? { CreateView(site, w, s); }
  }

  lemma CopiesSafe(site: Site, o: Options, w: World, s: seq<Reply>, kept: bool)
    requires Ready(site, w, kept) && w.disk.journal == Some(Secured) && Allowed(kept, s)
    ensures PhaseDone(site, w, RunPhase(site, o, w, Secured, s), Secured, kept)
  {
    SnapshotSafe(site, o, w, s, kept);
    var copied := Snapshot(site, o, w, s);
    if copied.status.Fine? && o.archive { ArchiveSafe(site, copied.w, copied.rest, kept); }
  }

  lemma SnapshotSafe(site: Site, o: Options, w: World, s: seq<Reply>, kept: bool)
    requires Ready(site, w, kept) && w.disk.journal == Some(Secured) && Allowed(kept, s)
    ensures PhaseDone(site, w, Snapshot(site, o, w, s), Secured, kept)
  {
    if o.storage { ArchiveSafe(site, w, s, kept); }
  }

  lemma ArchiveSafe(site: Site, w: World, s: seq<Reply>, kept: bool)
    requires Ready(site, w, kept) && w.disk.journal == Some(Secured) && Allowed(kept, s)
    ensures PhaseDone(site, w, ArchiveOriginal(site, w, s), Secured, kept)
  {
    TakeAllowed(kept, s);
    CopyView(site, w, s);
  }

  lemma RunPhaseSafe(site: Site, o: Options, w: World, p: Phase, s: seq<Reply>, kept: bool)
    requires Ready(site, w, kept) && w.disk.journal == Some(p) && Allowed(kept, s)
    ensures PhaseDone(site, w, RunPhase(site, o, w, p, s), p, kept)
  {
    TakeAllowed(kept, s);
    match p
    case Quiesced =>
      if Final(site, w).Some? { SetRunningView(site, w, Final(site, w).value, false, s); }
    case Built => BuildSafe(site, w, s, kept);
    case HandedOver => HandOverSafe(site, w, s, kept);
    case Retired => RetireSafe(site, o, w, s, kept);
    case Adopted => AdoptSafe(site, w, s, kept);
    case Secured => CopiesSafe(site, o, w, s, kept);
    case _ =>
  }

  /** Saving a journal entry that is true of the world. */
  lemma SaveSafe(site: Site, w: World, mem: StateFile, s: seq<Reply>, kept: bool)
    requires Ready(site, w, kept) && Allowed(kept, s)
    requires mem.volume == w.mem.volume && Journalled(site, w, mem)
    ensures var o := Save(w.(mem := mem), s);
            && Safe(site, o.w, kept) && Allowed(kept, o.rest) && Data(o.w) == Data(w)
            && (o.status.Fine? ==> o.w.mem == o.w.disk == mem)
  {
    TakeAllowed(kept, s);
    MemView(site, w, mem);
    SaveView(site, w.(mem := mem), s);
  }

  lemma {:induction false} PhasesSafe(site: Site, o: Options, w: World, p: Phase, s: seq<Reply>, kept: bool)
    requires Ready(site, w, kept) && Allowed(kept, s)
    requires Journalled(site, w, w.disk.(journal := Some(p)))
    ensures Safe(site, PhasesFrom(site, o, w, p, s).w, kept)
    decreases p.Left()
  {
    if !(o.stopBeforeRetire && p.Retired?) {
      SaveSafe(site, w, w.mem.(journal := Some(p)), s, kept);
      var saved := SaveJournal(w, p, s);
      if saved.status.Fine? {
        RunPhaseSafe(site, o, saved.w, p, saved.rest, kept);
        var done := RunPhase(site, o, saved.w, p, saved.rest);
        if done.status.Fine? {
          if p.Next().None? {
            SaveSafe(site, done.w, done.w.mem.(journal := None), done.rest, kept);
          } else {
            PhasesSafe(site, o, done.w, p.Next().value, done.rest, kept);
          }
        }
      }
    }
  }

  lemma ReloadReady(site: Site, w: World, kept: bool)
    requires Safe(site, w, kept)
    ensures Ready(site, w.(mem := w.disk), kept)
  {
    var next := w.(mem := w.disk);
    forall v | v in next.volumes && !v.precious ensures Ordinary(site, v, next) {
      assert Ordinary(site, v, w);
    }
  }

  /** A run starts at the journalled phase or, with no journal, at one the cluster
      implies; either way its entry is true of the world. */
  lemma StartIsTrue(site: Site, w: World, kept: bool)
    requires Ready(site, w, kept) && StartPhase(site, w).Some?
    ensures Journalled(site, w, w.disk.(journal := StartPhase(site, w)))
  {
    NamesDiffer(site, w);
    if Transient(site, w).Some? { OwnedIsData(site, w, Transient(site, w).value); }
  }

  lemma RunSafe(site: Site, o: Options, w: World, s: seq<Reply>, kept: bool)
    requires Safe(site, w, kept) && Allowed(kept, s)
    ensures Safe(site, Run(site, o, w, s).w, kept)
  {
    var loaded := w.(mem := w.disk);
    ReloadReady(site, w, kept);
    if StartPhase(site, loaded).Some? {
      StartIsTrue(site, loaded, kept);
      PhasesSafe(site, o, loaded, StartPhase(site, loaded).value, s, kept);
    }
  }

  // ----- Aborting -----

  /** Before the compensation of `p` the data volume must not be on the guest that
      a compensation still to come deletes. */
  ghost predicate CanUndo(site: Site, w: World, p: Phase)
    requires DataKept(w)
  {
    if p.Index() < HandedOver.Index() then !OnTransient(site, w) else p.HandedOver?
  }

  /** How a compensation leaves the world. */
  ghost predicate Undone(site: Site, w: World, o: Out, kept: bool) {
    && Safe(site, o.w, kept) && Allowed(kept, o.rest)
    && (o.status.Fine? ==> o.w.mem == o.w.disk && !OnTransient(site, o.w))
  }

  lemma ReturnSafe(site: Site, w: World, s: seq<Reply>, kept: bool)
    requires Ready(site, w, kept) && Allowed(kept, s) && CanUndo(site, w, HandedOver)
    requires w.disk.journal == None || w.disk.journal == Some(HandedOver)
    ensures Undone(site, w, ReturnDisk(site, w, s), kept)
  {
    NamesDiffer(site, w);
    MoveDiskOutcome(site, w, site.TransientName(), site.finalName, s, kept);
  }

  lemma CompensateSafe(site: Site, w: World, p: Phase, s: seq<Reply>, kept: bool)
    requires Ready(site, w, kept) && Allowed(kept, s) && CanUndo(site, w, p)
    requires w.disk.journal == None || w.disk.journal.value.CanAbort()
    requires p.HandedOver? ==> w.disk.journal == None || w.disk.journal == Some(HandedOver)
    ensures Undone(site, w, Compensate(site, w, p, s), kept)
    ensures Compensate(site, w, p, s).status.Fine? ==> Compensate(site, w, p, s).w.disk.journal == w.disk.journal
  {
    NamesDiffer(site, w);
    TakeAllowed(kept, s);
    match p
    case Quiesced =>
      if Final(site, w).Some? { SetRunningView(site, w, Final(site, w).value, true, s); }
    case Built =>
      if Transient(site, w).Some? { DeleteView(site, w, Transient(site, w).value, s); }
    case HandedOver => ReturnSafe(site, w, s, kept); ReturnKeepsJournal(site, w, s, kept);
    case _ =>
  }

  lemma ReturnKeepsJournal(site: Site, w: World, s: seq<Reply>, kept: bool)
    requires Ready(site, w, kept) && Allowed(kept, s)
    ensures ReturnDisk(site, w, s).status.Fine? ==> ReturnDisk(site, w, s).w.disk.journal == w.disk.journal
  {
    MoveDiskOutcome(site, w, site.TransientName(), site.finalName, s, kept);
  }

  lemma {:induction false} CompensationsSafe(site: Site, w: World, p: Phase, s: seq<Reply>, kept: bool)
    requires Ready(site, w, kept) && Allowed(kept, s) && CanUndo(site, w, p)
    requires w.disk.journal == None || w.disk.journal.value.CanAbort()
    requires p.HandedOver? ==> w.disk.journal == None || w.disk.journal == Some(HandedOver)
    ensures Undone(site, w, CompensateAll(site, w, AbortPlan(p), s), kept)
    decreases p.Index()
  {
    PlanSteps(p);
    CompensateSafe(site, w, p, s, kept);
    var undone := Compensate(site, w, p, s);
    if undone.status.Fine? && p.Previous().Some? {
      CompensationsSafe(site, undone.w, p.Previous().value, undone.rest, kept);
    }
  }

  /** Where an unjournalled abort concludes the run had got to. */
  lemma ReachedCanUndo(site: Site, w: World, kept: bool)
    requires Ready(site, w, kept)
    ensures var reached := if w.mem.journal.Some? then w.mem.journal else Reconstructed(Observe(site, w));
            reached.Some? && reached.value.CanAbort() ==>
              CanUndo(site, w, reached.value) && (w.disk.journal.Some? ==> w.disk.journal == reached)
  {
    NamesDiffer(site, w);
    if Transient(site, w).Some? { OwnedIsData(site, w, Transient(site, w).value); }
  }

  lemma AbortSafe(site: Site, w: World, s: seq<Reply>, kept: bool)
    requires Safe(site, w, kept) && Allowed(kept, s)
    ensures Safe(site, Abort(site, w, s).w, kept)
  {
    var loaded := w.(mem := w.disk);
    ReloadReady(site, w, kept);
    ReachedCanUndo(site, loaded, kept);
    var reached := if loaded.mem.journal.Some? then loaded.mem.journal else Reconstructed(Observe(site, loaded));
    if reached.Some? && reached.value.CanAbort() {
      CompensationsSafe(site, loaded, reached.value, s, kept);
      var undone := CompensateAll(site, loaded, AbortPlan(reached.value), s);
      if undone.status.Fine? && undone.w.mem.journal.Some? {
        SaveSafe(site, undone.w, undone.w.mem.(journal := None), undone.rest, kept);
      }
    }
  }

  // ----- Sessions -----

  lemma InvokeSafe(site: Site, w: World, c: Command, kept: bool)
    requires Safe(site, w, kept) && Allowed(kept, c.script)
    ensures Safe(site, Invoke(site, w, c).w, kept)
  {
    match c {
      case RunCommand(o, s) => RunSafe(site, o, w, s, kept);
      case AbortCommand(s) => AbortSafe(site, w, s, kept);
    }
  }

  /** Over every session of runs and aborts, with any outcome of any call and a
      death anywhere: if the state file is never lost, or the provider finds
      volumes by serial and never drops the serial, the data volume survives. */
  lemma {:induction false} TheDataDiskSurvives(site: Site, w: World, commands: seq<Command>, kept: bool)
    requires Safe(site, w, kept) && forall c | c in commands :: Allowed(kept, c.script)
    ensures Safe(site, Session(site, w, commands), kept) && DataKept(Session(site, w, commands))
    decreases |commands|
  {
    if commands != [] {
      InvokeSafe(site, w, commands[0], kept);
      TheDataDiskSurvives(site, Invoke(site, w, commands[0]).w, commands[1..], kept);
    }
  }
}
