/** Exactly when a handover finishes, what it records, and when re-running it after
    crashes gets there (internal/bootstrap/recycle_cluster.go, HandOverDisk and
    moveDisk; internal/cpi/pve/storage.go, ReassignVolume). */
module RecycleHandOver {
  import opened Prelude
  import opened Recycle
  import opened RecycleWorld
  import opened RecycleSafety

  /** Both guests are there, the bloc has a volume record, whatever it says, and the
      provider reassigns.  The data volume may be anywhere, serial or not. */
  ghost predicate Handing(site: Site, w: World) {
    && WellFormed(site, w) && w.mem == w.disk && w.disk.volume.Some? && site.canReassign
    && Final(site, w).Some? && Transient(site, w).Some?
  }

  /** One of the two guests holds the data volume, and can be seen to. */
  ghost predicate Seen(site: Site, w: World)
    requires DataKept(w)
  {
    (OnFinal(site, w) || OnTransient(site, w)) && Recognised(site, Data(w), w.mem)
  }

  /** No reply loses the state file or the serial. */
  predicate Clean(s: seq<Reply>) {
    forall r | r in s :: !r.lost && !r.bare
  }

  predicate Cooperative(s: seq<Reply>, calls: nat) {
    calls <= |s| && forall i | 0 <= i < calls :: s[i].answer.Ok?
  }

  /** The data volume as a reassignment that takes effect leaves it. */
  ghost function Handed(w: World, to: nat, r: Reply): Volume
    requires DataKept(w)
  {
    var v := Data(w);
    var newId := NewVolumeId(w.volumes, v.id, r.id);
    v.(id := newId, name := if newId == v.id then v.name else newId, owner := Some(to),
       serial := v.serial && (r.answer.Ok? || !r.bare))
  }

  lemma ReassignHands(site: Site, w: World, from: nat, to: nat, s: seq<Reply>)
    requires WellFormed(site, w) && Data(w).owner == Some(from) && to < w.nextId
    ensures var o := Reassign(w, Data(w).id, from, to, s);
            && o.status == StatusOf(Take(s).answer) && o.rest == Rest(s)
            && (if Take(s).Applied()
                then SameNames(site, w, o.w) && o.w.disk == w.disk && o.w.guests == w.guests && o.w.nextId == w.nextId
                     && Data(o.w) == Handed(w, to, Take(s))
                else o.w == w)
            && HarmlessId(o.w, Data(w).id)
  {
    RecordedIsData(site, w, Data(w).id);
    NamesDataIsHarmless(site, w, Data(w).id);
    if Take(s).Applied() { ReplaceView(site, w, Handed(w, to, Take(s))); }
  }

  /** Nothing but the data volume itself can be moved, and only from its holder. */
  lemma NothingMoves(site: Site, w: World, id: string, from: nat, to: nat, s: seq<Reply>)
    requires WellFormed(site, w) && NamesData(w, id) && (Data(w).id != id || Data(w).owner != Some(from))
    ensures MoveVolume(site, w, id, from, to, s).w == w && !MoveVolume(site, w, id, from, to, s).status.Fine?
  {
    RecordedIsData(site, w, id);
  }

  lemma BothMine(site: Site, w: World)
    requires WellFormed(site, w) && Final(site, w).Some? && Transient(site, w).Some?
    ensures Mine(site, w, Final(site, w).value) && Mine(site, w, Transient(site, w).value)
    ensures Final(site, w) != Transient(site, w)
    ensures Final(site, w).value < w.nextId && Transient(site, w).value < w.nextId
  {
    NamesDiffer(site, w);
  }

  /** A move between the two guests goes ahead with the data volume if its source
      can be seen to hold it, and does nothing otherwise. */
  lemma MoveRoute(site: Site, w: World, fromName: string, toName: string, s: seq<Reply>)
    requires WellFormed(site, w) && Final(site, w).Some? && Transient(site, w).Some?
    requires {fromName, toName} == {site.finalName, site.TransientName()}
    ensures var from, to := FindGuest(w.guests, fromName).value, FindGuest(w.guests, toName).value;
            if Data(w).owner == Some(from) && Recognised(site, Data(w), w.mem)
            then MoveDisk(site, w, fromName, toName, s) == MoveVolume(site, w, Data(w).id, from, to, s)
            else MoveDisk(site, w, fromName, toName, s).w == w && !MoveDisk(site, w, fromName, toName, s).status.Fine?
  {
    BothMine(site, w);
    assert fromName in {fromName, toName} && toName in {fromName, toName};
    var from, to := FindGuest(w.guests, fromName).value, FindGuest(w.guests, toName).value;
    OwnedIsData(site, w, from);
    if !(Data(w).owner == Some(from) && Recognised(site, Data(w), w.mem)) && RecordedId(w.mem).Some? {
      NothingMoves(site, w, RecordedId(w.mem).value, from, to, s);
    }
  }

  /** Which way a handover goes. */
  lemma HandOverRoute(site: Site, w: World, s: seq<Reply>)
    requires Handing(site, w)
    ensures var from, to := Final(site, w).value, Transient(site, w).value;
            if !Seen(site, w) then HandOverDisk(site, w, s).w == w && !HandOverDisk(site, w, s).status.Fine?
            else if OnTransient(site, w) then HandOverDisk(site, w, s) == RecordVolumeOwner(w, Data(w).id, to, s)
            else HandOverDisk(site, w, s) == MoveVolume(site, w, Data(w).id, from, to, s)
  {
    BothMine(site, w);
    OwnedIsData(site, w, Transient(site, w).value);
    MoveRoute(site, w, site.finalName, site.TransientName(), s);
  }

  /** What a move or a record has left: the volume on `to`, memory and file agreeing,
      the journal as it was. */
  ghost predicate MovedTo(site: Site, w: World, o: Out, to: nat) {
    && WellFormed(site, w) && WellFormed(site, o.w) && o.status.Fine?
    && Final(site, o.w) == Final(site, w) && Transient(site, o.w) == Transient(site, w)
    && Data(o.w).owner == Some(to) && o.w.mem == o.w.disk && o.w.disk.journal == w.mem.journal
    && o.w.disk.volume.Some? && o.w.disk.volume.value.vm == to && o.w.guests == w.guests
  }

  /** The file names the data volume by its present id. */
  ghost predicate NamedRight(w: World)
    requires DataKept(w)
  {
    w.disk.volume.Some? && w.disk.volume.value.id == Data(w).id
  }

  lemma RecordCompletes(site: Site, w: World, id: string, to: nat, s: seq<Reply>)
    requires WellFormed(site, w) && w.mem.volume.Some? && Data(w).owner == Some(to) && Clean(s) && Cooperative(s, 1)
    requires HarmlessId(w, id) && id != ""
    ensures var o := RecordVolumeOwner(w, id, to, s);
            && MovedTo(site, w, o, to) && o.rest == s[1..] && Data(o.w) == Data(w)
            && o.w.disk.volume == Some(VolumeRecord(id, to))
  {
    assert Allowed(true, s);
    RecordKeeps(site, w, id, to, s, true);
  }

  /** The id that is recorded after a reassignment: the one read back, or failing
      that the old one. */
  function ReadBack(site: Site, moved: World, to: nat, id: string): string {
    var newId := OwnedData(site, moved, to);
    if newId.Some? then newId.value else id
  }

  lemma ReadBackIs(site: Site, w: World, moved: World, to: nat)
    requires WellFormed(site, w) && WellFormed(site, moved) && Mine(site, moved, to) && moved.mem == w.mem
    requires Data(moved).owner == Some(to) && HarmlessId(moved, Data(w).id)
    ensures var id := ReadBack(site, moved, to, Data(w).id);
            && id == (if Recognised(site, Data(moved), w.mem) then Data(moved).id else Data(w).id)
            && HarmlessId(moved, id) && id != ""
  {
    OwnedIsData(site, moved, to);
    NamesDataIsHarmless(site, moved, Data(moved).id);
  }

  /** The reassignment goes through, and what is left is to record an id. */
  lemma ReassignReaches(site: Site, w: World, from: nat, to: nat, s: seq<Reply>) returns (moved: World, id: string)
    requires WellFormed(site, w) && site.canReassign && Data(w).owner == Some(from) && to < w.nextId && Mine(site, w, to)
    requires Cooperative(s, 1)
    ensures MoveVolume(site, w, Data(w).id, from, to, s) == RecordVolumeOwner(moved, id, to, s[1..])
    ensures SameNames(site, w, moved) && moved.guests == w.guests && Data(moved) == Handed(w, to, s[0])
    ensures HarmlessId(moved, id) && id != ""
    ensures id == if Recognised(site, Data(moved), w.mem) then Data(moved).id else Data(w).id
  {
    ReassignHands(site, w, from, to, s);
    moved := Reassign(w, Data(w).id, from, to, s).w;
    ReadBackIs(site, w, moved, to);
    id := ReadBack(site, moved, to, Data(w).id);
  }

  /** Moving completes; the volume's new id is read back, and so recorded, exactly
      when the volume can be recognised under it. */
  lemma MoveCompletes(site: Site, w: World, from: nat, to: nat, s: seq<Reply>)
    requires WellFormed(site, w) && w.mem.volume.Some? && site.canReassign
    requires Data(w).owner == Some(from) && to < w.nextId && Mine(site, w, to)
    requires Recognised(site, Data(w), w.mem) && Clean(s) && Cooperative(s, 2)
    ensures var o := MoveVolume(site, w, Data(w).id, from, to, s);
            && MovedTo(site, w, o, to) && o.rest == s[2..]
            && (NamedRight(o.w) <==> Recognised(site, Handed(w, to, s[0]), w.mem))
  {
    var moved, id := ReassignReaches(site, w, from, to, s);
    RecordFollows(site, w, moved, id, to, s[1..]);
    if Handed(w, to, s[0]).id == Data(w).id { KeptNameIsRecognised(site, w, to, s[0]); }
  }

  lemma RecordFollows(site: Site, w: World, moved: World, id: string, to: nat, s: seq<Reply>)
    requires WellFormed(site, w) && SameNames(site, w, moved) && moved.guests == w.guests
    requires w.mem.volume.Some? && Data(moved).owner == Some(to) && HarmlessId(moved, id) && id != ""
    requires Clean(s) && Cooperative(s, 1)
    ensures var o := RecordVolumeOwner(moved, id, to, s);
            MovedTo(site, w, o, to) && o.rest == s[1..] && (NamedRight(o.w) <==> id == Data(moved).id)
  {
    RecordCompletes(site, moved, id, to, s);
  }

  /** A volume that kept its id is as recognisable as before. */
  lemma KeptNameIsRecognised(site: Site, w: World, to: nat, r: Reply)
    requires WellFormed(site, w) && Recognised(site, Data(w), w.mem) && Handed(w, to, r).id == Data(w).id
    requires r.answer.Ok? || !r.bare
    ensures Recognised(site, Handed(w, to, r), w.mem)
  {
  }

  /** With the provider cooperating, a handover returns nil exactly when one of the
      two guests can be seen to hold the data volume.  Then the replacement holds it,
      and the file names it by its new id exactly when it can be recognised under
      that. */
  lemma HandOverFinishesExactlyWhen(site: Site, w: World, s: seq<Reply>)
    requires Handing(site, w) && Clean(s) && Cooperative(s, 2)
    ensures var o := HandOverDisk(site, w, s);
            && (o.status.Fine? <==> Seen(site, w))
            && (o.status.Fine? ==> MovedTo(site, w, o, Transient(site, w).value))
            && (o.status.Fine? ==>
                  (NamedRight(o.w) <==> OnTransient(site, w)
                                        || Recognised(site, Handed(w, Transient(site, w).value, s[0]), w.mem)))
  {
    BothMine(site, w);
    HandOverRoute(site, w, s);
    if Seen(site, w) {
      var from, to := Final(site, w).value, Transient(site, w).value;
      NamesDataIsHarmless(site, w, Data(w).id);
      if OnTransient(site, w) {
        RecordCompletes(site, w, Data(w).id, to, s);
      } else {
        MoveCompletes(site, w, from, to, s);
      }
    }
  }

  /** A volume on the replacement that cannot be recognised there, as after a rename
      that was not read back, keeps the original from being retired. */
  lemma UnseenIsNotRetired(site: Site, o: Options, w: World, s: seq<Reply>)
    requires WellFormed(site, w) && Final(site, w).Some? && OnTransient(site, w) && !Recognised(site, Data(w), w.mem)
    ensures RunPhase(site, o, w, Retired, s) == Out(w, s, Failed)
  {
    BothMine(site, w);
    OwnedIsData(site, w, Transient(site, w).value);
    OwnedIsData(site, w, Final(site, w).value);
  }

  // ----- Re-running it -----

  /** One process that runs the handover and ends, however it ends. */
  function Attempt(site: Site, w: World, s: seq<Reply>): World {
    var o := HandOverDisk(site, w, s);
    o.w.(mem := o.w.disk)
  }

  function Attempts(site: Site, w: World, scripts: seq<seq<Reply>>): World
    decreases |scripts|
  {
    if scripts == [] then w else Attempts(site, Attempt(site, w, scripts[0]), scripts[1..])
  }

  lemma ReloadWellFormed(site: Site, w: World)
    requires WellFormed(site, w)
    ensures WellFormed(site, w.(mem := w.disk)) && Data(w.(mem := w.disk)) == Data(w)
  {
    var next := w.(mem := w.disk);
    forall v | v in next.volumes && !v.precious ensures Ordinary(site, v, next) {
      assert Ordinary(site, v, w);
    }
  }

  lemma AttemptKeepsHanding(site: Site, w: World, s: seq<Reply>)
    requires Handing(site, w) && Allowed(true, s)
    ensures Handing(site, Attempt(site, w, s))
  {
    BothMine(site, w);
    var to := Transient(site, w).value;
    var o := HandOverDisk(site, w, s);
    OwnedIsData(site, w, to);
    if OwnedData(site, w, to).Some? {
      NamesDataIsHarmless(site, w, Data(w).id);
      RecordKeeps(site, w, Data(w).id, to, s, true);
    } else {
      MoveDiskOutcome(site, w, site.finalName, site.TransientName(), s, true);
    }
    ReloadWellFormed(site, o.w);
  }

  /** Whatever happened in any number of earlier handovers, refusals and lost serials
      included, the next one that is let through returns nil exactly when they have
      left the data volume where it can be seen. */
  lemma {:induction false} ReRunFinishesExactlyWhen(site: Site, w: World, scripts: seq<seq<Reply>>, s: seq<Reply>)
    requires Handing(site, w) && (forall t | t in scripts :: Allowed(true, t)) && Clean(s) && Cooperative(s, 2)
    ensures var end := Attempts(site, w, scripts);
            && Handing(site, end) && (HandOverDisk(site, end, s).status.Fine? <==> Seen(site, end))
    decreases |scripts|
  {
    if scripts == [] {
      HandOverFinishesExactlyWhen(site, w, s);
    } else {
      AttemptKeepsHanding(site, w, scripts[0]);
      ReRunFinishesExactlyWhen(site, Attempt(site, w, scripts[0]), scripts[1..], s);
    }
  }

  /** Nothing is refused: each call works or the process dies. */
  predicate OnlyDies(s: seq<Reply>) {
    forall r | r in s :: !r.answer.Error?
  }

  predicate Deaths(scripts: seq<seq<Reply>>) {
    forall t | t in scripts :: Allowed(true, t) && OnlyDies(t)
  }

  /** The first handover whose reassignment takes effect leaves the volume under a
      name and a serial it cannot be recognised by. */
  ghost predicate Strands(site: Site, w: World, scripts: seq<seq<Reply>>)
    requires DataKept(w) && Transient(site, w).Some?
    decreases |scripts|
  {
    scripts != []
    && if Take(scripts[0]).Applied()
       then !Recognised(site, Handed(w, Transient(site, w).value, Take(scripts[0])), w.mem)
       else Strands(site, w, scripts[1..])
  }

  /** One handover in which nothing is refused, from the original: it did nothing, or
      the volume is on the replacement, as recognisable as the reassignment left it. */
  lemma AttemptFromFinal(site: Site, w: World, s: seq<Reply>)
    requires Handing(site, w) && OnFinal(site, w) && Recognised(site, Data(w), w.mem) && Allowed(true, s) && OnlyDies(s)
    ensures var next := Attempt(site, w, s);
            if Take(s).Applied()
            then WellFormed(site, next) && OnTransient(site, next)
                 && (Recognised(site, Data(next), next.mem) <==>
                       Recognised(site, Handed(w, Transient(site, w).value, Take(s)), w.mem))
            else next == w
  {
    BothMine(site, w);
    HandOverRoute(site, w, s);
    assert s != [] ==> s[0] in s;
    MoveAttempt(site, w, Final(site, w).value, Transient(site, w).value, s);
  }

  lemma MoveAttempt(site: Site, w: World, from: nat, to: nat, s: seq<Reply>)
    requires WellFormed(site, w) && w.mem == w.disk && w.disk.volume.Some? && site.canReassign
    requires Data(w).owner == Some(from) && to < w.nextId && Mine(site, w, to)
    requires Recognised(site, Data(w), w.mem) && Allowed(true, s) && !Take(s).answer.Error?
    ensures var o := MoveVolume(site, w, Data(w).id, from, to, s);
            var next := o.w.(mem := o.w.disk);
            if Take(s).Applied()
            then WellFormed(site, next) && Data(next).owner == Some(to) && Transient(site, next) == Transient(site, w)
                 && (Recognised(site, Data(next), next.mem) <==> Recognised(site, Handed(w, to, Take(s)), w.mem))
            else next == w
  {
    ReassignHands(site, w, from, to, s);
    TakeAllowed(true, s);
    var moved := Reassign(w, Data(w).id, from, to, s);
    if moved.status.Fine? {
      ReadBackIs(site, w, moved.w, to);
      KeptUnlessRenamed(site, w, to, Take(s));
      RecordAfterMove(site, w, moved.w, ReadBack(site, moved.w, to, Data(w).id), to, moved.rest);
    } else {
      assert moved.w.(mem := moved.w.disk) == moved.w;
    }
  }

  lemma KeptUnlessRenamed(site: Site, w: World, to: nat, r: Reply)
    requires WellFormed(site, w) && Recognised(site, Data(w), w.mem) && (r.answer.Ok? || !r.bare)
    ensures !Recognised(site, Handed(w, to, r), w.mem) ==>
              Handed(w, to, r).id != Data(w).id && Handed(w, to, r).name != Data(w).id
              && !(site.serialLookup && Handed(w, to, r).serial)
  {
    RecordedIsData(site, w, Data(w).id);
  }

  /** Recording `id`, whatever becomes of the save: the volume is as recognisable
      afterwards as it was by the old record. */
  lemma RecordAfterMove(site: Site, w: World, moved: World, id: string, to: nat, s: seq<Reply>)
    requires WellFormed(site, w) && WellFormed(site, moved) && Allowed(true, s)
    requires w.disk == moved.mem == moved.disk && w.disk.volume.Some? && Data(moved).owner == Some(to)
    requires HarmlessId(moved, id) && id != ""
    requires Recognised(site, Data(moved), w.disk) ==> id == Data(moved).id
    requires !Recognised(site, Data(moved), w.disk) ==>
               id != Data(moved).id && id != Data(moved).name && !(site.serialLookup && Data(moved).serial)
    ensures var o := RecordVolumeOwner(moved, id, to, s);
            var next := o.w.(mem := o.w.disk);
            && WellFormed(site, next) && Data(next) == Data(moved) && Transient(site, next) == Transient(site, moved)
            && (Recognised(site, Data(next), next.mem) <==> Recognised(site, Data(moved), w.disk))
  {
    RecordKeeps(site, moved, id, to, s, true);
    ReloadWellFormed(site, RecordVolumeOwner(moved, id, to, s).w);
  }

  /** From the replacement a handover only records, and the volume stays as
      recognisable as it was. */
  lemma AttemptFromTransient(site: Site, w: World, s: seq<Reply>)
    requires Handing(site, w) && OnTransient(site, w) && Allowed(true, s)
    ensures var next := Attempt(site, w, s);
            && Handing(site, next) && OnTransient(site, next)
            && (Recognised(site, Data(next), next.mem) <==> Recognised(site, Data(w), w.mem))
  {
    AttemptKeepsHanding(site, w, s);
    BothMine(site, w);
    HandOverRoute(site, w, s);
    if Recognised(site, Data(w), w.mem) {
      NamesDataIsHarmless(site, w, Data(w).id);
      RecordKeeps(site, w, Data(w).id, Transient(site, w).value, s, true);
      ReloadWellFormed(site, RecordVolumeOwner(w, Data(w).id, Transient(site, w).value, s).w);
    }
  }

  lemma {:induction false} AttemptsFromTransient(site: Site, w: World, scripts: seq<seq<Reply>>)
    requires Handing(site, w) && OnTransient(site, w) && forall t | t in scripts :: Allowed(true, t)
    ensures var end := Attempts(site, w, scripts);
            && Handing(site, end) && OnTransient(site, end)
            && (Recognised(site, Data(end), end.mem) <==> Recognised(site, Data(w), w.mem))
    decreases |scripts|
  {
    if scripts != [] {
      AttemptFromTransient(site, w, scripts[0]);
      AttemptsFromTransient(site, Attempt(site, w, scripts[0]), scripts[1..]);
    }
  }

  /** Any number of handovers that die anywhere, between the move and the serial or
      the record included, and then one that is let through: it returns nil, with the
      replacement holding the data volume, exactly when the first reassignment that
      took effect did not strand it. */
  lemma {:induction false} ReRunConvergesExactlyWhen(site: Site, w: World, scripts: seq<seq<Reply>>, s: seq<Reply>)
    requires Handing(site, w) && OnFinal(site, w) && Recognised(site, Data(w), w.mem)
    requires Deaths(scripts) && Clean(s) && Cooperative(s, 2)
    ensures var end := Attempts(site, w, scripts);
            var o := HandOverDisk(site, end, s);
            && (o.status.Fine? <==> !Strands(site, w, scripts))
            && (o.status.Fine? ==> WellFormed(site, o.w) && OnTransient(site, o.w))
            && (o.status.Fine? && site.serialLookup && Data(w).serial ==> NamedRight(o.w))
    decreases |scripts|
  {
    if scripts == [] {
      HandOverFinishesExactlyWhen(site, w, s);
    } else {
      AttemptKeepsHanding(site, w, scripts[0]);
      AttemptFromFinal(site, w, scripts[0]);
      var next := Attempt(site, w, scripts[0]);
      if Take(scripts[0]).Applied() {
        AttemptsFromTransient(site, next, scripts[1..]);
        HandOverFinishesExactlyWhen(site, Attempts(site, next, scripts[1..]), s);
      } else {
        ReRunConvergesExactlyWhen(site, w, scripts[1..], s);
      }
    }
  }
}
