/** The recycle as it runs: an engine whose methods change the world step by step
    (internal/recycle/engine.go, internal/bootstrap/recycle_cluster.go), each
    proved to do what its specification function in `Recycle` says. */
module RecycleEngine {
  import opened Prelude
  import opened Recycle
  import opened RecycleWorld
  import opened RecycleSafety

  class Engine {
    const site: Site
    const options: Options
    var world: World
    var script: seq<Reply>

    /** A process starts by loading the state file. */
    constructor (site: Site, options: Options, w: World, s: seq<Reply>)
      ensures this.site == site && this.options == options
      ensures world == w.(mem := w.disk) && script == s
    {
      this.site, this.options := site, options;
      world, script := w.(mem := w.disk), s;
    }

    function Now(status: Status): Out
      reads this
    {
      Out(world, script, status)
    }

    /** The outside world answers one call. */
    method Apply(o: Out) returns (status: Status)
      modifies this
      ensures Now(status) == o
    {
      world, script, status := o.w, o.rest, o.status;
    }

    method RecordVolumeOwner(id: string, guest: nat) returns (status: Status)
      modifies this
      ensures Now(status) == old(Recycle.RecordVolumeOwner(world, id, guest, script))
    {
      if world.mem.volume.None? { return Fine; }
      world := world.(mem := world.mem.(volume := Some(VolumeRecord(id, guest))));
      if id == "" { return Failed; }
      status := Apply(Save(world, script));
    }

    method MoveDisk(fromName: string, toName: string) returns (status: Status)
      modifies this
      ensures Now(status) == old(Recycle.MoveDisk(site, world, fromName, toName, script))
    {
      var from, to := FindGuest(world.guests, fromName), FindGuest(world.guests, toName);
      if from.None? || to.None? { return Failed; }
      var id := OwnedData(site, world, from.value);
      if id.None? {
        id := RecordedId(world.mem);
        if id.None? { return Failed; }
      }
      if site.canReassign {
        status := Apply(Reassign(world, id.value, from.value, to.value, script));
        if status == Dead { return; }
        if status == Fine {
          var newId := OwnedData(site, world, to.value);
          status := RecordVolumeOwner(if newId.Some? then newId.value else id.value, to.value);
          return;
        }
      }
      status := Apply(Detach(world, id.value, from.value, script));
      if status != Fine { return; }
      status := Apply(Attach(world, id.value, to.value, script));
      if status != Fine { return; }
      status := RecordVolumeOwner(id.value, to.value);
    }

    method HandOverDisk() returns (status: Status)
      modifies this
      ensures Now(status) == old(Recycle.HandOverDisk(site, world, script))
    {
      var to := FindGuest(world.guests, site.TransientName());
      if to.Some? {
        var id := OwnedData(site, world, to.value);
        if id.Some? {
          status := RecordVolumeOwner(id.value, to.value);
          return;
        }
      }
      status := MoveDisk(site.finalName, site.TransientName());
    }

    method AdoptReplacement() returns (status: Status)
      modifies this
      ensures Now(status) == old(Recycle.AdoptReplacement(site, world, script))
    {
      var found := FindGuest(world.guests, site.TransientName());
      if found.None? { return Fine; }
      if site.canRename {
        status := Apply(Rename(world, found.value, site.finalName, script));
        if status != Fine { return; }
      }
      world := world.(mem := world.mem.(instance := Some(found.value)));
      status := Apply(Save(world, script));
      if status == Fine && !IsRunning(world.guests, found.value) {
        status := Apply(SetRunning(world, found.value, true, script));
      }
    }

    method RunPhase(p: Phase) returns (status: Status)
      modifies this
      ensures Now(status) == old(Recycle.RunPhase(site, options, world, p, script))
    {
      match p {
        case Planned => return Fine;
        case Quiesced => status := Apply(StopOriginal(site, world, script));
        case Secured =>
          status := Apply(Snapshot(site, options, world, script));
          if status == Fine && options.archive { status := Apply(ArchiveOriginal(site, world, script)); }
        case Built => status := Apply(BuildReplacement(site, world, script));
        case HandedOver => status := HandOverDisk();
        case Retired =>
          var obs := Observe(site, world);
          if obs.original && obs.owner != OnReplacement { return Failed; }
          status := Apply(DeleteNamed(world, site.finalName, script));
        case Adopted => status := AdoptReplacement();
        case Provisioned => return Fine;
        case Verified => status := Apply(Verify(site, world, script));
      }
    }

    /** What a run still does, from the phase to go on with. */
    function Onward(phase: Option<Phase>): Out
      reads this
    {
      if phase.Some? then PhasesFrom(site, options, world, phase.value, script) else ClearJournal(world, script)
    }

    /** Journals and runs one phase; `next` is the one to go on with, if any. */
    method Step(p: Phase) returns (status: Status, next: Option<Phase>)
      requires !(options.stopBeforeRetire && p.Retired?)
      modifies this
      ensures next.Some? ==> next.value.Left() < p.Left()
      ensures old(Onward(Some(p))) == if status.Fine? then Onward(next) else Now(status)
    {
      next := None;
      status := Apply(SaveJournal(world, p, script));
      if status != Fine { return; }
      status := RunPhase(p);
      if status == Fine { next := p.Next(); }
    }

    /** Whether to pause here, before the original is destroyed. */
    method Parks(p: Phase) returns (parked: bool)
      ensures if parked then Onward(Some(p)) == Now(Fine) else !(options.stopBeforeRetire && p.Retired?)
    {
      parked := options.stopBeforeRetire && p == Retired;
    }

    /** The phases from `start` on, each journalled before it runs. */
    method RunFrom(start: Phase) returns (status: Status)
      modifies this
      ensures Now(status) == old(Onward(Some(start)))
    {
      ghost var goal := Onward(Some(start));
      var phase := Some(start);
      while phase.Some?
        invariant goal == Onward(phase)
        decreases if phase.Some? then phase.value.Left() else 0
      {
        var parked := Parks(phase.value);
        if parked { return Fine; }
        status, phase := Step(phase.value);
        if status != Fine { return; }
      }
      status := Apply(ClearJournal(world, script));
    }

    method Run() returns (status: Status)
      requires world.mem == world.disk
      modifies this
      ensures Now(status) == old(Recycle.Run(site, options, world, script))
    {
      assert world.(mem := world.disk) == world;
      var start := StartPhase(site, world);
      if start.None? { return Failed; }
      status := RunFrom(start.value);
    }

    method RunCompensation(p: Phase) returns (status: Status)
      modifies this
      ensures Now(status) == old(Compensate(site, world, p, script))
    {
      match p {
        case HandedOver => status := MoveDisk(site.TransientName(), site.finalName);
        case Built => status := Apply(DeleteNamed(world, site.TransientName(), script));
        case Quiesced => status := Apply(StartOriginal(site, world, script));
        case _ => return Fine;
      }
    }

    method Abort() returns (status: Status)
      requires world.mem == world.disk
      modifies this
      ensures Now(status) == old(Recycle.Abort(site, world, script))
    {
      assert world.(mem := world.disk) == world;
      var reached := world.mem.journal;
      if reached.None? { reached := Reconstructed(Observe(site, world)); }
      if reached.None? || !reached.value.CanAbort() { return Failed; }
      var plan, i := AbortPlan(reached.value), 0;
      ghost var goal := CompensateAll(site, world, plan, script);
      status := Fine;
      while i < |plan|
        invariant i <= |plan| && status == Fine
        invariant goal == CompensateAll(site, world, plan[i..], script)
      {
        status := RunCompensation(plan[i]);
        if status != Fine { return; }
        assert plan[i..][1..] == plan[i + 1..];
        i := i + 1;
      }
      status := Apply(ClearJournal(world, script));
    }
  }

  /** One process, from loading the state to its end: however it ends, the data
      volume is safe if it was. */
  method Execute(site: Site, w: World, c: Command) returns (o: Out)
    ensures o == Invoke(site, w, c)
    ensures forall kept :: Safe(site, w, kept) && Allowed(kept, c.script) ==> Safe(site, o.w, kept)
  {
    var engine := new Engine(site, if c.RunCommand? then c.options else Options(false, false, false, false), w, c.script);
    var status: Status;
    if c.RunCommand? { status := engine.Run(); } else { status := engine.Abort(); }
    o := engine.Now(status);
    forall kept | Safe(site, w, kept) && Allowed(kept, c.script) ensures Safe(site, o.w, kept) {
      InvokeSafe(site, w, c, kept);
    }
  }
}
