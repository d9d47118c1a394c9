/** Replacing the bastion while its data disk is carried across: the engine
    (internal/recycle/engine.go, phase.go) over the cluster adapter
    (internal/bootstrap/recycle_cluster.go).

    Every call that changes something outside the process consumes one `Reply`
    of a script: whether the change happened, and whether the caller is told so,
    is told of an error, or dies waiting.  A script that runs out is a process
    that died before the call.  Listings answer truthfully. */
module Recycle {
  import opened Prelude

  // ----- The outside world -----

  datatype Guest = Guest(name: string, running: bool)

  /** `serial` says the guest that holds the volume has it attached under the
      bastion data serial; `precious` marks the one volume a recycle must keep. */
  datatype Volume = Volume(id: string, name: string, owner: Option<nat>, serial: bool, precious: bool)

  datatype VolumeRecord = VolumeRecord(id: string, vm: nat)

  /** The parts of the bloc state file a recycle reads or writes. */
  datatype StateFile = StateFile(volume: Option<VolumeRecord>, instance: Option<nat>, journal: Option<Phase>)

  /** `mem` is the loaded state, `disk` what is on file; `copies` counts the safety
      copies taken. */
  datatype World = World(
    guests: map<nat, Guest>,
    volumes: seq<Volume>,
    nextId: nat,
    mem: StateFile,
    disk: StateFile,
    copies: nat)

  /** The bloc's bastion name and what its provider can do. */
  datatype Site = Site(finalName: string, serialLookup: bool, canReassign: bool, canRename: bool) {
    function TransientName(): string { finalName + "-next" }
  }

  const NO_STATE: StateFile := StateFile(None, None, None)

  datatype Answer = Ok | Error | Death

  /** `id` is the name a reassigned volume gets; `bare` says a reassignment that
      was not answered with success left the volume without its serial; `lost`
      says a save that was not answered with success had already moved the old
      state file away. */
  datatype Reply = Reply(effect: bool, answer: Answer, id: string, bare: bool, lost: bool) {
    predicate Applied() { effect || answer.Ok? }
  }

  datatype Status = Fine | Failed | Dead

  datatype Out = Out(w: World, rest: seq<Reply>, status: Status)

  function Take(s: seq<Reply>): Reply {
    if s == [] then Reply(false, Death, "", false, false) else s[0]
  }

  function Rest(s: seq<Reply>): seq<Reply> {
    if s == [] then [] else s[1..]
  }

  function StatusOf(a: Answer): Status {
    match a case Ok => Fine case Error => Failed case Death => Dead
  }

  // ----- Listings -----

  predicate IsLeast(ids: set<nat>, m: nat) {
    m in ids && forall x | x in ids :: m <= x
  }

  lemma {:induction false} FindLeast(ids: set<nat>) returns (m: nat)
    requires ids != {}
    ensures IsLeast(ids, m)
    decreases |ids|
  {
    m :| m in ids;
    if ids - {m} != {} {
      var n := FindLeast(ids - {m});
      forall x | x in ids ensures (if m <= n then m else n) <= x {
        if x != m { assert x in ids - {m}; }
      }
      m := if m <= n then m else n;
    } else {
      assert forall x | x in ids :: x == m || x in ids - {m};
    }
  }

  lemma LeastExists(ids: set<nat>)
    requires ids != {}
    ensures exists m :: IsLeast(ids, m)
  {
    var m := FindLeast(ids);
  }

  function Least(ids: set<nat>): (m: nat)
    requires ids != {}
    ensures m in ids
  {
    LeastExists(ids);
    var m :| m in ids && IsLeast(ids, m);
    m
  }

  function Named(guests: map<nat, Guest>, name: string): set<nat> {
    set id | id in guests && guests[id].name == name
  }

  /** findByName, over a listing in the order of the ids. */
  function FindGuest(guests: map<nat, Guest>, name: string): (r: Option<nat>)
    ensures r.Some? ==> r.value in guests && guests[r.value].name == name
    ensures r.None? ==> forall id | id in guests :: guests[id].name != name
  {
    var named := Named(guests, name);
    if named == {} then
      assert forall id | id in guests :: id !in named;
      None
    else Some(Least(named))
  }

  function FindVolume(volumes: seq<Volume>, id: string): (r: Option<Volume>)
    ensures r.Some? ==> r.value in volumes && r.value.id == id
    ensures r.None? ==> forall v :: v in volumes ==> v.id != id
  {
    if volumes == [] then None
    else if volumes[0].id == id then Some(volumes[0])
    else FindVolume(volumes[1..], id)
  }

  function FindBySerial(volumes: seq<Volume>, guest: nat): (r: Option<string>)
    ensures r.Some? ==> exists v :: v in volumes && v.owner == Some(guest) && v.serial && v.id == r.value
    ensures r.None? ==> forall v :: v in volumes && v.owner == Some(guest) ==> !v.serial
  {
    if volumes == [] then None
    else if volumes[0].owner == Some(guest) && volumes[0].serial then Some(volumes[0].id)
    else FindBySerial(volumes[1..], guest)
  }

  /** isPreservedDataVolume: the recorded id decides when there is one. */
  predicate IsPreserved(v: Volume, recorded: Option<string>) {
    match recorded
    case Some(id) => v.id == id || v.name == id
    case None => EndsWith(v.name, "-data") || EndsWith(v.id, "-data")
  }

  function FindPreserved(volumes: seq<Volume>, guest: nat, recorded: Option<string>): (r: Option<string>)
    ensures r.Some? ==> exists v :: v in volumes && v.owner == Some(guest) && IsPreserved(v, recorded) && v.id == r.value
    ensures r.None? ==> forall v :: v in volumes && v.owner == Some(guest) ==> !IsPreserved(v, recorded)
  {
    if volumes == [] then None
    else if volumes[0].owner == Some(guest) && IsPreserved(volumes[0], recorded) then Some(volumes[0].id)
    else FindPreserved(volumes[1..], guest, recorded)
  }

  function RecordedId(f: StateFile): Option<string> {
    if f.volume.Some? && f.volume.value.id != "" then Some(f.volume.value.id) else None
  }

  /** dataVolumeOwnedBy */
  function OwnedData(site: Site, w: World, guest: nat): Option<string> {
    var bySerial := if site.serialLookup then FindBySerial(w.volumes, guest) else None;
    if bySerial.Some? then bySerial else FindPreserved(w.volumes, guest, RecordedId(w.mem))
  }

  datatype DiskOwner = OnOriginal | OnReplacement | Orphaned

  datatype Observation = Observation(original: bool, replacement: bool, owner: DiskOwner)

  function Observe(site: Site, w: World): Observation {
    var original := FindGuest(w.guests, site.finalName);
    var replacement := FindGuest(w.guests, site.TransientName());
    Observation(original.Some?, replacement.Some?,
                if replacement.Some? && OwnedData(site, w, replacement.value).Some? then OnReplacement
                else if original.Some? && OwnedData(site, w, original.value).Some? then OnOriginal
                else Orphaned)
  }

  // ----- Provider calls -----

  /** Deleting a guest purges every volume its config references. */
  function Purged(volumes: seq<Volume>, guest: nat): (r: seq<Volume>)
    ensures forall v :: v in r <==> v in volumes && v.owner != Some(guest)
  {
    if volumes == [] then []
    else if volumes[0].owner == Some(guest) then Purged(volumes[1..], guest)
    else [volumes[0]] + Purged(volumes[1..], guest)
  }

  function Replaced(volumes: seq<Volume>, id: string, next: Volume): (r: seq<Volume>)
    ensures forall v :: v in r ==> (v in volumes && v.id != id) || v == next
    ensures forall v :: v in volumes && v.id != id ==> v in r
    ensures FindVolume(volumes, id).Some? ==> next in r
  {
    if volumes == [] then []
    else [if volumes[0].id == id then next else volumes[0]] + Replaced(volumes[1..], id, next)
  }

  function CallPlain(w: World, s: seq<Reply>): Out {
    Out(w, Rest(s), StatusOf(Take(s).answer))
  }

  function Copy(w: World, s: seq<Reply>): Out {
    Out(if Take(s).Applied() then w.(copies := w.copies + 1) else w, Rest(s), StatusOf(Take(s).answer))
  }

  function SetRunning(w: World, id: nat, running: bool, s: seq<Reply>): Out {
    Out(if Take(s).Applied() && id in w.guests
        then w.(guests := w.guests[id := w.guests[id].(running := running)]) else w,
        Rest(s), StatusOf(Take(s).answer))
  }

  function Rename(w: World, id: nat, name: string, s: seq<Reply>): Out {
    Out(if Take(s).Applied() && id in w.guests
        then w.(guests := w.guests[id := w.guests[id].(name := name)]) else w,
        Rest(s), StatusOf(Take(s).answer))
  }

  function Create(w: World, name: string, s: seq<Reply>): Out {
    Out(if Take(s).Applied()
        then w.(guests := w.guests[w.nextId := Guest(name, false)], nextId := w.nextId + 1) else w,
        Rest(s), StatusOf(Take(s).answer))
  }

  function Delete(w: World, id: nat, s: seq<Reply>): Out {
    Out(if Take(s).Applied()
        then w.(guests := w.guests - {id}, volumes := Purged(w.volumes, id)) else w,
        Rest(s), StatusOf(Take(s).answer))
  }

  /** A provider never gives a volume a name that is in use. */
  predicate NameFree(volumes: seq<Volume>, id: string) {
    id != "" && forall v | v in volumes :: v.id != id && v.name != id
  }

  function NewVolumeId(volumes: seq<Volume>, id: string, wanted: string): string {
    if NameFree(volumes, wanted) then wanted else id
  }

  /** Refused unless the source holds the volume; otherwise the volume may be
      renamed after its new owner. */
  function Reassign(w: World, id: string, from: nat, to: nat, s: seq<Reply>): Out {
    var r, v := Take(s), FindVolume(w.volumes, id);
    if v.None? || v.value.owner != Some(from) then
      Out(w, Rest(s), if r.answer.Death? then Dead else Failed)
    else if !r.Applied() then Out(w, Rest(s), StatusOf(r.answer))
    else
      var newId := NewVolumeId(w.volumes, id, r.id);
      var moved := v.value.(id := newId, name := if newId == id then v.value.name else newId, owner := Some(to),
                            serial := v.value.serial && (r.answer.Ok? || !r.bare));
      Out(w.(volumes := Replaced(w.volumes, id, moved)), Rest(s), StatusOf(r.answer))
  }

  function Detach(w: World, id: string, from: nat, s: seq<Reply>): Out {
    var r, v := Take(s), FindVolume(w.volumes, id);
    if v.None? || v.value.owner != Some(from) then
      Out(w, Rest(s), if r.answer.Death? then Dead else Failed)
    else
      Out(if r.Applied() then w.(volumes := Replaced(w.volumes, id, v.value.(owner := None))) else w,
          Rest(s), StatusOf(r.answer))
  }

  /** The attach spec names the serial. */
  function Attach(w: World, id: string, to: nat, s: seq<Reply>): Out {
    var r, v := Take(s), FindVolume(w.volumes, id);
    if v.None? then Out(w, Rest(s), if r.answer.Death? then Dead else Failed)
    else
      Out(if r.Applied() then w.(volumes := Replaced(w.volumes, id, v.value.(owner := Some(to), serial := true)))
          else w,
          Rest(s), StatusOf(r.answer))
  }

  /** stateManager.Save moves the old file aside before it writes the new one. */
  function Save(w: World, s: seq<Reply>): Out {
    var r := Take(s);
    Out(if r.Applied() then w.(disk := w.mem) else if r.lost then w.(disk := NO_STATE) else w,
        Rest(s), StatusOf(r.answer))
  }

  // ----- The adapter -----

  function StopOriginal(site: Site, w: World, s: seq<Reply>): Out {
    match FindGuest(w.guests, site.finalName)
    case None => Out(w, s, Failed)
    case Some(id) => SetRunning(w, id, false, s)
  }

  /** A copy that survives the guest. */
  function ArchiveOriginal(site: Site, w: World, s: seq<Reply>): Out {
    if FindGuest(w.guests, site.finalName).None? then Out(w, s, Failed) else Copy(w, s)
  }

  function StartOriginal(site: Site, w: World, s: seq<Reply>): Out {
    match FindGuest(w.guests, site.finalName)
    case None => Out(w, s, Fine)
    case Some(id) => SetRunning(w, id, true, s)
  }

  function BuildReplacement(site: Site, w: World, s: seq<Reply>): Out {
    if FindGuest(w.guests, site.TransientName()).Some? then Out(w, s, Fine)
    else Create(w, site.TransientName(), s)
  }

  function DeleteNamed(w: World, name: string, s: seq<Reply>): Out {
    match FindGuest(w.guests, name)
    case None => Out(w, s, Fine)
    case Some(id) => Delete(w, id, s)
  }

  function RecordVolumeOwner(w: World, id: string, guest: nat, s: seq<Reply>): Out {
    if w.mem.volume.None? then Out(w, s, Fine)
    else
      var noted := w.(mem := w.mem.(volume := Some(VolumeRecord(id, guest))));
      if id == "" then Out(noted, s, Failed) else Save(noted, s)
  }

  function MoveByReattach(w: World, id: string, from: nat, to: nat, s: seq<Reply>): Out {
    var detached := Detach(w, id, from, s);
    if !detached.status.Fine? then detached
    else
      var attached := Attach(detached.w, id, to, detached.rest);
      if !attached.status.Fine? then attached
      else RecordVolumeOwner(attached.w, id, to, attached.rest)
  }

  function MoveVolume(site: Site, w: World, id: string, from: nat, to: nat, s: seq<Reply>): Out {
    if !site.canReassign then MoveByReattach(w, id, from, to, s)
    else
      var moved := Reassign(w, id, from, to, s);
      match moved.status
      case Dead => moved
      case Failed => MoveByReattach(moved.w, id, from, to, moved.rest)
      case Fine =>
        var newId := OwnedData(site, moved.w, to);
        RecordVolumeOwner(moved.w, if newId.Some? then newId.value else id, to, moved.rest)
  }

  function MoveDisk(site: Site, w: World, fromName: string, toName: string, s: seq<Reply>): Out {
    var from, to := FindGuest(w.guests, fromName), FindGuest(w.guests, toName);
    if from.None? || to.None? then Out(w, s, Failed)
    else
      var owned := OwnedData(site, w, from.value);
      var id := if owned.Some? then owned else RecordedId(w.mem);
      if id.None? then Out(w, s, Failed)
      else MoveVolume(site, w, id.value, from.value, to.value, s)
  }

  function HandOverDisk(site: Site, w: World, s: seq<Reply>): Out {
    var to := FindGuest(w.guests, site.TransientName());
    if to.Some? && OwnedData(site, w, to.value).Some?
    then RecordVolumeOwner(w, OwnedData(site, w, to.value).value, to.value, s)
    else MoveDisk(site, w, site.finalName, site.TransientName(), s)
  }

  function ReturnDisk(site: Site, w: World, s: seq<Reply>): Out {
    MoveDisk(site, w, site.TransientName(), site.finalName, s)
  }

  predicate IsRunning(guests: map<nat, Guest>, id: nat) {
    id in guests && guests[id].running
  }

  function AdoptReplacement(site: Site, w: World, s: seq<Reply>): Out {
    match FindGuest(w.guests, site.TransientName())
    case None => Out(w, s, Fine)
    case Some(id) =>
      var renamed := if site.canRename then Rename(w, id, site.finalName, s) else Out(w, s, Fine);
      if !renamed.status.Fine? then renamed
      else
        var saved := Save(renamed.w.(mem := renamed.w.mem.(instance := Some(id))), renamed.rest);
        if !saved.status.Fine? || IsRunning(saved.w.guests, id) then saved
        else SetRunning(saved.w, id, true, saved.rest)
  }

  function Verify(site: Site, w: World, s: seq<Reply>): Out {
    if FindGuest(w.guests, site.finalName).None? then Out(w, s, Failed) else CallPlain(w, s)
  }

  // ----- The engine -----

  datatype Phase =
    | Planned | Quiesced | Secured | Built | HandedOver | Retired | Adopted | Provisioned | Verified
  {
    function Index(): nat {
      match this
      case Planned => 0 case Quiesced => 1 case Secured => 2 case Built => 3 case HandedOver => 4
      case Retired => 5 case Adopted => 6 case Provisioned => 7 case Verified => 8
    }

    /** How many phases are left, this one included. */
    function Left(): (n: nat)
      ensures n > 0
    {
      9 - Index()
    }

    function Next(): (r: Option<Phase>)
      ensures if Verified? then r.None? else r.Some? && r.value.Index() == Index() + 1
    {
      match this
      case Planned => Some(Quiesced) case Quiesced => Some(Secured) case Secured => Some(Built)
      case Built => Some(HandedOver) case HandedOver => Some(Retired) case Retired => Some(Adopted)
      case Adopted => Some(Provisioned) case Provisioned => Some(Verified) case Verified => None
    }

    function Previous(): (r: Option<Phase>)
      ensures if Planned? then r.None? else r.Some? && r.value.Index() == Index() - 1
    {
      match this
      case Planned => None case Quiesced => Some(Planned) case Secured => Some(Quiesced)
      case Built => Some(Secured) case HandedOver => Some(Built) case Retired => Some(HandedOver)
      case Adopted => Some(Retired) case Provisioned => Some(Adopted) case Verified => Some(Provisioned)
    }

    predicate CanAbort() { Index() < Retired.Index() }
  }

  /** `storage`: an archive storage was named; `copyTaken`: the operator says a safety
      copy exists. */
  datatype Options = Options(archive: bool, stopBeforeRetire: bool, storage: bool, copyTaken: bool)

  /** The safety copy: an archive, or the operator's word for one. */
  function Snapshot(site: Site, o: Options, w: World, s: seq<Reply>): Out {
    if !o.storage then Out(w, s, if o.copyTaken then Fine else Failed) else ArchiveOriginal(site, w, s)
  }

  function RunPhase(site: Site, o: Options, w: World, p: Phase, s: seq<Reply>): Out {
    match p
    case Planned => Out(w, s, Fine)
    case Quiesced => StopOriginal(site, w, s)
    case Secured =>
      var copied := Snapshot(site, o, w, s);
      if copied.status.Fine? && o.archive then ArchiveOriginal(site, copied.w, copied.rest) else copied
    case Built => BuildReplacement(site, w, s)
    case HandedOver => HandOverDisk(site, w, s)
    case Retired =>
      var obs := Observe(site, w);
      if obs.original && !obs.owner.OnReplacement? then Out(w, s, Failed)
      else DeleteNamed(w, site.finalName, s)
    case Adopted => AdoptReplacement(site, w, s)
    case Provisioned => Out(w, s, Fine)
    case Verified => Verify(site, w, s)
  }

  /** RemoveResource refuses a journal that is not there. */
  function ClearJournal(w: World, s: seq<Reply>): Out {
    if w.mem.journal.None? then Out(w, s, Failed)
    else Save(w.(mem := w.mem.(journal := None)), s)
  }

  function SaveJournal(w: World, p: Phase, s: seq<Reply>): Out {
    Save(w.(mem := w.mem.(journal := Some(p))), s)
  }

  function Reconstructed(obs: Observation): Option<Phase> {
    if obs.original && !obs.replacement then Some(Secured)
    else if obs.original && obs.owner.OnReplacement? then Some(HandedOver)
    else if obs.original then Some(Built)
    else if obs.replacement then Some(Retired)
    else None
  }

  function StartPhase(site: Site, w: World): Option<Phase> {
    var obs := Observe(site, w);
    if !obs.original && !obs.replacement then None
    else if w.mem.journal.Some? then w.mem.journal
    else if !obs.replacement then Some(Planned)
    else Reconstructed(obs).value.Next()
  }

  function PhasesFrom(site: Site, o: Options, w: World, p: Phase, s: seq<Reply>): Out
    decreases p.Left()
  {
    if o.stopBeforeRetire && p.Retired? then Out(w, s, Fine)
    else
      var saved := SaveJournal(w, p, s);
      if !saved.status.Fine? then saved
      else
        var done := RunPhase(site, o, saved.w, p, saved.rest);
        if !done.status.Fine? then done
        else if p.Next().None? then ClearJournal(done.w, done.rest)
        else PhasesFrom(site, o, done.w, p.Next().value, done.rest)
  }

  /** One invocation: the state is loaded, then the engine runs. */
  function Run(site: Site, o: Options, w: World, s: seq<Reply>): Out {
    var loaded := w.(mem := w.disk);
    match StartPhase(site, loaded)
    case None => Out(loaded, s, Failed)
    case Some(p) => PhasesFrom(site, o, loaded, p, s)
  }

  function Compensate(site: Site, w: World, p: Phase, s: seq<Reply>): Out {
    match p
    case Quiesced => StartOriginal(site, w, s)
    case Built => DeleteNamed(w, site.TransientName(), s)
    case HandedOver => ReturnDisk(site, w, s)
    case _ => Out(w, s, Fine)
  }

  const PHASE_ORDER: seq<Phase> := [
    Planned, Quiesced, Secured, Built, HandedOver, Retired, Adopted, Provisioned, Verified]

  /** The phase reached and every one before it, latest first. */
  function AbortPlan(p: Phase): seq<Phase> {
    seq(p.Index() + 1, i requires 0 <= i <= p.Index() => PHASE_ORDER[p.Index() - i])
  }

  lemma PlanSteps(p: Phase)
    ensures AbortPlan(p) != [] && AbortPlan(p)[0] == p
    ensures p.Previous().None? ==> AbortPlan(p)[1..] == []
    ensures p.Previous().Some? ==> AbortPlan(p)[1..] == AbortPlan(p.Previous().value)
  {
  }

  function CompensateAll(site: Site, w: World, plan: seq<Phase>, s: seq<Reply>): Out
    decreases |plan|
  {
    if plan == [] then Out(w, s, Fine)
    else
      var undone := Compensate(site, w, plan[0], s);
      if !undone.status.Fine? then undone else CompensateAll(site, undone.w, plan[1..], undone.rest)
  }

  function Abort(site: Site, w: World, s: seq<Reply>): Out {
    var loaded := w.(mem := w.disk);
    var reached := if loaded.mem.journal.Some? then loaded.mem.journal else Reconstructed(Observe(site, loaded));
    if reached.None? || !reached.value.CanAbort() then Out(loaded, s, Failed)
    else
      var undone := CompensateAll(site, loaded, AbortPlan(reached.value), s);
      if !undone.status.Fine? then undone else ClearJournal(undone.w, undone.rest)
  }

  datatype Command = RunCommand(options: Options, script: seq<Reply>) | AbortCommand(script: seq<Reply>)

  function Invoke(site: Site, w: World, c: Command): Out {
    match c
    case RunCommand(o, s) => Run(site, o, w, s)
    case AbortCommand(s) => Abort(site, w, s)
  }

  /** Invocations one after another, each starting from what the last one left. */
  function Session(site: Site, w: World, commands: seq<Command>): World
    decreases |commands|
  {
    if commands == [] then w else Session(site, Invoke(site, w, commands[0]).w, commands[1..])
  }
}
