/** Converging on one bastion data disk, over runs whose bastion may have been rebuilt
    in between (internal/bootstrap/compute_data_volume.go). */
module DataVolume {
  import opened Prelude

  /** `ours` marks a volume made as this bloc's data disk; `listed` is the name a
      listing shows it by, none when the listing does not cover its pool. */
  datatype Volume = Volume(id: string, ours: bool, listed: Option<string>, attachedTo: Option<string>)

  /** The provider's volumes and the volume id in the state record; an empty id
      counts as no record. */
  datatype World = World(volumes: seq<Volume>, recorded: string)

  datatype Site = Site(enabled: bool, hasStorage: bool, blocName: string) {
    function StateName(): string { blocName + "-bastion-data" }

    /** isBastionDataVolume, for the bastion `instance`. */
    predicate IsData(v: Volume, instance: string) {
      v.listed == Some(StateName()) || v.listed == Some(OwnerName(instance))
    }
  }

  function OwnerName(instance: string): string { "vm-" + instance + "-data" }

  /** Whether a call took effect, and whether the caller is told so. */
  datatype Call = Call(effect: bool, ok: bool) {
    predicate Applied() { effect || ok }
  }

  /** One run: the bastion on record, and how every call turns out.  A created volume
      gets `newId` and will be listed as `shown`; `kept` says that the state of this
      run is what the next one loads. */
  datatype Replies = Replies(instance: Option<string>, listed: bool, created: Call, newId: string, shown: Option<string>,
                             attached: Call, deleted: Call, recordOk: bool, kept: bool)

  predicate Active(site: Site, r: Replies) { site.enabled && site.hasStorage && r.instance.Some? }

  function FindId(volumes: seq<Volume>, id: string): (r: Option<Volume>)
    ensures r.Some? ==> r.value in volumes && r.value.id == id
    ensures r.None? ==> forall v :: v in volumes ==> v.id != id
  {
    if volumes == [] then None
    else if volumes[0].id == id then Some(volumes[0])
    else FindId(volumes[1..], id)
  }

  function FindData(site: Site, volumes: seq<Volume>, instance: string): (r: Option<Volume>)
    ensures r.Some? ==> r.value in volumes && site.IsData(r.value, instance)
    ensures r.None? ==> forall v :: v in volumes ==> !site.IsData(v, instance)
  {
    if volumes == [] then None
    else if site.IsData(volumes[0], instance) then Some(volumes[0])
    else FindData(site, volumes[1..], instance)
  }

  function AttachTo(volumes: seq<Volume>, id: string, instance: string): (r: seq<Volume>)
    ensures |r| == |volumes|
    ensures forall i :: 0 <= i < |r| ==>
              r[i] == if volumes[i].id == id then volumes[i].(attachedTo := Some(instance)) else volumes[i]
  {
    seq(|volumes|, i requires 0 <= i < |volumes| =>
      if volumes[i].id == id then volumes[i].(attachedTo := Some(instance)) else volumes[i])
  }

  function Without(volumes: seq<Volume>, id: string): seq<Volume> {
    if volumes == [] then []
    else (if volumes[0].id == id then [] else [volumes[0]]) + Without(volumes[1..], id)
  }

  /** resolveBastionDataVolume: the id to attach, if a volume is known. */
  function Resolved(site: Site, w: World, r: Replies): Option<string>
    requires r.instance.Some?
  {
    if w.recorded != "" then Some(w.recorded)
    else if !r.listed then None
    else
      var found := FindData(site, w.volumes, r.instance.value);
      if found.Some? then Some(found.value.id) else None
  }

  predicate Fresh(volumes: seq<Volume>, id: string) {
    id != "" && FindId(volumes, id).None?
  }

  function Made(r: Replies): Volume { Volume(r.newId, true, r.shown, None) }

  /** A created volume goes to the bastion under an id nothing else has. */
  function AfterCreate(w: World, r: Replies): World {
    if r.created.Applied() && Fresh(w.volumes, r.newId) then w.(volumes := w.volumes + [Made(r)]) else w
  }

  /** From the attach on: clean up a volume of this run when it cannot be attached. */
  function AfterAttach(w: World, id: string, created: bool, r: Replies): (World, bool)
    requires r.instance.Some?
  {
    var there := FindId(w.volumes, id).Some?;
    var w1 := if there && r.attached.Applied() then w.(volumes := AttachTo(w.volumes, id, r.instance.value)) else w;
    if !there || !r.attached.ok then
      (if created && r.deleted.Applied() then w1.(volumes := Without(w1.volumes, id)) else w1, false)
    else if id == "" || !r.recordOk then (w1, false)
    else (w1.(recorded := id), true)
  }

  function Ensured(site: Site, w: World, r: Replies): (World, bool) {
    if !Active(site, r) then (w, true)
    else
      var known := Resolved(site, w, r);
      if known.Some? then AfterAttach(w, known.value, false, r)
      else
        var made := AfterCreate(w, r);
        if !r.created.ok || !Fresh(w.volumes, r.newId) then (made, false)
        else AfterAttach(made, r.newId, true, r)
  }

  /** One run, and what the next one finds. */
  function Run(site: Site, w: World, r: Replies): World {
    var end := Ensured(site, w, r).0;
    if r.kept then end else end.(recorded := w.recorded)
  }

  function RunAll(site: Site, w: World, runs: seq<Replies>): World
    decreases |runs|
  {
    if runs == [] then w else RunAll(site, Run(site, w, runs[0]), runs[1..])
  }

  // ----- Nothing that was there goes away -----

  /** The volume is there, wherever it is attached. */
  predicate Has(volumes: seq<Volume>, v: Volume) {
    exists i :: 0 <= i < |volumes| && IsSame(volumes[i], v)
  }

  predicate IsSame(u: Volume, v: Volume) { u.(attachedTo := None) == v.(attachedTo := None) }

  lemma AttachKeeps(volumes: seq<Volume>, id: string, instance: string, v: Volume)
    requires Has(volumes, v)
    ensures Has(AttachTo(volumes, id, instance), v)
  {
    var i :| 0 <= i < |volumes| && IsSame(volumes[i], v);
    assert IsSame(AttachTo(volumes, id, instance)[i], v);
  }

  lemma {:induction false} WithoutKeeps(volumes: seq<Volume>, id: string, v: Volume)
    requires Has(volumes, v) && v.id != id
    ensures Has(Without(volumes, id), v)
  {
    var i :| 0 <= i < |volumes| && IsSame(volumes[i], v);
    var rest := Without(volumes[1..], id);
    var head := if volumes[0].id == id then [] else [volumes[0]];
    if i > 0 {
      assert volumes[1..][i - 1] == volumes[i];
      WithoutKeeps(volumes[1..], id, v);
      var j :| 0 <= j < |rest| && IsSame(rest[j], v);
      assert (head + rest)[|head| + j] == rest[j];
    } else {
      assert (head + rest)[0] == volumes[0];
    }
  }

  lemma AfterAttachKeeps(w: World, id: string, created: bool, r: Replies, v: Volume)
    requires r.instance.Some? && Has(w.volumes, v) && (created ==> v.id != id)
    ensures Has(AfterAttach(w, id, created, r).0.volumes, v)
  {
    AttachKeeps(w.volumes, id, r.instance.value, v);
    if created {
      WithoutKeeps(w.volumes, id, v);
      WithoutKeeps(AttachTo(w.volumes, id, r.instance.value), id, v);
    }
  }

  lemma RunKeepsVolume(site: Site, w: World, r: Replies, v: Volume)
    requires Has(w.volumes, v)
    ensures Has(Run(site, w, r).volumes, v)
  {
    if Active(site, r) {
      var i :| 0 <= i < |w.volumes| && IsSame(w.volumes[i], v);
      var known := Resolved(site, w, r);
      if known.Some? {
        AfterAttachKeeps(w, known.value, false, r, v);
      } else {
        var made := AfterCreate(w, r);
        assert made.volumes[i] == w.volumes[i] && w.volumes[i] in w.volumes;
        if Fresh(w.volumes, r.newId) { AfterAttachKeeps(made, r.newId, true, r, v); }
      }
    }
  }

  /** Whatever fails in whatever runs, listings and rebuilds included, a volume that
      was there before a run is there after it, and after all that follow. */
  lemma {:induction false} NoEarlierVolumeIsDeleted(site: Site, w: World, runs: seq<Replies>, v: Volume)
    requires Has(w.volumes, v)
    ensures Has(RunAll(site, w, runs).volumes, v)
    decreases |runs|
  {
    if runs != [] {
      RunKeepsVolume(site, w, runs[0], v);
      NoEarlierVolumeIsDeleted(site, Run(site, w, runs[0]), runs[1..], v);
    }
  }

  // ----- When there is a second data volume -----

  /** How many volumes have been made as this bloc's data disk. */
  function Count(volumes: seq<Volume>): nat {
    if volumes == [] then 0 else (if volumes[0].ours then 1 else 0) + Count(volumes[1..])
  }

  lemma {:induction false} CountAppend(volumes: seq<Volume>, v: Volume)
    ensures Count(volumes + [v]) == Count(volumes) + (if v.ours then 1 else 0)
  {
    if volumes != [] {
      CountAppend(volumes[1..], v);
      assert (volumes + [v])[1..] == volumes[1..] + [v];
    } else {
      assert [v][1..] == [];
    }
  }

  lemma {:induction false} CountAttach(volumes: seq<Volume>, id: string, instance: string)
    ensures Count(AttachTo(volumes, id, instance)) == Count(volumes)
  {
    if volumes != [] {
      CountAttach(volumes[1..], id, instance);
      assert AttachTo(volumes, id, instance)[1..] == AttachTo(volumes[1..], id, instance);
    }
  }

  lemma {:induction false} CountNone(volumes: seq<Volume>)
    ensures Count(volumes) == 0 <==> forall v :: v in volumes ==> !v.ours
  {
    if volumes != [] { CountNone(volumes[1..]); }
  }

  lemma {:induction false} WithoutAppended(volumes: seq<Volume>, v: Volume)
    requires FindId(volumes, v.id).None?
    ensures Without(volumes + [v], v.id) == volumes
  {
    if volumes == [] {
      assert [v][1..] == [];
    } else {
      assert volumes[0] in volumes;
      WithoutAppended(volumes[1..], v);
      assert (volumes + [v])[1..] == volumes[1..] + [v];
    }
  }

  lemma AttachAppended(volumes: seq<Volume>, v: Volume, instance: string)
    requires FindId(volumes, v.id).None?
    ensures AttachTo(volumes + [v], v.id, instance) == volumes + [v.(attachedTo := Some(instance))]
  {
    forall i | 0 <= i < |volumes| ensures volumes[i].id != v.id {
      assert volumes[i] in volumes;
    }
  }

  /** No record survives, and no name that is listed is the state's or the present
      bastion's. */
  predicate Unknown(site: Site, w: World, r: Replies)
    requires r.instance.Some?
  {
    w.recorded == "" && (r.listed ==> forall v | v in w.volumes :: !site.IsData(v, r.instance.value))
  }

  /** The run makes a volume and does not take it back. */
  predicate Adds(site: Site, w: World, r: Replies) {
    && Active(site, r) && Unknown(site, w, r)
    && r.created.Applied() && Fresh(w.volumes, r.newId)
    && (r.created.ok && !r.attached.ok ==> !r.deleted.Applied())
  }

  /** The volumes after a run that makes one and goes on from there. */
  lemma CreatedVolumes(site: Site, w: World, r: Replies)
    requires Active(site, r) && Unknown(site, w, r) && Fresh(w.volumes, r.newId)
    ensures Run(site, w, r).volumes ==
              if !Adds(site, w, r) then w.volumes
              else w.volumes + [if r.created.ok && r.attached.Applied() then Made(r).(attachedTo := r.instance) else Made(r)]
  {
    var v := Made(r);
    assert FindId(w.volumes + [v], r.newId).Some? by { assert v in w.volumes + [v]; }
    if r.created.ok {
      AttachAppended(w.volumes, v, r.instance.value);
      if !r.attached.ok && r.deleted.Applied() {
        WithoutAppended(w.volumes, if r.attached.Applied() then v.(attachedTo := r.instance) else v);
      }
    }
  }

  /** A run adds one data volume or none, and this is when. */
  lemma CountGrowsExactlyWhen(site: Site, w: World, r: Replies)
    ensures Count(Run(site, w, r).volumes) == Count(w.volumes) + if Adds(site, w, r) then 1 else 0
  {
    if Active(site, r) && !Unknown(site, w, r) {
      CountAttach(w.volumes, Resolved(site, w, r).value, r.instance.value);
    } else if Active(site, r) && Fresh(w.volumes, r.newId) {
      CreatedVolumes(site, w, r);
      CountAppend(w.volumes, Made(r));
      CountAppend(w.volumes, Made(r).(attachedTo := r.instance));
    }
  }

  /** Some run adds a volume while there is one. */
  predicate MakesASecond(site: Site, w: World, runs: seq<Replies>)
    decreases |runs|
  {
    runs != []
    && ((Adds(site, w, runs[0]) && Count(w.volumes) >= 1) || MakesASecond(site, Run(site, w, runs[0]), runs[1..]))
  }

  lemma {:induction false} CountNeverShrinks(site: Site, w: World, runs: seq<Replies>)
    ensures Count(RunAll(site, w, runs).volumes) >= Count(w.volumes)
    decreases |runs|
  {
    if runs != [] {
      CountGrowsExactlyWhen(site, w, runs[0]);
      CountNeverShrinks(site, Run(site, w, runs[0]), runs[1..]);
    }
  }

  /** Over any runs, rebuilt bastions and unlisted pools included, there is a second
      data volume exactly when some run found neither a record nor a name it knows
      while there was one, and made one that stayed. */
  lemma {:induction false} NeverASecondExactlyWhen(site: Site, w: World, runs: seq<Replies>)
    requires Count(w.volumes) <= 1
    ensures Count(RunAll(site, w, runs).volumes) <= 1 <==> !MakesASecond(site, w, runs)
    decreases |runs|
  {
    if runs != [] {
      var next := Run(site, w, runs[0]);
      CountGrowsExactlyWhen(site, w, runs[0]);
      if Adds(site, w, runs[0]) && Count(w.volumes) >= 1 {
        CountNeverShrinks(site, next, runs[1..]);
      } else {
        NeverASecondExactlyWhen(site, next, runs[1..]);
      }
    }
  }

  /** A record is enough: while there is one, no run makes a volume, whatever the
      bastion and the listing. */
  lemma {:induction false} RecordKeepsItSingle(site: Site, w: World, runs: seq<Replies>)
    requires w.recorded != ""
    ensures Count(RunAll(site, w, runs).volumes) == Count(w.volumes) && RunAll(site, w, runs).recorded != ""
    decreases |runs|
  {
    if runs != [] {
      CountGrowsExactlyWhen(site, w, runs[0]);
      RecordKeepsItSingle(site, Run(site, w, runs[0]), runs[1..]);
    }
  }

  /** Without one, a listing is enough where it works and shows the bloc's volumes by
      the state's name, or by that of a bastion that never changes. */
  predicate Shows(site: Site, instance: string, r: Replies) {
    && r.listed && r.instance == Some(instance)
    && (r.shown == Some(site.StateName()) || r.shown == Some(OwnerName(instance)))
  }

  predicate AllShown(site: Site, instance: string, w: World) {
    forall v | v in w.volumes && v.ours :: site.IsData(v, instance)
  }

  lemma RunKeepsShown(site: Site, instance: string, w: World, r: Replies)
    requires AllShown(site, instance, w) && Shows(site, instance, r)
    ensures AllShown(site, instance, Run(site, w, r))
  {
    if Active(site, r) && !Unknown(site, w, r) {
      var attached := AttachTo(w.volumes, Resolved(site, w, r).value, instance);
      forall v | v in attached && v.ours ensures site.IsData(v, instance) {
        var i :| 0 <= i < |attached| && attached[i] == v;
        assert w.volumes[i] in w.volumes;
      }
    } else if Active(site, r) && Fresh(w.volumes, r.newId) {
      CreatedVolumes(site, w, r);
    }
  }

  lemma {:induction false} ListingKeepsItSingle(site: Site, instance: string, w: World, runs: seq<Replies>)
    requires Count(w.volumes) <= 1 && AllShown(site, instance, w)
    requires forall r | r in runs :: Shows(site, instance, r)
    ensures Count(RunAll(site, w, runs).volumes) <= 1
    decreases |runs|
  {
    if runs != [] {
      CountGrowsExactlyWhen(site, w, runs[0]);
      CountNone(w.volumes);
      RunKeepsShown(site, instance, w, runs[0]);
      ListingKeepsItSingle(site, instance, Run(site, w, runs[0]), runs[1..]);
    }
  }

  /** A rebuilt bastion does not know its predecessor's volume by name: without a
      record it gets a second one. */
  lemma RebuiltBastionGetsASecond(site: Site, w: World, v: Volume, before: string, r: Replies)
    requires w == World([v], "") && v.ours && v.listed == Some(OwnerName(before))
    requires Active(site, r) && r.instance.value != before && OwnerName(before) != site.StateName()
    requires r.created.ok && r.attached.ok && Fresh(w.volumes, r.newId)
    ensures Count(Run(site, w, r).volumes) == 2
  {
    OwnerNamesDiffer(before, r.instance.value);
    CountGrowsExactlyWhen(site, w, r);
    assert w.volumes[1..] == [];
  }

  lemma OwnerNamesDiffer(a: string, b: string)
    ensures OwnerName(a) == OwnerName(b) ==> a == b
  {
    var n := OwnerName(a);
    assert n[3..|n| - 5] == a && OwnerName(b)[3..|OwnerName(b)| - 5] == b;
  }

  /** Nor is a volume known that is listed by a pool-prefixed id, as PVE's listing
      shows all of them: there a run without a record always makes a volume. */
  lemma PrefixedNamesAreUnknown(site: Site, w: World, r: Replies)
    requires r.instance.Some? && ':' !in site.blocName && ':' !in r.instance.value
    requires forall v | v in w.volumes :: v.listed.Some? ==> ':' in v.listed.value
    ensures Unknown(site, w, r) <==> w.recorded == ""
  {
    assert ':' !in site.StateName() && ':' !in OwnerName(r.instance.value);
  }

  // ----- After a success -----

  /** The recorded volume exists and is attached to the bastion. */
  predicate Settled(w: World, instance: string) {
    && w.recorded != "" && FindId(w.volumes, w.recorded).Some?
    && forall v | v in w.volumes && v.id == w.recorded :: v.attachedTo == Some(instance)
  }

  lemma AttachedIsThere(volumes: seq<Volume>, id: string, instance: string)
    requires FindId(volumes, id).Some?
    ensures FindId(AttachTo(volumes, id, instance), id).Some?
    ensures forall v | v in AttachTo(volumes, id, instance) && v.id == id :: v.attachedTo == Some(instance)
  {
    var next := AttachTo(volumes, id, instance);
    var i :| 0 <= i < |volumes| && volumes[i] == FindId(volumes, id).value;
    assert next[i] in next && next[i].id == id;
  }

  lemma SuccessSettles(site: Site, w: World, r: Replies)
    requires Active(site, r) && Ensured(site, w, r).1
    ensures Settled(Ensured(site, w, r).0, r.instance.value)
  {
    var known := Resolved(site, w, r);
    var id := if known.Some? then known.value else r.newId;
    var before := if known.Some? then w else AfterCreate(w, r);
    var end := Ensured(site, w, r).0;
    assert end == before.(volumes := AttachTo(before.volumes, id, r.instance.value), recorded := id);
    AttachedIsThere(before.volumes, id, r.instance.value);
  }

  /** From a settled world any run for the same bastion, whatever fails in it, changes
      not a volume, and fails only if the attach or the record does. */
  lemma SettledStays(site: Site, w: World, r: Replies)
    requires Active(site, r) && Settled(w, r.instance.value)
    ensures Run(site, w, r) == w
    ensures Ensured(site, w, r).1 <==> r.attached.ok && r.recordOk
  {
    assert AttachTo(w.volumes, w.recorded, r.instance.value) == w.volumes;
  }

  /** And a rebuilt bastion gets the recorded volume, no other: the flow the disk
      exists for. */
  lemma RebuiltBastionGetsTheRecorded(site: Site, w: World, r: Replies, before: string)
    requires Active(site, r) && Settled(w, before) && r.attached.ok && r.recordOk
    ensures var (end, ok) := Ensured(site, w, r);
            ok && Settled(end, r.instance.value) && end.recorded == w.recorded && Count(end.volumes) == Count(w.volumes)
  {
    SuccessSettles(site, w, r);
    CountAttach(w.volumes, w.recorded, r.instance.value);
  }

  // ----- Which volume is attached -----

  predicate FirstKnown(site: Site, volumes: seq<Volume>, instance: string, k: nat) {
    k < |volumes| && site.IsData(volumes[k], instance) && forall j | 0 <= j < k :: !site.IsData(volumes[j], instance)
  }

  lemma {:induction false} FindDataIsFirst(site: Site, volumes: seq<Volume>, instance: string) returns (k: nat)
    requires FindData(site, volumes, instance).Some?
    ensures FirstKnown(site, volumes, instance, k) && volumes[k] == FindData(site, volumes, instance).value
  {
    k := 0;
    if !site.IsData(volumes[0], instance) {
      k := FindDataIsFirst(site, volumes[1..], instance);
      k := k + 1;
    }
  }

  /** A run that finds no record, but lists a volume by the state's name or the bastion's,
      records the first such volume, and attaches it, when it succeeds. */
  lemma ListedVolumeIsAdopted(site: Site, w: World, r: Replies, k: nat)
    requires Active(site, r) && w.recorded == "" && r.listed && FirstKnown(site, w.volumes, r.instance.value, k)
    requires Ensured(site, w, r).1
    ensures var end := Ensured(site, w, r).0;
            && end.recorded == w.volumes[k].id && |end.volumes| == |w.volumes|
            && end.volumes[k] == w.volumes[k].(attachedTo := r.instance)
  {
    assert w.volumes[k] in w.volumes;
    var j := FindDataIsFirst(site, w.volumes, r.instance.value);
  }

  /** With a record, that volume and no other is attached and recorded again. */
  lemma RecordedVolumeIsAttached(site: Site, w: World, r: Replies)
    requires Active(site, r) && w.recorded != "" && Ensured(site, w, r).1
    ensures var end := Ensured(site, w, r).0;
            && end.recorded == w.recorded && |end.volumes| == |w.volumes|
            && forall i | 0 <= i < |w.volumes| ::
                 end.volumes[i] == if w.volumes[i].id == w.recorded then w.volumes[i].(attachedTo := r.instance) else w.volumes[i]
  {
  }

  predicate UniqueIds(volumes: seq<Volume>) {
    forall i, j :: 0 <= i < j < |volumes| ==> volumes[i].id != volumes[j].id
  }

  /** This volume is neither recorded nor listed by a name the run knows. */
  predicate Unrelated(site: Site, w: World, v: Volume, r: Replies) {
    v.id != w.recorded && (r.instance.Some? ==> !site.IsData(v, r.instance.value))
  }

  lemma AppendedStays(volumes: seq<Volume>, v: Volume, i: nat)
    requires i < |volumes| && FindId(volumes, v.id).None? && UniqueIds(volumes)
    ensures UniqueIds(volumes + [v]) && volumes[i].id != v.id
  {
    forall j | 0 <= j < |volumes| ensures volumes[j].id != v.id {
      assert volumes[j] in volumes;
    }
  }

  /** Whatever fails in it, a run changes nothing of a volume that is unrelated to it,
      and records none such. */
  lemma UnrelatedStays(site: Site, w: World, r: Replies, i: nat)
    requires UniqueIds(w.volumes) && i < |w.volumes| && Unrelated(site, w, w.volumes[i], r)
    ensures var next := Run(site, w, r);
            && UniqueIds(next.volumes) && i < |next.volumes| && next.volumes[i] == w.volumes[i]
            && w.volumes[i].id != next.recorded
  {
    if Active(site, r) && Unknown(site, w, r) {
      UnrelatedToCreation(site, w, r, i);
    } else if Active(site, r) {
      var id := Resolved(site, w, r).value;
      if w.recorded == "" {
        var k := FindDataIsFirst(site, w.volumes, r.instance.value);
        assert k != i;
      }
      UnrelatedToAttach(w, id, r, i);
    }
  }

  lemma UnrelatedToCreation(site: Site, w: World, r: Replies, i: nat)
    requires UniqueIds(w.volumes) && i < |w.volumes| && w.volumes[i].id != w.recorded
    requires Active(site, r) && Unknown(site, w, r)
    ensures var next := Run(site, w, r);
            && UniqueIds(next.volumes) && i < |next.volumes| && next.volumes[i] == w.volumes[i]
            && w.volumes[i].id != next.recorded
  {
    if Fresh(w.volumes, r.newId) {
      CreatedVolumes(site, w, r);
      AppendedStays(w.volumes, Made(r), i);
      AppendedStays(w.volumes, Made(r).(attachedTo := r.instance), i);
    }
  }

  lemma UnrelatedToAttach(w: World, id: string, r: Replies, i: nat)
    requires UniqueIds(w.volumes) && i < |w.volumes| && r.instance.Some? && w.volumes[i].id != id
    ensures var next := AfterAttach(w, id, false, r).0;
            && UniqueIds(next.volumes) && i < |next.volumes| && next.volumes[i] == w.volumes[i]
            && (next.recorded == w.recorded || next.recorded == id)
  {
  }

  /** Over any runs, a volume that no run of them is related to, be it another guest's
      with whatever name or disk of this bloc's in a pool that is not listed, stays
      where it is and as it was. */
  lemma {:induction false} OthersStayAttached(site: Site, w: World, runs: seq<Replies>, i: nat)
    requires UniqueIds(w.volumes) && i < |w.volumes| && w.volumes[i].id != w.recorded
    requires forall r | r in runs :: r.instance.Some? ==> !site.IsData(w.volumes[i], r.instance.value)
    ensures i < |RunAll(site, w, runs).volumes| && RunAll(site, w, runs).volumes[i] == w.volumes[i]
    decreases |runs|
  {
    if runs != [] {
      assert runs[0] in runs;
      UnrelatedStays(site, w, runs[0], i);
      OthersStayAttached(site, Run(site, w, runs[0]), runs[1..], i);
    }
  }

  /** A run whose calls all work succeeds exactly when the record, if there is one,
      names a volume that exists: a stale record is never replaced. */
  lemma ConvergesExactlyWhen(site: Site, w: World, r: Replies)
    requires Active(site, r) && r.created.ok && r.attached.ok && r.recordOk
    requires Fresh(w.volumes, r.newId) && FindId(w.volumes, "").None?
    ensures Ensured(site, w, r).1 <==> w.recorded == "" || FindId(w.volumes, w.recorded).Some?
  {
    assert Made(r) in w.volumes + [Made(r)];
  }

  // ----- The manager -----

  class Manager {
    const site: Site
    var world: World

    constructor (site: Site, w: World)
      ensures this.site == site && world == w
    {
      this.site, world := site, w;
    }

    method Attach(id: string, created: bool, r: Replies) returns (ok: bool)
      requires r.instance.Some?
      modifies this
      ensures (world, ok) == AfterAttach(old(world), id, created, r)
    {
      var there := FindId(world.volumes, id);
      if there.Some? && r.attached.Applied() {
        world := world.(volumes := AttachTo(world.volumes, id, r.instance.value));
      }
      if there.None? || !r.attached.ok {
        if created && r.deleted.Applied() {
          world := world.(volumes := Without(world.volumes, id));
        }
        return false;
      }
      if id == "" || !r.recordOk { return false; }
      world := world.(recorded := id);
      return true;
    }

    method EnsureBastionDataVolume(r: Replies) returns (ok: bool)
      modifies this
      ensures (world, ok) == Ensured(site, old(world), r)
    {
      if !site.enabled { return true; }
      if !site.hasStorage { return true; }
      if r.instance.None? { return true; }
      var id := Resolved(site, world, r);
      var created := false;
      if id.None? {
        created := true;
        var unused := Fresh(world.volumes, r.newId);
        world := AfterCreate(world, r);
        if !r.created.ok || !unused { return false; }
        id := Some(r.newId);
      }
      ok := Attach(id.value, created, r);
    }
  }

  /** Runs one after another: no volume that was there goes away, and there is a second
      data volume exactly when some run was left to make one. */
  method EnsureAll(site: Site, w: World, runs: seq<Replies>) returns (end: World)
    ensures end == RunAll(site, w, runs)
    ensures forall v :: Has(w.volumes, v) ==> Has(end.volumes, v)
    ensures Count(w.volumes) <= 1 ==> (Count(end.volumes) <= 1 <==> !MakesASecond(site, w, runs))
  {
    var i := 0;
    end := w;
    while i < |runs|
      invariant i <= |runs| && RunAll(site, w, runs) == RunAll(site, end, runs[i..])
    {
      var manager := new Manager(site, end);
      var ok := manager.EnsureBastionDataVolume(runs[i]);
      assert runs[i..][1..] == runs[i + 1..];
      end := if runs[i].kept then manager.world else manager.world.(recorded := end.recorded);
      i := i + 1;
    }
    forall v | Has(w.volumes, v) ensures Has(end.volumes, v) {
      NoEarlierVolumeIsDeleted(site, w, runs, v);
    }
    if Count(w.volumes) <= 1 { NeverASecondExactlyWhen(site, w, runs); }
  }
}
