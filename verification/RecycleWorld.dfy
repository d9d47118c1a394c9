/** What the provider calls of a recycle do to the few facts its safety rests on:
    which guest carries which of the two names, and the data volume itself. */
module RecycleWorld {
  import opened Prelude
  import opened Recycle

  /** The volume a recycle must keep still exists. */
  ghost predicate DataKept(w: World) {
    exists v :: v in w.volumes && v.precious
  }

  /** A guest a recycle works on. */
  ghost predicate Mine(site: Site, w: World, id: nat) {
    id in w.guests && (w.guests[id].name == site.finalName || w.guests[id].name == site.TransientName())
  }

  /** A volume that is not taken for the data volume.  What other guests own may
      carry any name and the same serial; nothing but the data volume goes by the
      recorded id. */
  ghost predicate Ordinary(site: Site, v: Volume, w: World) {
    && (v.owner.Some? && Mine(site, w, v.owner.value) ==> !v.serial && !IsPreserved(v, None))
    && (RecordedId(w.mem).Some? ==> !IsPreserved(v, RecordedId(w.mem)))
    && (RecordedId(w.disk).Some? ==> !IsPreserved(v, RecordedId(w.disk)))
    && forall u :: u in w.volumes && u.precious ==> v.name != u.id
  }

  ghost predicate OneNamed(guests: map<nat, Guest>, name: string) {
    forall i, j | i in guests && j in guests && guests[i].name == name && guests[j].name == name :: i == j
  }

  ghost predicate GuestsOk(site: Site, w: World) {
    && (forall i | i in w.guests :: i < w.nextId)
    && OneNamed(w.guests, site.finalName)
    && OneNamed(w.guests, site.TransientName())
  }

  ghost predicate VolumesOk(site: Site, w: World) {
    && DataKept(w)
    && (forall u, v :: u in w.volumes && v in w.volumes && u.precious && v.precious ==> u == v)
    && (forall u, v :: u in w.volumes && v in w.volumes && u.id == v.id ==> u == v)
    && (forall v :: v in w.volumes && !v.precious ==> Ordinary(site, v, w))
    && (forall v :: v in w.volumes && v.owner.Some? ==> v.owner.value < w.nextId)
    && (forall v :: v in w.volumes ==> v.id != "")
  }

  /** One guest a name, one data volume, and no other volume that could be taken
      for it. */
  ghost predicate WellFormed(site: Site, w: World) {
    GuestsOk(site, w) && VolumesOk(site, w)
  }

  ghost function Data(w: World): (v: Volume)
    requires DataKept(w)
    ensures v in w.volumes && v.precious
  {
    PreciousIn(w.volumes)
  }

  ghost function PreciousIn(volumes: seq<Volume>): (v: Volume)
    requires exists v :: v in volumes && v.precious
    ensures v in volumes && v.precious
  {
    var v :| v in volumes && v.precious; v
  }

  function Final(site: Site, w: World): Option<nat> { FindGuest(w.guests, site.finalName) }

  function Transient(site: Site, w: World): Option<nat> { FindGuest(w.guests, site.TransientName()) }

  /** By its serial or, failing that, by the recorded id or the first name. */
  predicate Recognised(site: Site, v: Volume, f: StateFile) {
    (site.serialLookup && v.serial) || IsPreserved(v, RecordedId(f))
  }

  /** What either of the two guests is found to own is the data volume; and it is
      found whenever it can be recognised. */
  lemma OwnedIsData(site: Site, w: World, guest: nat)
    requires WellFormed(site, w) && Mine(site, w, guest)
    ensures OwnedData(site, w, guest).Some? ==>
              OwnedData(site, w, guest).value == Data(w).id && Data(w).owner == Some(guest)
              && Recognised(site, Data(w), w.mem)
    ensures Data(w).owner == Some(guest) && Recognised(site, Data(w), w.mem) ==> OwnedData(site, w, guest).Some?
  {
  }

  /** The recorded id names the data volume or nothing. */
  lemma RecordedIsData(site: Site, w: World, id: string)
    requires WellFormed(site, w) && (RecordedId(w.mem) == Some(id) || Data(w).id == id)
    ensures FindVolume(w.volumes, id).Some? ==> FindVolume(w.volumes, id).value == Data(w) && Data(w).id == id
  {
  }

  lemma NamesDiffer(site: Site, w: World)
    requires WellFormed(site, w)
    ensures site.finalName != site.TransientName()
    ensures Final(site, w).Some? && Transient(site, w).Some? ==> Final(site, w) != Transient(site, w)
    ensures Final(site, w).Some? ==> Final(site, w).value < w.nextId
    ensures Transient(site, w).Some? ==> Transient(site, w).value < w.nextId
    ensures Data(w).owner.Some? ==> Data(w).owner.value < w.nextId
  {
    assert |site.finalName| != |site.TransientName()|;
  }

  /** Guests may be patched, volumes and records stay. */
  ghost predicate SameNames(site: Site, w: World, next: World) {
    && WellFormed(site, next)
    && Final(site, next) == Final(site, w) && Transient(site, next) == Transient(site, w)
    && next.mem == w.mem
  }

  /** Nothing but memory, file and what no safety fact depends on has changed. */
  ghost predicate SameView(site: Site, w: World, next: World)
    requires DataKept(w)
  {
    SameNames(site, w, next) && Data(next) == Data(w)
  }

  lemma VolumesFrame(site: Site, w: World, next: World)
    requires VolumesOk(site, w) && next.volumes == w.volumes && next.mem == w.mem && next.disk == w.disk
    requires w.nextId <= next.nextId
    requires forall id: nat | id < w.nextId && Mine(site, next, id) :: Mine(site, w, id)
    ensures VolumesOk(site, next)
  {
    forall v | v in next.volumes && !v.precious ensures Ordinary(site, v, next) {
      assert Ordinary(site, v, w);
    }
  }

  /** Starting or stopping a guest. */
  lemma SetRunningView(site: Site, w: World, id: nat, running: bool, s: seq<Reply>)
    requires WellFormed(site, w)
    ensures SameView(site, w, SetRunning(w, id, running, s).w) && SetRunning(w, id, running, s).w.disk == w.disk
  {
    var next := SetRunning(w, id, running, s).w;
    VolumesFrame(site, w, next);
    assert Named(next.guests, site.finalName) == Named(w.guests, site.finalName);
    assert Named(next.guests, site.TransientName()) == Named(w.guests, site.TransientName());
  }

  /** A safety copy changes nothing else. */
  lemma CopyView(site: Site, w: World, s: seq<Reply>)
    requires WellFormed(site, w)
    ensures var next := Copy(w, s).w; SameView(site, w, next) && next.disk == w.disk && next.guests == w.guests
  {
    VolumesFrame(site, w, Copy(w, s).w);
  }

  /** Building the replacement adds a guest that owns nothing. */
  lemma CreateView(site: Site, w: World, s: seq<Reply>)
    requires WellFormed(site, w) && Transient(site, w).None?
    ensures var next := Create(w, site.TransientName(), s).w;
            && WellFormed(site, next) && Data(next) == Data(w) && next.mem == w.mem && next.disk == w.disk
            && Final(site, next) == Final(site, w)
            && (Transient(site, next).Some? ==> Data(w).owner != Transient(site, next))
  {
    NamesDiffer(site, w);
    var next := Create(w, site.TransientName(), s).w;
    VolumesFrame(site, w, next);
    assert Named(next.guests, site.finalName) == Named(w.guests, site.finalName);
  }

  lemma PurgedVolumes(site: Site, w: World, id: nat)
    requires VolumesOk(site, w) && Data(w).owner != Some(id)
    ensures var next := w.(guests := w.guests - {id}, volumes := Purged(w.volumes, id));
            VolumesOk(site, next) && Data(next) == Data(w)
  {
    var next := w.(guests := w.guests - {id}, volumes := Purged(w.volumes, id));
    assert Data(w) in next.volumes;
    forall v | v in next.volumes && !v.precious ensures Ordinary(site, v, next) {
      assert Ordinary(site, v, w);
    }
  }

  /** Deleting a guest that does not hold the data volume leaves the volume as it
      was and the other name where it was. */
  lemma DeleteView(site: Site, w: World, id: nat, s: seq<Reply>)
    requires WellFormed(site, w) && Data(w).owner != Some(id)
    ensures var next := Delete(w, id, s).w;
            && WellFormed(site, next) && Data(next) == Data(w) && next.mem == w.mem && next.disk == w.disk
            && Final(site, next) == (if Final(site, w) == Some(id) && Take(s).Applied() then None else Final(site, w))
            && Transient(site, next) ==
                 (if Transient(site, w) == Some(id) && Take(s).Applied() then None else Transient(site, w))
  {
    if Take(s).Applied() {
      var next := Delete(w, id, s).w;
      PurgedVolumes(site, w, id);
      WithoutName(w.guests, site.finalName, id);
      WithoutName(w.guests, site.TransientName(), id);
    }
  }

  lemma WithoutName(guests: map<nat, Guest>, name: string, id: nat)
    requires OneNamed(guests, name)
    ensures FindGuest(guests - {id}, name) == if FindGuest(guests, name) == Some(id) then None else FindGuest(guests, name)
  {
    if FindGuest(guests, name) != Some(id) {
      assert Named(guests - {id}, name) == Named(guests, name);
    }
  }

  /** Renaming the replacement to a name nobody carries. */
  lemma RenameView(site: Site, w: World, id: nat, s: seq<Reply>)
    requires WellFormed(site, w) && Transient(site, w) == Some(id) && Final(site, w).None?
    ensures var next := Rename(w, id, site.finalName, s).w;
            && WellFormed(site, next) && Data(next) == Data(w) && next.mem == w.mem && next.disk == w.disk
            && (if Take(s).Applied() then Final(site, next) == Some(id) && Transient(site, next).None?
                else Final(site, next).None? && Transient(site, next) == Some(id))
  {
    NamesDiffer(site, w);
    VolumesFrame(site, w, Rename(w, id, site.finalName, s).w);
  }

  lemma ReplacedVolumes(site: Site, w: World, v: Volume)
    requires VolumesOk(site, w) && v.precious && (v.owner.Some? ==> v.owner.value < w.nextId)
    requires (v.id == Data(w).id && v.name == Data(w).name) || (NameFree(w.volumes, v.id) && v.name == v.id)
    ensures var next := w.(volumes := Replaced(w.volumes, Data(w).id, v));
            VolumesOk(site, next) && Data(next) == v
            && forall u :: u in next.volumes && !u.precious ==> u in w.volumes
  {
    var next := w.(volumes := Replaced(w.volumes, Data(w).id, v));
    assert v in next.volumes;
    forall u | u in next.volumes && u != v ensures u in w.volumes && !u.precious && u.id != v.id && u.name != v.id {
      assert u in w.volumes && u.id != Data(w).id;
      assert Ordinary(site, u, w);
    }
    forall u | u in next.volumes && !u.precious ensures Ordinary(site, u, next) {
      assert Ordinary(site, u, w);
    }
  }

  /** Putting a changed data volume in place of the old one keeps the volumes in
      order as long as its new name was free. */
  lemma ReplaceView(site: Site, w: World, v: Volume)
    requires WellFormed(site, w) && v.precious && (v.owner.Some? ==> v.owner.value < w.nextId)
    requires (v.id == Data(w).id && v.name == Data(w).name) || (NameFree(w.volumes, v.id) && v.name == v.id)
    ensures var next := w.(volumes := Replaced(w.volumes, Data(w).id, v));
            WellFormed(site, next) && Data(next) == v && SameNames(site, w, next)
            && forall u :: u in next.volumes && !u.precious ==> u in w.volumes
  {
    ReplacedVolumes(site, w, v);
  }

  lemma SaveView(site: Site, w: World, s: seq<Reply>)
    requires WellFormed(site, w)
    ensures var next := Save(w, s).w;
            && WellFormed(site, next) && SameView(site, w, next)
            && (next.disk == w.mem || next.disk == w.disk || (Take(s).lost && next.disk == NO_STATE))
            && (Save(w, s).status.Fine? ==> next.disk == w.mem)
  {
  }

  /** Changing a record keeps the world well formed while the record names the
      data volume, the volume it replaced, or nothing. */
  lemma MemView(site: Site, w: World, mem: StateFile)
    requires WellFormed(site, w)
    requires RecordedId(mem).None? || RecordedId(mem) == RecordedId(w.mem) || RecordedId(mem) == Some(Data(w).id)
          || (forall v :: v in w.volumes && !v.precious ==> v.id != RecordedId(mem).value && v.name != RecordedId(mem).value)
    ensures var next := w.(mem := mem);
            WellFormed(site, next) && Data(next) == Data(w)
            && Final(site, next) == Final(site, w) && Transient(site, next) == Transient(site, w)
  {
  }
}
