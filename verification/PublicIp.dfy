/** Finding or creating one public address a slot, and recording it
    (internal/bootstrap/publicip.go). */
module PublicIp {
  import opened Prelude

  const MAX_RETRIES: nat := 3

  /** `job` and `index` are labels. */
  datatype Address = Address(id: string, name: string, job: string, index: string)

  /** One job of one bloc; `numbered` says its names end in the slot's number. */
  datatype Site = Site(bloc: string, job: string, prefix: string, numbered: bool) {
    function Name(i: nat): string {
      bloc + "-" + prefix + if numbered then Decimal(i) else ""
    }

    /** isMatchingPublicIP: by name, or by labels that say nothing of the bloc. */
    predicate Matches(a: Address, i: nat) {
      a.name == Name(i) || (a.job == job && a.index == Decimal(i))
    }

    /** No two slots share a name. */
    predicate Separate(count: nat) { numbered || count <= 1 }
  }

  /** `records` are the public_ip resources by name, `outputs` the address of each
      slot, `calls` the slots an address was asked to be created for. */
  datatype World = World(cloud: seq<Address>, records: map<string, string>, outputs: map<nat, string>, calls: seq<nat>)

  /** One try: whether the listing works, whether a creation takes effect and is
      reported as done, and the id it gives. */
  datatype Try = Try(listed: bool, effect: bool, ok: bool, newId: string)

  /** What the three tries of a slot would meet. */
  type Three = s: seq<Try> | |s| == MAX_RETRIES
    witness [Try(false, false, false, ""), Try(false, false, false, ""), Try(false, false, false, "")]

  datatype Plan = Plan(tries: nat -> Three)

  // ----- Decimal numbers -----

  const DIGITS := "0123456789"

  /** strconv.Itoa */
  function Decimal(n: nat): (r: string)
    ensures r != ""
  {
    (if n < 10 then "" else Decimal(n / 10)) + [DIGITS[n % 10]]
  }

  lemma {:induction false} DecimalIsInjective(m: nat, n: nat)
    requires Decimal(m) == Decimal(n)
    ensures m == n
    decreases m
  {
    var dm := if m < 10 then "" else Decimal(m / 10);
    var dn := if n < 10 then "" else Decimal(n / 10);
    assert Decimal(m)[..|dm|] == dm && Decimal(n)[..|dn|] == dn;
    assert Decimal(m)[|dm|] == DIGITS[m % 10] && Decimal(n)[|dn|] == DIGITS[n % 10];
    DigitsDiffer(m % 10, n % 10);
    if m >= 10 && n >= 10 { DecimalIsInjective(m / 10, n / 10); }
  }

  lemma DigitsDiffer(a: nat, b: nat)
    requires a < 10 && b < 10 && DIGITS[a] == DIGITS[b]
    ensures a == b
  {
  }

  lemma NamesAreSeparate(site: Site, count: nat, i: nat, j: nat)
    requires site.Separate(count) && i < count && j < count && site.Name(i) == site.Name(j)
    ensures i == j
  {
    if site.numbered {
      var stem := site.bloc + "-" + site.prefix;
      assert site.Name(i)[|stem|..] == Decimal(i) && site.Name(j)[|stem|..] == Decimal(j);
      DecimalIsInjective(i, j);
    }
  }

  // ----- One slot -----

  function FirstMatch(site: Site, cloud: seq<Address>, i: nat): (r: Option<Address>)
    ensures r.Some? ==> r.value in cloud && site.Matches(r.value, i)
    ensures r.None? ==> forall a :: a in cloud ==> !site.Matches(a, i)
  {
    if cloud == [] then None
    else if site.Matches(cloud[0], i) then Some(cloud[0])
    else FirstMatch(site, cloud[1..], i)
  }

  /** Cloud ids are not reused, not even one that only a record still knows. */
  predicate Fresh(w: World, id: string) {
    && (forall a | a in w.cloud :: a.id != id)
    && (forall name | name in w.records :: w.records[name] != id)
  }

  /** getOrCreatePublicIP: the cloud first, then the state, then a new address. */
  function GetOrCreate(site: Site, w: World, i: nat, t: Try): (World, Option<string>) {
    var found := if t.listed then FirstMatch(site, w.cloud, i) else None;
    if found.Some? then (w, Some(found.value.id))
    else if site.Name(i) in w.records then (w, Some(w.records[site.Name(i)]))
    else
      var asked := w.(calls := w.calls + [i]);
      if !Fresh(w, t.newId) || !(t.effect || t.ok) then (asked, None)
      else (asked.(cloud := w.cloud + [Address(t.newId, site.Name(i), site.job, Decimal(i))]),
            if t.ok then Some(t.newId) else None)
  }

  /** Trying until there is an address or no try is left. */
  function Tries(site: Site, w: World, i: nat, tries: seq<Try>): (World, Option<string>)
    decreases |tries|
  {
    if tries == [] then (w, None)
    else
      var (next, id) := GetOrCreate(site, w, i, tries[0]);
      if id.Some? then (next, id) else Tries(site, next, i, tries[1..])
  }

  // ----- All slots -----

  datatype Obtained = Obtained(index: nat, id: string)

  datatype Pass = Pass(w: World, recorded: seq<Obtained>, failed: seq<nat>)

  function SlotStep(site: Site, pass: Pass, i: nat, plan: Plan): Pass {
    var (next, id) := Tries(site, pass.w, i, plan.tries(i));
    if id.Some? then Pass(next, pass.recorded + [Obtained(i, id.value)], pass.failed)
    else Pass(next, pass.recorded, pass.failed + [i])
  }

  /** The pass over the first `count` slots. */
  function Slots(site: Site, w: World, count: nat, plan: Plan): Pass {
    if count == 0 then Pass(w, [], []) else SlotStep(site, Slots(site, w, count - 1, plan), count - 1, plan)
  }

  /** A resource without an id is refused, with a log line only. */
  function Recorded(site: Site, w: World, o: Obtained): World {
    w.(records := if o.id == "" then w.records else w.records[site.Name(o.index) := o.id],
       outputs := w.outputs[o.index := o.id])
  }

  function AllRecorded(site: Site, w: World, recorded: seq<Obtained>): World {
    if recorded == [] then w
    else Recorded(site, AllRecorded(site, w, recorded[..|recorded| - 1]), recorded[|recorded| - 1])
  }

  /** ensureAndRecordPublicIPs; the error is nil when nothing failed. */
  function Ensured(site: Site, w: World, count: nat, plan: Plan): Pass {
    var pass := Slots(site, w, count, plan);
    pass.(w := AllRecorded(site, pass.w, pass.recorded))
  }

  // ----- Recorded or failed -----

  predicate Increasing(recorded: seq<Obtained>) {
    forall j, k :: 0 <= j < k < |recorded| ==> recorded[j].index < recorded[k].index
  }

  predicate AllBelow(recorded: seq<Obtained>, count: nat) {
    forall k :: 0 <= k < |recorded| ==> recorded[k].index < count
  }

  predicate HasIndex(recorded: seq<Obtained>, i: nat) {
    exists k :: 0 <= k < |recorded| && recorded[k].index == i
  }

  /** Slots below `count` are each recorded or failed, and not both. */
  ghost predicate Partition(pass: Pass, count: nat) {
    && Increasing(pass.recorded)
    && AllBelow(pass.recorded, count)
    && (forall k :: 0 <= k < |pass.failed| ==> pass.failed[k] < count)
    && (forall i: nat :: i < count ==> (HasIndex(pass.recorded, i) <==> i !in pass.failed))
  }

  lemma {:induction false} SlotsPartition(site: Site, w: World, count: nat, plan: Plan)
    ensures Partition(Slots(site, w, count, plan), count)
  {
    if count == 0 {
      NothingYet(w);
    } else {
      SlotsPartition(site, w, count - 1, plan);
      StepPartition(site, Slots(site, w, count - 1, plan), count - 1, plan);
    }
  }

  lemma NothingYet(w: World)
    ensures Partition(Pass(w, [], []), 0)
  {
  }

  lemma StepPartition(site: Site, before: Pass, last: nat, plan: Plan)
    requires Partition(before, last)
    ensures Partition(SlotStep(site, before, last, plan), last + 1)
  {
    var after := SlotStep(site, before, last, plan);
    forall i: nat | i <= last ensures HasIndex(after.recorded, i) <==> i !in after.failed {
      if HasIndex(before.recorded, i) {
        var k :| 0 <= k < |before.recorded| && before.recorded[k].index == i;
        assert after.recorded[k].index == i;
      }
      if i == last && |after.recorded| > |before.recorded| {
        assert after.recorded[|before.recorded|].index == i;
      }
      if HasIndex(after.recorded, i) {
        var k :| 0 <= k < |after.recorded| && after.recorded[k].index == i;
        assert k < |before.recorded| ==> before.recorded[k].index == i;
      }
    }
  }

  // ----- What is written -----

  ghost predicate OutputsWritten(w: World, end: World, recorded: seq<Obtained>) {
    && (forall k :: 0 <= k < |recorded| ==>
          recorded[k].index in end.outputs && end.outputs[recorded[k].index] == recorded[k].id)
    && (forall i | !HasIndex(recorded, i) :: (i in end.outputs) == (i in w.outputs)
          && (i in w.outputs ==> end.outputs[i] == w.outputs[i]))
  }

  predicate NamedBy(site: Site, recorded: seq<Obtained>, name: string) {
    exists k :: 0 <= k < |recorded| && site.Name(recorded[k].index) == name && recorded[k].id != ""
  }

  ghost predicate RecordsWritten(site: Site, w: World, end: World, recorded: seq<Obtained>) {
    && (forall k :: 0 <= k < |recorded| && recorded[k].id != "" ==>
          var name := site.Name(recorded[k].index); name in end.records && end.records[name] == recorded[k].id)
    && (forall name | !NamedBy(site, recorded, name) :: (name in end.records) == (name in w.records)
          && (name in w.records ==> end.records[name] == w.records[name]))
  }

  /** Every recorded slot has its own id in its output and, unless the id is empty,
      in its record; nothing else is written. */
  ghost predicate Written(site: Site, w: World, end: World, recorded: seq<Obtained>) {
    && end.cloud == w.cloud && end.calls == w.calls
    && OutputsWritten(w, end, recorded) && RecordsWritten(site, w, end, recorded)
  }

  lemma {:induction false} RecordingWrites(site: Site, w: World, recorded: seq<Obtained>, count: nat)
    requires site.Separate(count) && Increasing(recorded) && AllBelow(recorded, count)
    ensures Written(site, w, AllRecorded(site, w, recorded), recorded)
    decreases |recorded|
  {
    if recorded != [] {
      var n := |recorded| - 1;
      var before, last := recorded[..n], recorded[n];
      RecordingWrites(site, w, before, count);
      assert recorded == before + [last];
      var mid := AllRecorded(site, w, before);
      assert AllRecorded(site, w, recorded) == Recorded(site, mid, last);
      LastOutput(site, w, mid, before, last);
      LastRecord(site, w, mid, before, last, count);
    }
  }

  lemma LastOutput(site: Site, w: World, mid: World, before: seq<Obtained>, last: Obtained)
    requires Increasing(before + [last]) && OutputsWritten(w, mid, before)
    ensures OutputsWritten(w, Recorded(site, mid, last), before + [last])
  {
    var recorded := before + [last];
    assert recorded[|before|] == last;
    forall k | 0 <= k < |before| ensures before[k].index != last.index {
      assert recorded[k] == before[k];
    }
    forall i | HasIndex(before, i) ensures HasIndex(recorded, i) {
      var k :| 0 <= k < |before| && before[k].index == i;
      assert recorded[k].index == i;
    }
  }

  lemma NamesApart(site: Site, before: seq<Obtained>, last: Obtained, count: nat)
    requires site.Separate(count) && Increasing(before + [last]) && AllBelow(before + [last], count)
    ensures forall k :: 0 <= k < |before| ==> site.Name(before[k].index) != site.Name(last.index)
  {
    var recorded := before + [last];
    assert recorded[|before|] == last;
    forall k | 0 <= k < |before| ensures site.Name(before[k].index) != site.Name(last.index) {
      assert recorded[k] == before[k];
      if site.Name(before[k].index) == site.Name(last.index) {
        NamesAreSeparate(site, count, before[k].index, last.index);
      }
    }
  }

  lemma NamedByMore(site: Site, before: seq<Obtained>, last: Obtained, name: string)
    ensures NamedBy(site, before + [last], name) <==>
              NamedBy(site, before, name) || (site.Name(last.index) == name && last.id != "")
  {
    var recorded := before + [last];
    assert recorded[|before|] == last;
    if NamedBy(site, before, name) {
      var k :| 0 <= k < |before| && site.Name(before[k].index) == name && before[k].id != "";
      assert recorded[k] == before[k];
    }
  }

  lemma LastRecord(site: Site, w: World, mid: World, before: seq<Obtained>, last: Obtained, count: nat)
    requires site.Separate(count) && Increasing(before + [last]) && AllBelow(before + [last], count)
    requires RecordsWritten(site, w, mid, before)
    ensures RecordsWritten(site, w, Recorded(site, mid, last), before + [last])
  {
    NamesApart(site, before, last, count);
    forall name ensures NamedBy(site, before + [last], name) <==>
                          NamedBy(site, before, name) || (site.Name(last.index) == name && last.id != "")
    {
      NamedByMore(site, before, last, name);
    }
  }

  /** Whatever its siblings do, each requested slot is recorded under its own index,
      in its own output and its own record, or is named in the error; and the error
      is nil exactly when every slot is recorded. */
  lemma EverySlotRecordedOrFailed(site: Site, w: World, count: nat, plan: Plan)
    requires site.Separate(count)
    ensures var end := Ensured(site, w, count, plan);
            && Partition(end, count)
            && Written(site, Slots(site, w, count, plan).w, end.w, end.recorded)
            && (end.failed == [] <==> forall i: nat :: i < count ==> HasIndex(end.recorded, i))
  {
    SlotsPartition(site, w, count, plan);
    var pass := Slots(site, w, count, plan);
    RecordingWrites(site, pass.w, pass.recorded, count);
    if pass.failed != [] { assert pass.failed[0] in pass.failed; }
  }

  // ----- Whose address a slot gets -----

  /** The `k`-th address of the cloud matches the slot and has the id. */
  predicate InCloud(site: Site, w: World, o: Obtained, k: nat) {
    k < |w.cloud| && site.Matches(w.cloud[k], o.index) && w.cloud[k].id == o.id
  }

  function RecordedFor(site: Site, w: World, i: nat): Option<string> {
    if site.Name(i) in w.records then Some(w.records[site.Name(i)]) else None
  }

  /** The id is that of an address in the cloud that matches the slot, or the one its
      record has had all along. */
  ghost predicate Belongs(site: Site, w: World, o: Obtained) {
    (exists k: nat :: InCloud(site, w, o, k)) || RecordedFor(site, w, o.index) == Some(o.id)
  }

  lemma {:induction false} ObtainedBelongs(site: Site, w: World, i: nat, tries: seq<Try>)
    requires Tries(site, w, i, tries).1.Some?
    ensures Belongs(site, Tries(site, w, i, tries).0, Obtained(i, Tries(site, w, i, tries).1.value))
    decreases |tries|
  {
    var (next, id) := GetOrCreate(site, w, i, tries[0]);
    if id.None? {
      ObtainedBelongs(site, next, i, tries[1..]);
    } else if next != w {
      assert InCloud(site, next, Obtained(i, id.value), |w.cloud|);
    } else if tries[0].listed && FirstMatch(site, w.cloud, i).Some? {
      var k :| 0 <= k < |w.cloud| && w.cloud[k] == FirstMatch(site, w.cloud, i).value;
      assert InCloud(site, w, Obtained(i, id.value), k);
    }
  }

  lemma BelongingStays(site: Site, w: World, next: World, o: Obtained)
    requires Belongs(site, w, o) && Grows(w, next)
    ensures Belongs(site, next, o)
  {
    if k: nat :| InCloud(site, w, o, k) {
      assert next.cloud[..|w.cloud|][k] == next.cloud[k];
      assert InCloud(site, next, o, k);
    }
  }

  /** Every address obtained matches its own slot, by name or labels, or is the one
      already on record for it; whether a sibling gets it too is another matter. */
  lemma {:induction false} EverySlotGetsItsOwn(site: Site, w: World, count: nat, plan: Plan)
    ensures forall k :: 0 <= k < |Slots(site, w, count, plan).recorded| ==>
              Belongs(site, Slots(site, w, count, plan).w, Slots(site, w, count, plan).recorded[k])
  {
    if count > 0 {
      EverySlotGetsItsOwn(site, w, count - 1, plan);
      var before := Slots(site, w, count - 1, plan);
      var after := SlotStep(site, before, count - 1, plan);
      TriesGrow(site, before.w, count - 1, plan.tries(count - 1));
      forall k | 0 <= k < |after.recorded| ensures Belongs(site, after.w, after.recorded[k]) {
        if k < |before.recorded| {
          BelongingStays(site, before.w, after.w, before.recorded[k]);
        } else {
          ObtainedBelongs(site, before.w, count - 1, plan.tries(count - 1));
        }
      }
    }
  }

  // ----- At most three creations a slot -----

  lemma {:induction false} TriesCalls(site: Site, w: World, i: nat, tries: seq<Try>, j: nat)
    ensures var next := Tries(site, w, i, tries).0;
            multiset(next.calls)[j] <= multiset(w.calls)[j] + if i == j then |tries| else 0
    decreases |tries|
  {
    if tries != [] {
      var (next, id) := GetOrCreate(site, w, i, tries[0]);
      assert next.calls == w.calls || next.calls == w.calls + [i];
      if id.None? { TriesCalls(site, next, i, tries[1..], j); }
    }
  }

  lemma {:induction false} AtMostThreeCreations(site: Site, w: World, count: nat, plan: Plan, j: nat)
    ensures multiset(Slots(site, w, count, plan).w.calls)[j]
         <= multiset(w.calls)[j] + if j < count then MAX_RETRIES else 0
  {
    if count > 0 {
      AtMostThreeCreations(site, w, count - 1, plan, j);
      TriesCalls(site, Slots(site, w, count - 1, plan).w, count - 1, plan.tries(count - 1), j);
    }
  }

  // ----- When a slot fails -----

  /** The ids these tries would give are new, and differ. */
  predicate FreshTries(w: World, tries: seq<Try>) {
    && (forall k :: 0 <= k < |tries| ==> Fresh(w, tries[k].newId))
    && forall j, k :: 0 <= j < k < |tries| ==> tries[j].newId != tries[k].newId
  }

  /** One of the tries finds an address in a listing that works, there from the start or
      made by an earlier try that was not told so, or is told it made one. */
  predicate Helps(tries: seq<Try>, there: bool, k: nat) {
    k < |tries| && (tries[k].ok || (tries[k].listed && (there || exists j :: 0 <= j < k && tries[j].effect)))
  }

  predicate AnyHelps(tries: seq<Try>, there: bool) {
    exists k: nat | k < |tries| :: Helps(tries, there, k)
  }

  lemma HelpsShifts(tries: seq<Try>, there: bool, k: nat)
    requires tries != []
    ensures Helps(tries[1..], there || tries[0].effect, k) <==> Helps(tries, there, k + 1)
  {
    if k + 1 < |tries| {
      assert tries[1..][k] == tries[k + 1];
      forall j | 0 <= j < k && tries[1..][j].effect ensures tries[j + 1].effect {}
      forall j | 0 <= j < k + 1 && tries[j].effect ensures j == 0 || tries[1..][j - 1].effect {}
    }
  }

  lemma AnyHelpsStep(tries: seq<Try>, there: bool)
    requires tries != []
    ensures AnyHelps(tries, there) <==> Helps(tries, there, 0) || AnyHelps(tries[1..], there || tries[0].effect)
  {
    var rest, now := tries[1..], there || tries[0].effect;
    forall k: nat ensures Helps(rest, now, k) <==> Helps(tries, there, k + 1) {
      HelpsShifts(tries, there, k);
    }
    if k: nat :| k < |tries| && Helps(tries, there, k) && k > 0 {
      assert Helps(rest, now, k - 1);
    }
  }

  /** A slot without a record fails exactly when none of its tries helps: never before
      all of them have been used up. */
  lemma {:induction false} SlotFailsExactlyWhen(site: Site, w: World, i: nat, tries: seq<Try>)
    requires site.Name(i) !in w.records && FreshTries(w, tries)
    ensures Tries(site, w, i, tries).1.None? <==> !AnyHelps(tries, FirstMatch(site, w.cloud, i).Some?)
    decreases |tries|
  {
    if tries != [] {
      AnyHelpsStep(tries, FirstMatch(site, w.cloud, i).Some?);
      var (next, id) := GetOrCreate(site, w, i, tries[0]);
      if id.None? {
        AfterOneTry(site, w, i, tries);
        SlotFailsExactlyWhen(site, next, i, tries[1..]);
      }
    }
  }

  lemma AfterOneTry(site: Site, w: World, i: nat, tries: seq<Try>)
    requires tries != [] && site.Name(i) !in w.records && FreshTries(w, tries)
    requires GetOrCreate(site, w, i, tries[0]).1.None?
    ensures var next := GetOrCreate(site, w, i, tries[0]).0;
            && next.records == w.records && FreshTries(next, tries[1..])
            && (FirstMatch(site, next.cloud, i).Some? <==> FirstMatch(site, w.cloud, i).Some? || tries[0].effect)
  {
    var next := GetOrCreate(site, w, i, tries[0]).0;
    forall k | 0 <= k < |tries| - 1 ensures Fresh(next, tries[1..][k].newId) {
      assert Fresh(w, tries[k + 1].newId);
    }
    if tries[0].effect {
      var a := next.cloud[|w.cloud|];
      assert a in next.cloud && site.Matches(a, i);
    } else {
      assert next.cloud == w.cloud;
    }
  }

  // ----- Re-running -----

  /** Later worlds know every address and every record earlier ones did. */
  predicate Grows(w: World, next: World) {
    && |w.cloud| <= |next.cloud| && next.cloud[..|w.cloud|] == w.cloud
    && next.records == w.records
  }

  lemma {:induction false} TriesGrow(site: Site, w: World, i: nat, tries: seq<Try>)
    ensures Grows(w, Tries(site, w, i, tries).0)
    decreases |tries|
  {
    if tries != [] {
      var (next, id) := GetOrCreate(site, w, i, tries[0]);
      if id.None? {
        TriesGrow(site, next, i, tries[1..]);
        GrowsTransitive(w, next, Tries(site, next, i, tries[1..]).0);
      }
    }
  }

  lemma GrowsTransitive(a: World, b: World, c: World)
    requires Grows(a, b) && Grows(b, c)
    ensures Grows(a, c)
  {
    assert c.cloud[..|a.cloud|] == c.cloud[..|b.cloud|][..|a.cloud|];
  }

  lemma {:induction false} SlotsGrow(site: Site, w: World, count: nat, plan: Plan)
    ensures Grows(w, Slots(site, w, count, plan).w)
  {
    if count > 0 {
      var before := Slots(site, w, count - 1, plan);
      SlotsGrow(site, w, count - 1, plan);
      TriesGrow(site, before.w, count - 1, plan.tries(count - 1));
      GrowsTransitive(w, before.w, Slots(site, w, count, plan).w);
    }
  }

  /** The slot's address can be found again: in the cloud, or by its record. */
  ghost predicate Known(site: Site, w: World, i: nat) {
    FirstMatch(site, w.cloud, i).Some? || site.Name(i) in w.records
  }

  lemma {:induction false} ObtainedIsKnown(site: Site, w: World, i: nat, tries: seq<Try>)
    requires Tries(site, w, i, tries).1.Some?
    ensures Known(site, Tries(site, w, i, tries).0, i)
    decreases |tries|
  {
    var (next, id) := GetOrCreate(site, w, i, tries[0]);
    if id.None? {
      ObtainedIsKnown(site, next, i, tries[1..]);
    } else if next != w {
      assert site.Matches(next.cloud[|w.cloud|], i);
    }
  }

  lemma KnownStays(site: Site, w: World, next: World, i: nat)
    requires Known(site, w, i) && Grows(w, next)
    ensures Known(site, next, i)
  {
    if FirstMatch(site, w.cloud, i).Some? {
      assert FirstMatch(site, w.cloud, i).value in next.cloud[..|w.cloud|];
    }
  }

  lemma {:induction false} RecordedAreKnown(site: Site, w: World, count: nat, plan: Plan)
    ensures forall o | o in Slots(site, w, count, plan).recorded :: Known(site, Slots(site, w, count, plan).w, o.index)
  {
    if count > 0 {
      RecordedAreKnown(site, w, count - 1, plan);
      var before := Slots(site, w, count - 1, plan);
      var after := SlotStep(site, before, count - 1, plan);
      TriesGrow(site, before.w, count - 1, plan.tries(count - 1));
      forall o | o in after.recorded ensures Known(site, after.w, o.index) {
        if o in before.recorded {
          KnownStays(site, before.w, after.w, o.index);
        } else {
          ObtainedIsKnown(site, before.w, count - 1, plan.tries(count - 1));
        }
      }
    }
  }

  /** A rerun can see the slot: by its record, or in a listing that works. */
  ghost predicate Visible(site: Site, w: World, i: nat, t: Try) {
    site.Name(i) in w.records || (t.listed && FirstMatch(site, w.cloud, i).Some?)
  }

  lemma VisibleIsGiven(site: Site, w: World, before: World, i: nat, plan: Plan)
    requires Grows(w, before) && Visible(site, w, i, plan.tries(i)[0])
    ensures Tries(site, before, i, plan.tries(i)).0 == before
    ensures Tries(site, before, i, plan.tries(i)).1.Some?
  {
    if FirstMatch(site, w.cloud, i).Some? {
      assert FirstMatch(site, w.cloud, i).value in before.cloud[..|w.cloud|];
    }
    assert GetOrCreate(site, before, i, plan.tries(i)[0]).1.Some?;
  }

  lemma VisibleStep(site: Site, w: World, before: Pass, j: nat, plan: Plan)
    requires Grows(w, before.w) && Visible(site, w, j, plan.tries(j)[0])
    ensures SlotStep(site, before, j, plan).w == before.w && HasIndex(SlotStep(site, before, j, plan).recorded, j)
  {
    VisibleIsGiven(site, w, before.w, j, plan);
    assert SlotStep(site, before, j, plan).recorded[|before.recorded|].index == j;
  }

  lemma {:induction false} RerunCallsOnlyUnseen(site: Site, w: World, count: nat, plan: Plan, j: nat)
    requires j < count ==> Visible(site, w, j, plan.tries(j)[0])
    ensures multiset(Slots(site, w, count, plan).w.calls)[j] == multiset(w.calls)[j]
    ensures j < count ==> HasIndex(Slots(site, w, count, plan).recorded, j)
  {
    if count > 0 {
      var before := Slots(site, w, count - 1, plan);
      var after := SlotStep(site, before, count - 1, plan);
      RerunCallsOnlyUnseen(site, w, count - 1, plan, j);
      SlotsGrow(site, w, count - 1, plan);
      if j == count - 1 {
        VisibleStep(site, w, before, j, plan);
      } else {
        OtherSlotsCalls(site, before, count - 1, plan, j);
        if j < count { StillHasIndex(site, before, count - 1, plan, j); }
      }
    }
  }

  lemma OtherSlotsCalls(site: Site, before: Pass, i: nat, plan: Plan, j: nat)
    requires i != j
    ensures multiset(SlotStep(site, before, i, plan).w.calls)[j] == multiset(before.w.calls)[j]
  {
    TriesCalls(site, before.w, i, plan.tries(i), j);
    TriesNeverUncall(site, before.w, i, plan.tries(i), j);
  }

  lemma StillHasIndex(site: Site, before: Pass, i: nat, plan: Plan, j: nat)
    requires HasIndex(before.recorded, j)
    ensures HasIndex(SlotStep(site, before, i, plan).recorded, j)
  {
    var k :| 0 <= k < |before.recorded| && before.recorded[k].index == j;
    assert SlotStep(site, before, i, plan).recorded[k].index == j;
  }

  lemma {:induction false} TriesNeverUncall(site: Site, w: World, i: nat, tries: seq<Try>, j: nat)
    ensures multiset(Tries(site, w, i, tries).0.calls)[j] >= multiset(w.calls)[j]
    decreases |tries|
  {
    if tries != [] {
      var (next, id) := GetOrCreate(site, w, i, tries[0]);
      if id.None? { TriesNeverUncall(site, next, i, tries[1..], j); }
    }
  }

  /** A rerun against the cloud and the state a run left asks for no address for a
      slot that run recorded, and gets it again, whatever else fails: an empty id
      has no record, and needs its listing to work. */
  lemma RerunCreatesNothingForRecorded(site: Site, w: World, count: nat, plan: Plan, again: Plan, o: Obtained)
    requires site.Separate(count) && o in Ensured(site, w, count, plan).recorded
    requires o.id != "" || again.tries(o.index)[0].listed
    ensures var first := Ensured(site, w, count, plan).w;
            var second := Ensured(site, first, count, again);
            && multiset(second.w.calls)[o.index] == multiset(first.calls)[o.index]
            && HasIndex(second.recorded, o.index)
  {
    var pass, first := Slots(site, w, count, plan), Ensured(site, w, count, plan).w;
    EverySlotRecordedOrFailed(site, w, count, plan);
    RecordedAreKnown(site, w, count, plan);
    assert Known(site, pass.w, o.index);
    RerunCallsOnlyUnseen(site, first, count, again, o.index);
    EverySlotRecordedOrFailed(site, first, count, again);
  }

  // ----- The manager -----

  class Manager {
    const site: Site
    var world: World

    constructor (site: Site, w: World)
      ensures this.site == site && world == w
    {
      this.site, world := site, w;
    }

    method GetOrCreatePublicIP(i: nat, t: Try) returns (id: Option<string>)
      modifies this
      ensures (world, id) == GetOrCreate(site, old(world), i, t)
    {
      if t.listed {
        var found := FirstMatch(site, world.cloud, i);
        if found.Some? { return Some(found.value.id); }
      }
      var name := site.Name(i);
      if name in world.records { return Some(world.records[name]); }
      var isFresh := Fresh(world, t.newId);
      world := world.(calls := world.calls + [i]);
      if isFresh && (t.effect || t.ok) {
        world := world.(cloud := world.cloud + [Address(t.newId, name, site.job, Decimal(i))]);
        if t.ok { return Some(t.newId); }
      }
      return None;
    }

    method SavePublicIPsToState(recorded: seq<Obtained>)
      modifies this
      ensures world == AllRecorded(site, old(world), recorded)
    {
      var k := 0;
      while k < |recorded|
        invariant k <= |recorded| && world == AllRecorded(site, old(world), recorded[..k])
      {
        var o := recorded[k];
        if o.id != "" { world := world.(records := world.records[site.Name(o.index) := o.id]); }
        world := world.(outputs := world.outputs[o.index := o.id]);
        assert recorded[..k + 1][..k] == recorded[..k] && recorded[..k + 1][k] == o;
        k := k + 1;
      }
      assert recorded[..k] == recorded;
    }

    method EnsureAndRecordPublicIPs(count: nat, plan: Plan) returns (recorded: seq<Obtained>, failed: seq<nat>)
      modifies this
      ensures Pass(world, recorded, failed) == Ensured(site, old(world), count, plan)
      ensures site.Separate(count) ==>
                && Partition(Pass(world, recorded, failed), count)
                && (failed == [] <==> forall i: nat :: i < count ==> HasIndex(recorded, i))
    {
      recorded, failed := [], [];
      var index := 0;
      while index < count
        invariant index <= count && Pass(world, recorded, failed) == Slots(site, old(world), index, plan)
      {
        ghost var before := world;
        var id: Option<string>, attempt := None, 0;
        while attempt < MAX_RETRIES && id.None?
          invariant attempt <= MAX_RETRIES && (attempt == 0 ==> id.None?)
          invariant Tries(site, before, index, plan.tries(index))
                 == if id.Some? then (world, id) else Tries(site, world, index, plan.tries(index)[attempt..])
        {
          id := GetOrCreatePublicIP(index, plan.tries(index)[attempt]);
          assert plan.tries(index)[attempt..][1..] == plan.tries(index)[attempt + 1..];
          attempt := attempt + 1;
        }
        if id.Some? {
          recorded := recorded + [Obtained(index, id.value)];
        } else {
          failed := failed + [index];
        }
        index := index + 1;
      }
      SavePublicIPsToState(recorded);
      if site.Separate(count) { EverySlotRecordedOrFailed(site, old(world), count, plan); }
    }
  }
}
