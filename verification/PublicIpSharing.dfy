/** When two slots are given one address, and whose address a slot is given
    (internal/bootstrap/publicip.go, matchPublicIP and isMatchingPublicIP). */
module PublicIpSharing {
  import opened Prelude
  import opened PublicIp

  // ----- Where nothing is mixed up -----

  predicate UniqueIds(cloud: seq<Address>) {
    forall j, k :: 0 <= j < k < |cloud| ==> cloud[j].id != cloud[k].id
  }

  /** This address matches at most one of the slots. */
  ghost predicate MatchesOne(site: Site, a: Address, count: nat) {
    forall i: nat, j: nat | i < count && j < count && site.Matches(a, i) && site.Matches(a, j) :: i == j
  }

  /** No record of a slot names this address unless it matches that slot alone. */
  ghost predicate RecordedForOne(site: Site, w: World, a: Address, count: nat) {
    forall i: nat, j: nat | i < count && j < count && RecordedFor(site, w, i) == Some(a.id) && site.Matches(a, j) :: i == j
  }

  ghost predicate DistinctRecords(site: Site, w: World, count: nat) {
    forall i: nat, j: nat | i < count && j < count && RecordedFor(site, w, i).Some?
      && RecordedFor(site, w, i) == RecordedFor(site, w, j) :: i == j
  }

  /** No address matches two slots, no two slots have the same recorded id, and no
      recorded id is that of an address that matches another slot. */
  ghost predicate Unmixed(site: Site, w: World, count: nat) {
    && UniqueIds(w.cloud) && DistinctRecords(site, w, count)
    && forall k :: 0 <= k < |w.cloud| ==>
         MatchesOne(site, w.cloud[k], count) && RecordedForOne(site, w, w.cloud[k], count)
  }

  function Made(site: Site, i: nat, id: string): Address { Address(id, site.Name(i), site.job, Decimal(i)) }

  /** An address made for one slot matches no other. */
  lemma MadeMatchesOnly(site: Site, count: nat, m: nat, i: nat, id: string)
    requires site.Separate(count) && m < count && i < count && site.Matches(Made(site, m, id), i)
    ensures i == m
  {
    if site.Name(m) == site.Name(i) { NamesAreSeparate(site, count, m, i); } else { DecimalIsInjective(m, i); }
  }

  /** A world in which one more address has been made. */
  ghost predicate Appended(site: Site, w: World, next: World, m: nat, id: string) {
    Fresh(w, id) && next.cloud == w.cloud + [Made(site, m, id)] && next.records == w.records
  }

  lemma AppendKeepsUnique(site: Site, w: World, next: World, m: nat, id: string)
    requires UniqueIds(w.cloud) && Appended(site, w, next, m, id)
    ensures UniqueIds(next.cloud)
  {
    forall k | 0 <= k < |w.cloud| ensures w.cloud[k].id != id {
      assert w.cloud[k] in w.cloud;
    }
  }

  lemma AppendKeepsUnmixed(site: Site, w: World, next: World, count: nat, m: nat, id: string)
    requires site.Separate(count) && m < count && Unmixed(site, w, count) && Appended(site, w, next, m, id)
    ensures Unmixed(site, next, count)
  {
    AppendKeepsUnique(site, w, next, m, id);
    forall i: nat, j: nat | i < count && j < count && site.Matches(Made(site, m, id), i) && site.Matches(Made(site, m, id), j)
      ensures i == j
    {
      MadeMatchesOnly(site, count, m, i, id);
      MadeMatchesOnly(site, count, m, j, id);
    }
    forall i: nat ensures RecordedFor(site, next, i) == RecordedFor(site, w, i) && RecordedFor(site, w, i) != Some(id) {}
    forall k | 0 <= k < |next.cloud|
      ensures MatchesOne(site, next.cloud[k], count) && RecordedForOne(site, next, next.cloud[k], count)
    {
      assert k < |w.cloud| ==> RecordedForOne(site, w, w.cloud[k], count);
    }
  }

  /** What a try does to cloud and records. */
  lemma OneTry(site: Site, w: World, i: nat, t: Try)
    ensures var next := GetOrCreate(site, w, i, t).0;
            (next.cloud == w.cloud && next.records == w.records) || Appended(site, w, next, i, t.newId)
  {
  }

  lemma SameKeepsUnmixed(site: Site, w: World, next: World, count: nat)
    requires Unmixed(site, w, count) && next.cloud == w.cloud && next.records == w.records
    ensures Unmixed(site, next, count)
  {
    forall i: nat ensures RecordedFor(site, next, i) == RecordedFor(site, w, i) {}
    forall k | 0 <= k < |next.cloud| ensures RecordedForOne(site, next, next.cloud[k], count) {
      assert RecordedForOne(site, w, w.cloud[k], count);
    }
  }

  lemma {:induction false} TriesKeepUnmixed(site: Site, w: World, count: nat, m: nat, tries: seq<Try>)
    requires site.Separate(count) && m < count && Unmixed(site, w, count)
    ensures Unmixed(site, Tries(site, w, m, tries).0, count)
    decreases |tries|
  {
    if tries != [] {
      var (next, id) := GetOrCreate(site, w, m, tries[0]);
      OneTry(site, w, m, tries[0]);
      if Appended(site, w, next, m, tries[0].newId) {
        AppendKeepsUnmixed(site, w, next, count, m, tries[0].newId);
      } else {
        SameKeepsUnmixed(site, w, next, count);
      }
      if id.None? { TriesKeepUnmixed(site, next, count, m, tries[1..]); }
    }
  }

  lemma {:induction false} SlotsKeepUnmixed(site: Site, w: World, upTo: nat, count: nat, plan: Plan)
    requires site.Separate(count) && upTo <= count && Unmixed(site, w, count)
    ensures Unmixed(site, Slots(site, w, upTo, plan).w, count)
    decreases upTo
  {
    if upTo > 0 {
      SlotsKeepUnmixed(site, w, upTo - 1, count, plan);
      TriesKeepUnmixed(site, Slots(site, w, upTo - 1, plan).w, count, upTo - 1, plan.tries(upTo - 1));
    }
  }

  lemma BelongToOne(site: Site, w: World, count: nat, o: Obtained, p: Obtained)
    requires Unmixed(site, w, count) && o.index < count && p.index < count
    requires Belongs(site, w, o) && Belongs(site, w, p) && o.id == p.id
    ensures o.index == p.index
  {
    forall k: nat, l: nat | InCloud(site, w, o, k) && InCloud(site, w, p, l) ensures o.index == p.index {
      assert k == l && MatchesOne(site, w.cloud[k], count);
    }
    forall k: nat | InCloud(site, w, o, k) && RecordedFor(site, w, p.index) == Some(p.id) ensures o.index == p.index {
      assert RecordedForOne(site, w, w.cloud[k], count);
    }
    forall k: nat | InCloud(site, w, p, k) && RecordedFor(site, w, o.index) == Some(o.id) ensures o.index == p.index {
      assert RecordedForOne(site, w, w.cloud[k], count);
    }
  }

  /** Where nothing is mixed up to begin with, different slots get different addresses,
      whatever fails. */
  lemma DifferentSlotsDifferentAddresses(site: Site, w: World, count: nat, plan: Plan)
    requires site.Separate(count) && Unmixed(site, w, count)
    ensures var recorded := Ensured(site, w, count, plan).recorded;
            forall k, l :: 0 <= k < l < |recorded| ==> recorded[k].id != recorded[l].id
  {
    var pass := Slots(site, w, count, plan);
    SlotsPartition(site, w, count, plan);
    SlotsKeepUnmixed(site, w, count, count, plan);
    EverySlotGetsItsOwn(site, w, count, plan);
    forall k, l | 0 <= k < l < |pass.recorded| ensures pass.recorded[k].id != pass.recorded[l].id {
      if pass.recorded[k].id == pass.recorded[l].id {
        BelongToOne(site, pass.w, count, pass.recorded[k], pass.recorded[l]);
      }
    }
  }

  // ----- Where listings decide -----

  lemma {:induction false} FirstMatchStays(site: Site, cloud: seq<Address>, more: seq<Address>, i: nat)
    requires FirstMatch(site, cloud, i).Some?
    ensures FirstMatch(site, cloud + more, i) == FirstMatch(site, cloud, i)
  {
    assert (cloud + more)[1..] == cloud[1..] + more;
    if !site.Matches(cloud[0], i) { FirstMatchStays(site, cloud[1..], more, i); }
  }

  /** The `k`-th address is what the slot gets: its first match in the cloud as it was
      or, without one, an address of its own name that was made since. */
  ghost predicate GivenAt(site: Site, w: World, next: World, o: Obtained, k: nat) {
    var was := FirstMatch(site, w.cloud, o.index);
    && k < |next.cloud| && next.cloud[k].id == o.id
    && if was.Some? then k < |w.cloud| && w.cloud[k] == was.value
       else |w.cloud| <= k && next.cloud[k].name == site.Name(o.index)
  }

  ghost predicate Given(site: Site, w: World, next: World, o: Obtained) {
    exists k: nat :: GivenAt(site, w, next, o, k)
  }

  lemma GivenStays(site: Site, w: World, next: World, more: World, o: Obtained)
    requires Given(site, w, next, o) && Grows(next, more)
    ensures Given(site, w, more, o)
  {
    var k: nat :| GivenAt(site, w, next, o, k);
    assert more.cloud[..|next.cloud|][k] == more.cloud[k];
    assert GivenAt(site, w, more, o, k);
  }

  /** This address was made for one of the slots. */
  ghost predicate MadeForOne(site: Site, a: Address, count: nat) {
    exists m: nat :: m < count && a == Made(site, m, a.id)
  }

  /** The cloud has grown from `w` by addresses made for the slots, ids are unique, and
      no slot has a record. */
  ghost predicate Since(site: Site, w: World, now: World, count: nat) {
    && Grows(w, now) && UniqueIds(now.cloud) && (forall i: nat :: RecordedFor(site, now, i).None?)
    && forall k :: |w.cloud| <= k < |now.cloud| ==> MadeForOne(site, now.cloud[k], count)
  }

  lemma AppendKeepsSince(site: Site, w: World, now: World, next: World, count: nat, m: nat, id: string)
    requires Since(site, w, now, count) && m < count && Appended(site, now, next, m, id)
    ensures Since(site, w, next, count) && Grows(now, next)
  {
    AppendKeepsUnique(site, now, next, m, id);
    assert next.cloud[..|w.cloud|] == now.cloud[..|w.cloud|];
    forall i: nat ensures RecordedFor(site, next, i) == RecordedFor(site, now, i) {}
    forall k | |w.cloud| <= k < |next.cloud| ensures MadeForOne(site, next.cloud[k], count) {
      if k == |now.cloud| { assert next.cloud[k] == Made(site, m, id); }
    }
  }

  /** A match that was not there before carries the slot's own name. */
  lemma NewMatch(site: Site, w: World, now: World, count: nat, i: nat) returns (k: nat)
    requires site.Separate(count) && i < count && Since(site, w, now, count)
    requires FirstMatch(site, w.cloud, i).None? && FirstMatch(site, now.cloud, i).Some?
    ensures GivenAt(site, w, now, Obtained(i, FirstMatch(site, now.cloud, i).value.id), k)
  {
    var found := FirstMatch(site, now.cloud, i).value;
    forall j | 0 <= j < |w.cloud| ensures !site.Matches(now.cloud[j], i) {
      assert now.cloud[..|w.cloud|][j] == w.cloud[j] && w.cloud[j] in w.cloud;
    }
    k :| 0 <= k < |now.cloud| && now.cloud[k] == found;
    assert MadeForOne(site, now.cloud[k], count);
    var m: nat :| m < count && found == Made(site, m, found.id);
    MadeMatchesOnly(site, count, m, i, found.id);
  }

  lemma OldMatch(site: Site, w: World, now: World, i: nat) returns (k: nat)
    requires Grows(w, now) && FirstMatch(site, w.cloud, i).Some?
    ensures FirstMatch(site, now.cloud, i) == FirstMatch(site, w.cloud, i)
    ensures GivenAt(site, w, now, Obtained(i, FirstMatch(site, w.cloud, i).value.id), k)
  {
    assert now.cloud == w.cloud + now.cloud[|w.cloud|..];
    FirstMatchStays(site, w.cloud, now.cloud[|w.cloud|..], i);
    k :| 0 <= k < |w.cloud| && w.cloud[k] == FirstMatch(site, w.cloud, i).value;
  }

  lemma OneListedTry(site: Site, w: World, now: World, count: nat, i: nat, t: Try)
    requires site.Separate(count) && i < count && Since(site, w, now, count) && t.listed
    ensures var (next, id) := GetOrCreate(site, now, i, t);
            && Since(site, w, next, count) && Grows(now, next)
            && (id.Some? ==> Given(site, w, next, Obtained(i, id.value)))
  {
    var (next, id) := GetOrCreate(site, now, i, t);
    assert RecordedFor(site, now, i).None?;
    if FirstMatch(site, now.cloud, i).Some? {
      if FirstMatch(site, w.cloud, i).Some? {
        var k := OldMatch(site, w, now, i);
      } else {
        var k := NewMatch(site, w, now, count, i);
      }
    } else {
      if FirstMatch(site, w.cloud, i).Some? { var k := OldMatch(site, w, now, i); }
      MadeNow(site, w, now, count, i, t);
    }
  }

  lemma MadeNow(site: Site, w: World, now: World, count: nat, i: nat, t: Try)
    requires i < count && Since(site, w, now, count)
    requires FirstMatch(site, w.cloud, i).None? && FirstMatch(site, now.cloud, i).None?
    ensures var (next, id) := GetOrCreate(site, now, i, t);
            && Since(site, w, next, count) && Grows(now, next)
            && (id.Some? ==> Given(site, w, next, Obtained(i, id.value)))
  {
    var (next, id) := GetOrCreate(site, now, i, t);
    assert RecordedFor(site, now, i).None?;
    if Appended(site, now, next, i, t.newId) {
      AppendKeepsSince(site, w, now, next, count, i, t.newId);
      if id.Some? { assert GivenAt(site, w, next, Obtained(i, id.value), |now.cloud|); }
    } else {
      forall j: nat ensures RecordedFor(site, next, j) == RecordedFor(site, now, j) {}
    }
  }

  lemma {:induction false} ListedTries(site: Site, w: World, now: World, count: nat, i: nat, tries: seq<Try>)
    requires site.Separate(count) && i < count && Since(site, w, now, count) && forall t | t in tries :: t.listed
    ensures var (next, id) := Tries(site, now, i, tries);
            && Since(site, w, next, count) && Grows(now, next)
            && (id.Some? ==> Given(site, w, next, Obtained(i, id.value)))
    decreases |tries|
  {
    if tries != [] {
      assert tries[0] in tries;
      OneListedTry(site, w, now, count, i, tries[0]);
      var (next, id) := GetOrCreate(site, now, i, tries[0]);
      if id.None? {
        ListedTries(site, w, next, count, i, tries[1..]);
        GrowsTransitive(now, next, Tries(site, next, i, tries[1..]).0);
      }
    }
  }

  predicate AllListed(plan: Plan, count: nat) {
    forall i: nat | i < count :: forall t | t in plan.tries(i) :: t.listed
  }

  ghost predicate AllGiven(site: Site, w: World, next: World, recorded: seq<Obtained>) {
    forall k :: 0 <= k < |recorded| ==> Given(site, w, next, recorded[k])
  }

  lemma {:induction false} ListedSlots(site: Site, w: World, upTo: nat, count: nat, plan: Plan)
    requires site.Separate(count) && upTo <= count && Since(site, w, w, count) && AllListed(plan, count)
    ensures var pass := Slots(site, w, upTo, plan);
            Since(site, w, pass.w, count) && AllGiven(site, w, pass.w, pass.recorded)
    decreases upTo
  {
    if upTo > 0 {
      ListedSlots(site, w, upTo - 1, count, plan);
      ListedStep(site, w, Slots(site, w, upTo - 1, plan), count, upTo - 1, plan);
    }
  }

  lemma ListedStep(site: Site, w: World, before: Pass, count: nat, i: nat, plan: Plan)
    requires site.Separate(count) && i < count && Since(site, w, before.w, count) && AllListed(plan, count)
    requires AllGiven(site, w, before.w, before.recorded)
    ensures var after := SlotStep(site, before, i, plan);
            Since(site, w, after.w, count) && AllGiven(site, w, after.w, after.recorded)
  {
    var after := SlotStep(site, before, i, plan);
    ListedTries(site, w, before.w, count, i, plan.tries(i));
    forall k | 0 <= k < |after.recorded| ensures Given(site, w, after.w, after.recorded[k]) {
      if k < |before.recorded| { GivenStays(site, w, before.w, after.w, before.recorded[k]); }
    }
  }

  lemma SharedGiven(site: Site, w: World, next: World, count: nat, o: Obtained, p: Obtained)
    requires site.Separate(count) && UniqueIds(w.cloud) && UniqueIds(next.cloud) && o.index < p.index < count
    requires Given(site, w, next, o) && Given(site, w, next, p)
    ensures var first := FirstMatch(site, w.cloud, o.index);
            o.id == p.id <==> first.Some? && first == FirstMatch(site, w.cloud, p.index)
  {
    var k: nat :| GivenAt(site, w, next, o, k);
    var l: nat :| GivenAt(site, w, next, p, l);
    assert o.id == p.id <==> k == l;
    if site.Name(o.index) == site.Name(p.index) { NamesAreSeparate(site, count, o.index, p.index); }
  }

  /** Where every listing works and nothing is on record yet, two slots are given one
      address exactly when the same address comes first for both. */
  lemma SlotsShareExactlyWhen(site: Site, w: World, count: nat, plan: Plan, k: nat, l: nat)
    requires site.Separate(count) && UniqueIds(w.cloud) && AllListed(plan, count)
    requires forall i: nat :: RecordedFor(site, w, i).None?
    requires k < l < |Ensured(site, w, count, plan).recorded|
    ensures var recorded := Ensured(site, w, count, plan).recorded;
            var first := FirstMatch(site, w.cloud, recorded[k].index);
            recorded[k].id == recorded[l].id <==>
              first.Some? && first == FirstMatch(site, w.cloud, recorded[l].index)
  {
    var pass := Slots(site, w, count, plan);
    SlotsPartition(site, w, count, plan);
    ListedSlots(site, w, count, count, plan);
    SharedGiven(site, w, pass.w, count, pass.recorded[k], pass.recorded[l]);
  }

  /** As when one address has the first slot's name and the second one's labels. */
  lemma TwoSlotsOneAddress(site: Site, id: string, t: Try)
    requires t.listed
    ensures var w := World([Address(id, site.Name(0), site.job, Decimal(1))], map[], map[], []);
            GetOrCreate(site, w, 0, t).1 == Some(id) == GetOrCreate(site, w, 1, t).1
  {
  }

  // ----- Whose address a listing gives -----

  predicate NamedFirst(site: Site, cloud: seq<Address>, i: nat, k: nat) {
    k < |cloud| && cloud[k].name == site.Name(i) && forall j | 0 <= j < k :: !site.Matches(cloud[j], i)
  }

  /** A listing gives a slot an address of its own name exactly when one such comes
      before everything else that matches. */
  lemma {:induction false} ListingGivesOwnExactlyWhen(site: Site, cloud: seq<Address>, i: nat)
    ensures var found := FirstMatch(site, cloud, i);
            (found.Some? && found.value.name == site.Name(i)) <==> exists k: nat :: NamedFirst(site, cloud, i, k)
  {
    if cloud != [] {
      if site.Matches(cloud[0], i) {
        if cloud[0].name == site.Name(i) { assert NamedFirst(site, cloud, i, 0); }
      } else {
        ListingGivesOwnExactlyWhen(site, cloud[1..], i);
        forall k: nat | NamedFirst(site, cloud[1..], i, k) ensures NamedFirst(site, cloud, i, k + 1) {
          forall j | 0 <= j < k + 1 ensures !site.Matches(cloud[j], i) {
            if j > 0 { assert cloud[1..][j - 1] == cloud[j]; }
          }
        }
        forall k: nat | NamedFirst(site, cloud, i, k) ensures k > 0 && NamedFirst(site, cloud[1..], i, k - 1) {}
      }
    }
  }

  /** So a slot that is given anything by a listing adopts an address of another name,
      another bloc's included, exactly when none of its own name comes first. */
  lemma ForeignAddressIsAdoptedExactlyWhen(site: Site, w: World, i: nat, t: Try)
    requires t.listed && FirstMatch(site, w.cloud, i).Some?
    ensures var found := FirstMatch(site, w.cloud, i).value;
            && GetOrCreate(site, w, i, t) == (w, Some(found.id))
            && (found.name != site.Name(i) <==> !exists k: nat :: NamedFirst(site, w.cloud, i, k))
  {
    ListingGivesOwnExactlyWhen(site, w.cloud, i);
  }

  /** In particular the address of another bloc's slot: the labels do not name a bloc. */
  lemma ForeignAddressIsAdopted(mine: Site, other: Site, w: World, i: nat, t: Try, id: string)
    requires mine.job == other.job && t.listed
    requires w.cloud == [Address(id, other.Name(i), other.job, Decimal(i))]
    ensures GetOrCreate(mine, w, i, t) == (w, Some(id))
  {
    assert FirstMatch(mine, w.cloud, i) == Some(w.cloud[0]);
  }
}
