/** The bastion key pair on providers that keep no private halves, STACKIT and
    PVE (internal/bootstrap/compute.go).  Public keys are trimmed texts. */
module KeyPair {
  import opened Prelude

  /** `key` and `pub` are the files id_ed25519 and id_ed25519.pub, `held` is the
      key the provider has under the bloc's name, `recorded` the public key in the
      state. */
  datatype World = World(key: Option<string>, pub: Option<string>, held: Option<string>, recorded: Option<string>)

  /** A failed write leaves the file as it was, or with some other content. */
  datatype Write = Written | Broken(left: Option<string>)

  datatype Import = Imported | Conflict | Refused(effect: bool)

  datatype Minted = Minted(key: string, pub: string)

  /** How every call of one run turns out.  `seen` and `seenAgain` are false when
      os.Stat fails on a file that is there. */
  datatype Replies = Replies(
    seen: bool, seenAgain: bool, keyRead: bool, pubRead: bool, sidecar: Write, minted: Option<Minted>,
    got: bool, deleted: bool, imported: Import, keyWrite: Write, pubWrite: Write)

  /** The public half of a private key, when the text is one. */
  type Derive = string -> Option<string>

  predicate Blank(text: string) {
    forall c | c in text :: c in " \t\r\n"
  }

  function AfterWrite(file: Option<string>, text: string, r: Write): Option<string> {
    if r.Written? then Some(text) else if r.left.Some? then r.left else file
  }

  /** verifyExistingKeypair: what is left, and whether to skip. */
  function Verified(w: World, r: Replies): (World, bool) {
    if w.recorded.None? then (w, false)
    else if w.key.Some? && r.seen then (w, true)
    else (w.(recorded := None), false)
  }

  datatype Local = Local(key: string, pub: string, fromFile: bool)

  /** generateLocalSSHKeyPair */
  function Generated(derive: Derive, w: World, r: Replies): (World, Option<Local>) {
    if w.key.Some? && r.seenAgain then
      if !r.keyRead then (w, None)
      else if w.pub.Some? && r.pubRead then (w, Some(Local(w.key.value, w.pub.value, true)))
      else
        match derive(w.key.value)
        case None => (w, None)
        case Some(pub) => (w.(pub := AfterWrite(w.pub, pub, r.sidecar)), Some(Local(w.key.value, pub, true)))
    else
      match r.minted
      case None => (w, None)
      case Some(pair) => (w, Some(Local(pair.key, pair.pub, false)))
  }

  /** checkExistingLocalKeyPair: whether the provider's key is this one.  A key
      that is not is deleted; `deleted` says that the deletion took effect, whatever
      the caller is told, since the caller goes on either way. */
  function Checked(w: World, pub: string, r: Replies): (World, bool) {
    if !r.got || w.held.None? then (w, false)
    else if w.held.value == pub then (w, true)
    else (if r.deleted then w.(held := None) else w, false)
  }

  /** importLocalPublicKey: a conflict counts as success. */
  function AfterImport(w: World, pub: string, r: Import): (World, bool) {
    match r
    case Imported => (w.(held := Some(pub)), true)
    case Conflict => (w, true)
    case Refused(effect) => (if effect then w.(held := Some(pub)) else w, false)
  }

  /** savePrivateKey */
  function AfterSave(w: World, pair: Local, r: Replies): (World, bool) {
    if Blank(pair.key) then (w, false)
    else
      var w1 := w.(key := AfterWrite(w.key, pair.key, r.keyWrite));
      if r.keyWrite.Broken? then (w1, false)
      else if pair.pub == "" then (w1, true)
      else (w1.(pub := AfterWrite(w1.pub, pair.pub, r.pubWrite)), r.pubWrite.Written?)
  }

  /** createNewKeyPair */
  function Registered(derive: Derive, w: World, r: Replies): (World, bool) {
    var (w1, generated) := Generated(derive, w, r);
    if generated.None? then (w1, false)
    else
      var pair := generated.value;
      var (w2, same) := Checked(w1, pair.pub, r);
      if same then (w2.(recorded := Some(pair.pub)), true)
      else
        var (w3, imported) := AfterImport(w2, pair.pub, r.imported);
        if !imported then (w3, false)
        else
          var (w4, saved) := if pair.fromFile then (w3, true) else AfterSave(w3, pair, r);
          if !saved then (w4, false) else (w4.(recorded := Some(pair.pub)), true)
  }

  /** createKeyPair */
  function Run(derive: Derive, w: World, r: Replies): (World, bool) {
    var (w1, skip) := Verified(w, r);
    if skip then (w1, true) else Registered(derive, w1, r)
  }

  function RunAll(derive: Derive, w: World, runs: seq<Replies>): World
    decreases |runs|
  {
    if runs == [] then w else RunAll(derive, Run(derive, w, runs[0]).0, runs[1..])
  }

  // ----- The private key on disk -----

  predicate Truthful(r: Replies) { r.seen && r.seenAgain }

  /** Whatever fails, in whatever runs, a private key that is on disk stays there,
      unchanged. */
  lemma {:induction false} PrivateKeyIsNeverRewritten(derive: Derive, w: World, runs: seq<Replies>)
    requires w.key.Some? && forall r | r in runs :: Truthful(r)
    ensures RunAll(derive, w, runs).key == w.key
    decreases |runs|
  {
    if runs != [] {
      assert Truthful(runs[0]);
      PrivateKeyIsNeverRewritten(derive, Run(derive, w, runs[0]).0, runs[1..]);
    }
  }

  /** The one way to lose it: the file is there and os.Stat fails on it each time it
      is asked for, but it can be written. */
  lemma PrivateKeyIsRewrittenExactlyWhen(derive: Derive, w: World, r: Replies)
    requires w.key.Some?
    ensures Run(derive, w, r).0.key != w.key <==>
      && !r.seenAgain && (w.recorded.Some? ==> !r.seen)
      && r.minted.Some? && !Blank(r.minted.value.key) && !r.imported.Refused?
      && !(r.got && w.held == Some(r.minted.value.pub))
      && AfterWrite(w.key, r.minted.value.key, r.keyWrite) != w.key
  {
  }

  // ----- What a registration leaves behind -----

  /** The run got past the check for a pair already on record. */
  predicate Registers(w: World, r: Replies) { !Verified(w, r).1 }

  /** The public key a registration works with. */
  function PublicUsed(derive: Derive, w: World, r: Replies): Option<string> {
    var generated := Generated(derive, w, r).1;
    if generated.Some? then Some(generated.value.pub) else None
  }

  /** A successful registration records the key it used.  The provider holds another
      one exactly when it did before, was not asked successfully or did not delete
      it, and then reported a conflict.  With a private key on disk, the .pub beside
      it is the one used exactly when it was read or written back. */
  lemma RegistrationAgreesExactlyWhen(derive: Derive, w: World, r: Replies)
    requires Registers(w, r) && Run(derive, w, r).1
    ensures var next, used := Run(derive, w, r).0, PublicUsed(derive, w, r);
            && next.recorded == used && used.Some?
            && (next.held.Some? && next.held != used <==>
                  r.imported.Conflict? && w.held.Some? && w.held != used && !(r.got && r.deleted))
    ensures var next, used := Run(derive, w, r).0, PublicUsed(derive, w, r);
            w.key.Some? && r.seenAgain ==>
              (next.pub == used <==> (w.pub.Some? && r.pubRead) || AfterWrite(w.pub, used.value, r.sidecar) == used)
  {
  }

  /** Minting succeeds with the new pair on disk, unless the provider claims to hold
      the new public key already. */
  lemma MintedPairIsOnDisk(derive: Derive, w: World, r: Replies)
    requires w.key.None? && Run(derive, w, r).1 && r.minted.Some? && r.minted.value.pub != ""
    requires w.held != Some(r.minted.value.pub)
    ensures var next := Run(derive, w, r).0;
            && next.key == Some(r.minted.value.key) && next.pub == Some(r.minted.value.pub) == next.recorded
  {
  }

  // ----- Which private key the recorded one belongs to -----

  /** The .pub file and the record belong to the private key on disk. */
  predicate Matched(derive: Derive, w: World) {
    && (w.key.None? ==> w.pub.None?)
    && (w.key.Some? && w.pub.Some? ==> derive(w.key.value) == w.pub)
    && (w.key.Some? && w.recorded.Some? ==> derive(w.key.value) == w.recorded)
  }

  /** Stat is truthful, a failed write leaves the file alone, minting gives a new
      pair that belongs together. */
  predicate Regular(derive: Derive, w: World, r: Replies) {
    && Truthful(r)
    && (r.sidecar.Broken? ==> r.sidecar.left.None?)
    && (r.keyWrite.Broken? ==> r.keyWrite.left.None?)
    && (r.pubWrite.Broken? ==> r.pubWrite.left.None?)
    && (r.minted.Some? ==>
          && derive(r.minted.value.key) == Some(r.minted.value.pub) && r.minted.value.pub != ""
          && !Blank(r.minted.value.key) && w.held != Some(r.minted.value.pub))
  }

  predicate AllRegular(derive: Derive, w: World, runs: seq<Replies>)
    decreases |runs|
  {
    runs == [] || (Regular(derive, w, runs[0]) && AllRegular(derive, Run(derive, w, runs[0]).0, runs[1..]))
  }

  lemma GeneratedBelongs(derive: Derive, w: World, r: Replies)
    requires Matched(derive, w) && Regular(derive, w, r)
    ensures var (next, pair) := Generated(derive, w, r);
            && Matched(derive, next) && next == w.(pub := next.pub)
            && (pair.Some? ==> derive(pair.value.key) == Some(pair.value.pub))
            && (pair.Some? ==> if pair.value.fromFile then next.key == Some(pair.value.key) else next.key.None?)
  {
  }

  lemma RegisteredKeepsMatched(derive: Derive, w: World, r: Replies)
    requires Matched(derive, w) && Regular(derive, w, r) && w.recorded.None?
    ensures Matched(derive, Registered(derive, w, r).0)
    ensures Registered(derive, w, r).1 ==>
              var next := Registered(derive, w, r).0;
              next.key.Some? && next.recorded.Some? && derive(next.key.value) == next.recorded
  {
    GeneratedBelongs(derive, w, r);
  }

  lemma RunKeepsMatched(derive: Derive, w: World, r: Replies)
    requires Matched(derive, w) && Regular(derive, w, r)
    ensures Matched(derive, Run(derive, w, r).0)
    ensures Run(derive, w, r).1 ==>
              var next := Run(derive, w, r).0;
              next.key.Some? && next.recorded.Some? && derive(next.key.value) == next.recorded
  {
    var (w1, skip) := Verified(w, r);
    if !skip { RegisteredKeepsMatched(derive, w1, r); }
  }

  /** Over every sequence of runs the record and the .pub file go on belonging to the
      private key on disk; a run that succeeds has all of them. */
  lemma {:induction false} RecordOpensWithTheKeyOnDisk(derive: Derive, w: World, runs: seq<Replies>, last: Replies)
    requires Matched(derive, w) && AllRegular(derive, w, runs)
    requires Regular(derive, RunAll(derive, w, runs), last)
    ensures Matched(derive, RunAll(derive, w, runs))
    ensures var (end, ok) := Run(derive, RunAll(derive, w, runs), last);
            ok ==> end.key.Some? && end.recorded.Some? && derive(end.key.value) == end.recorded
    decreases |runs|
  {
    if runs == [] {
      RunKeepsMatched(derive, w, last);
    } else {
      RunKeepsMatched(derive, w, runs[0]);
      RecordOpensWithTheKeyOnDisk(derive, Run(derive, w, runs[0]).0, runs[1..], last);
    }
  }

  /** After a success that left a private key on disk, any further run succeeds and
      changes nothing at all. */
  lemma SuccessIsStable(derive: Derive, w: World, r: Replies, again: Replies)
    requires Truthful(r) && again.seen && Run(derive, w, r).1
    requires w.key.Some? || (r.minted.Some? && w.held != Some(r.minted.value.pub))
    ensures Run(derive, Run(derive, w, r).0, again) == (Run(derive, w, r).0, true)
  {
  }

  /** A .pub file without its private key breaks this: mint a pair, fail on the
      second of the two writes, and the next run succeeds with the stale key. */
  lemma OrphanedPublicKeyMisleads(derive: Derive, w: World, first: Replies, second: Replies)
    requires w.key.None? && w.pub.Some? && w.recorded.None? && w.held.None?
    requires first.minted.Some? && !Blank(first.minted.value.key) && first.minted.value.pub != ""
    requires derive(first.minted.value.key) == Some(first.minted.value.pub) && first.minted.value.pub != w.pub.value
    requires first.imported.Imported? && first.keyWrite.Written? && first.pubWrite == Broken(None)
    requires Truthful(second) && second.keyRead && second.pubRead && second.imported.Imported?
    ensures !Run(derive, w, first).1
    ensures var (end, ok) := Run(derive, Run(derive, w, first).0, second);
            ok && end.recorded == w.pub && end.key.Some? && derive(end.key.value) != end.recorded
  {
  }

  /** A registration with a private key on disk records a key that belongs to it exactly
      when there is no .pub file, or it cannot be read, or it is the right one. */
  lemma RecordOpensExactlyWhen(derive: Derive, w: World, r: Replies)
    requires w.key.Some? && r.seenAgain && Registers(w, r) && Run(derive, w, r).1
    ensures Run(derive, w, r).0.recorded == derive(w.key.value) <==>
              w.pub.None? || !r.pubRead || w.pub == derive(w.key.value)
  {
  }

  /** The .pub file, if any, is that of the private key on disk. */
  predicate SidecarRight(derive: Derive, w: World) {
    w.key.Some? && (w.pub.None? || w.pub == derive(w.key.value))
  }

  /** Files answer: stat and reads work, and a write that fails leaves what was there. */
  predicate FilesAnswer(r: Replies) {
    Truthful(r) && r.keyRead && r.pubRead && (r.sidecar.Broken? ==> r.sidecar.left.None?)
  }

  lemma {:induction false} SidecarStaysAsItIs(derive: Derive, w: World, runs: seq<Replies>)
    requires w.key.Some? && forall r | r in runs :: FilesAnswer(r)
    ensures RunAll(derive, w, runs).key == w.key
    ensures SidecarRight(derive, RunAll(derive, w, runs)) <==> SidecarRight(derive, w)
    decreases |runs|
  {
    if runs != [] {
      assert FilesAnswer(runs[0]);
      SidecarStaysAsItIs(derive, Run(derive, w, runs[0]).0, runs[1..]);
    }
  }

  /** Over any runs on a private key that was there: whichever of them registers, the
      record belongs to the key on disk exactly when the .pub file did at the start,
      or there was none.  A wrong one is never noticed. */
  lemma RecordOpensOverRunsExactlyWhen(derive: Derive, w: World, runs: seq<Replies>, last: Replies)
    requires w.key.Some? && (forall r | r in runs :: FilesAnswer(r)) && FilesAnswer(last)
    requires var end := RunAll(derive, w, runs); Registers(end, last) && Run(derive, end, last).1
    ensures Run(derive, RunAll(derive, w, runs), last).0.recorded == derive(w.key.value) <==> SidecarRight(derive, w)
  {
    SidecarStaysAsItIs(derive, w, runs);
    RecordOpensExactlyWhen(derive, RunAll(derive, w, runs), last);
  }

  /** And a minted private key starts with the right .pub file, or none, exactly when
      the second write goes through or leaves none or the right one. */
  lemma MintedSidecarIsRightExactlyWhen(derive: Derive, w: World, r: Replies)
    requires w.key.None? && w.recorded.None? && r.minted.Some? && !Blank(r.minted.value.key) && r.minted.value.pub != ""
    requires derive(r.minted.value.key) == Some(r.minted.value.pub)
    requires !(r.got && w.held == Some(r.minted.value.pub)) && !r.imported.Refused? && r.keyWrite.Written?
    ensures var end := Run(derive, w, r).0;
            && end.key == Some(r.minted.value.key)
            && (SidecarRight(derive, end) <==>
                  var left := if r.pubWrite.Broken? && r.pubWrite.left.Some? then r.pubWrite.left else w.pub;
                  r.pubWrite.Written? || left.None? || left == Some(r.minted.value.pub))
  {
  }

  // ----- When a run succeeds -----

  /** Every call works, and minting gives a usable pair. */
  predicate Working(r: Replies) {
    && Truthful(r) && r.keyRead && r.pubRead && r.sidecar.Written? && r.got && r.deleted
    && r.imported.Imported? && r.keyWrite.Written? && r.pubWrite.Written?
    && r.minted.Some? && !Blank(r.minted.value.key) && r.minted.value.pub != ""
  }

  /** With everything working a run succeeds exactly when there is nothing to derive the
      public key for, or it can be derived; a missing .pub file is restored. */
  lemma WorkingRunSucceedsExactlyWhen(derive: Derive, w: World, r: Replies)
    requires Working(r)
    ensures Run(derive, w, r).1 <==> w.key.None? || w.recorded.Some? || w.pub.Some? || derive(w.key.value).Some?
    ensures Run(derive, w, r).1 && Registers(w, r) && w.held != PublicUsed(derive, w.(recorded := None), r) ==>
              var next := Run(derive, w, r).0;
              next.recorded.Some? && next.held == next.recorded == next.pub && next.key.Some?
  {
  }

  // ----- The manager -----

  class KeyManager {
    const derive: Derive
    var world: World

    constructor (derive: Derive, w: World)
      ensures this.derive == derive && world == w
    {
      this.derive, world := derive, w;
    }

    method VerifyExistingKeypair(r: Replies) returns (skip: bool)
      requires world.recorded.Some?
      modifies this
      ensures (world, skip) == Verified(old(world), r)
    {
      var localKeyExists := world.key.Some? && r.seen;
      if localKeyExists { return true; }
      world := world.(recorded := None);
      return false;
    }

    method GenerateLocalSSHKeyPair(r: Replies) returns (pair: Option<Local>)
      modifies this
      ensures (world, pair) == Generated(derive, old(world), r)
    {
      if world.key.Some? && r.seenAgain {
        if !r.keyRead { return None; }
        var key, pub := world.key.value, world.pub;
        if pub.None? || !r.pubRead {
          pub := derive(key);
          if pub.None? { return None; }
          world := world.(pub := AfterWrite(world.pub, pub.value, r.sidecar));
        }
        return Some(Local(key, pub.value, true));
      }
      if r.minted.None? { return None; }
      return Some(Local(r.minted.value.key, r.minted.value.pub, false));
    }

    method CheckExistingLocalKeyPair(pub: string, r: Replies) returns (same: bool)
      modifies this
      ensures (world, same) == Checked(old(world), pub, r)
    {
      if r.got && world.held.Some? {
        if world.held.value != pub {
          if r.deleted { world := world.(held := None); }
          return false;
        }
        return true;
      }
      return false;
    }

    method SavePrivateKey(pair: Local, r: Replies) returns (ok: bool)
      modifies this
      ensures (world, ok) == AfterSave(old(world), pair, r)
    {
      if Blank(pair.key) { return false; }
      world := world.(key := AfterWrite(world.key, pair.key, r.keyWrite));
      if r.keyWrite.Broken? { return false; }
      if pair.pub != "" {
        world := world.(pub := AfterWrite(world.pub, pair.pub, r.pubWrite));
        if r.pubWrite.Broken? { return false; }
      }
      return true;
    }

    method CreateKeyPair(r: Replies) returns (ok: bool)
      modifies this
      ensures (world, ok) == Run(derive, old(world), r)
    {
      if world.recorded.Some? {
        var skip := VerifyExistingKeypair(r);
        if skip { return true; }
      }
      var pair := GenerateLocalSSHKeyPair(r);
      if pair.None? { return false; }
      var same := CheckExistingLocalKeyPair(pair.value.pub, r);
      if !same {
        match r.imported {
          case Imported => world := world.(held := Some(pair.value.pub));
          case Conflict =>
          case Refused(effect) =>
            if effect { world := world.(held := Some(pair.value.pub)); }
            return false;
        }
        if !pair.value.fromFile {
          var saved := SavePrivateKey(pair.value, r);
          if !saved { return false; }
        }
      }
      world := world.(recorded := Some(pair.value.pub));
      return true;
    }
  }

  /** Runs one after another: whatever fails in them, they leave a private key that
      was there as it was. */
  method CreateKeyPairs(derive: Derive, w: World, runs: seq<Replies>) returns (end: World)
    ensures end == RunAll(derive, w, runs)
    ensures w.key.Some? && (forall r | r in runs :: Truthful(r)) ==> end.key == w.key
  {
    var manager := new KeyManager(derive, w);
    var i := 0;
    while i < |runs|
      invariant i <= |runs| && manager.derive == derive
      invariant RunAll(derive, w, runs) == RunAll(derive, manager.world, runs[i..])
    {
      var ok := manager.CreateKeyPair(runs[i]);
      assert runs[i..][1..] == runs[i + 1..];
      i := i + 1;
    }
    end := manager.world;
    if w.key.Some? && (forall r | r in runs :: Truthful(r)) { PrivateKeyIsNeverRewritten(derive, w, runs); }
  }
}
