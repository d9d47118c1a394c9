/** The persisted state of a bastion initialisation
    (internal/bastion/checkpoint.go, the progress record of
    internal/bastion/interfaces.go).  JSON encoding is the identity; times are
    nanoseconds supplied by the environment. */
module Checkpoints {
  import opened Prelude

  datatype Progress = Progress(
    totalSteps: int,
    completedSteps: int,
    currentStep: string,
    startTime: int,
    checkpoints: map<string, bool>)

  datatype CheckpointData = CheckpointData(
    blocName: string,
    provider: string,
    startTime: int,
    lastUpdate: int,
    totalSteps: int,
    completedSteps: int,
    currentStep: string,
    completedPhases: map<string, bool>,
    version: string)

  /** The checkpoint file: missing, cut short by an interrupted write (it does not
      parse), or holding a checkpoint. */
  datatype File = Absent | Torn | Stored(data: CheckpointData)

  /** Whose file it is. */
  datatype Owner = Owner(bloc: string, provider: string)

  /** The switches of a run that its driver reads; `reporter` says a progress
      reporter is attached. */
  datatype Options = Options(resume: bool, dryRun: bool, reporter: bool)

  const VERSION: string := "1.0"
  const DAY: int := 24 * 3600 * 1_000_000_000

  /** The phases a completion map vouches for. */
  function Names(phases: map<string, bool>): (names: set<string>)
    ensures forall n :: n in names <==> n in phases && phases[n]
  {
    set n | n in phases && phases[n]
  }

  function FileNames(file: File): set<string> {
    if file.Stored? then Names(file.data.completedPhases) else {}
  }

  function FreshProgress(now: int): Progress {
    Progress(0, 0, "", now, map[])
  }

  function DataOf(owner: Owner, p: Progress, now: int): CheckpointData {
    CheckpointData(owner.bloc, owner.provider, p.startTime, now, p.totalSteps, p.completedSteps,
                   p.currentStep, p.checkpoints, VERSION)
  }

  predicate ValidCheckpoint(owner: Owner, data: CheckpointData, now: int) {
    && data.version == VERSION
    && data.blocName == owner.bloc
    && data.provider == owner.provider
    && now - data.lastUpdate <= DAY
    && data.completedSteps <= data.totalSteps
  }

  function Loaded(owner: Owner, file: File, now: int): Option<CheckpointData> {
    if file.Stored? && ValidCheckpoint(owner, file.data, now) then Some(file.data) else None
  }

  function Restored(checkpoint: Option<CheckpointData>, now: int): Progress {
    match checkpoint
    case None => FreshProgress(now)
    case Some(c) => Progress(c.totalSteps, c.completedSteps, c.currentStep, c.startTime, c.completedPhases)
  }

  function Marked(p: Progress, phase: string): Progress {
    p.(checkpoints := p.checkpoints[phase := true])
  }

  predicate ShouldSkip(options: Options, p: Progress, phase: string) {
    options.resume && phase in p.checkpoints && p.checkpoints[phase]
  }

  /** How one attempt to write the file ends: written; refused with an error, the
      old file being left alone or cut short; or the process dies and leaves the
      old file, a cut one or the new one. */
  datatype WriteReply =
    | Written
    | Refused(cut: bool)
    | KilledBefore | KilledCut | KilledAfter
  {
    predicate Alive() { Written? || Refused? }
  }

  function AfterWrite(file: File, data: CheckpointData, reply: WriteReply): File {
    match reply
    case Written => Stored(data)
    case Refused(cut) => if cut then Torn else file
    case KilledBefore => file
    case KilledCut => Torn
    case KilledAfter => Stored(data)
  }

  /** Saving and loading loses nothing: within a day, for the same bloc and
      provider, and with no more steps completed than there are, the restored
      progress is the saved one.  Outside those bounds the run starts afresh. */
  lemma RoundTripExactlyWhen(owner: Owner, p: Progress, saved: int, now: int)
    ensures var restored := Restored(Loaded(owner, Stored(DataOf(owner, p, saved)), now), now);
            if now - saved <= DAY && p.completedSteps <= p.totalSteps
            then restored == p else restored == FreshProgress(now)
  {
  }

  /** A checkpoint is never taken over by another bloc or provider. */
  lemma ForeignCheckpointIsIgnored(owner: Owner, other: Owner, p: Progress, saved: int, now: int)
    requires owner != other
    ensures Loaded(other, Stored(DataOf(owner, p, saved)), now).None?
  {
  }

  class CheckpointManager {
    const owner: Owner
    var file: File

    constructor (owner: Owner, file: File)
      ensures this.owner == owner && this.file == file
    {
      this.owner, this.file := owner, file;
    }

    /** The error of a failed save is dropped by every caller; `alive` says
        whether the process lived through it. */
    method Save(p: Progress, now: int, reply: WriteReply) returns (alive: bool)
      modifies this
      ensures file == AfterWrite(old(file), DataOf(owner, p, now), reply)
      ensures alive == reply.Alive()
    {
      var data := DataOf(owner, p, now);
      match reply {
        case Written => file := Stored(data);
        case Refused(cut) => if cut { file := Torn; }
        case KilledBefore =>
        case KilledCut => file := Torn;
        case KilledAfter => file := Stored(data);
      }
      alive := reply.Alive();
    }

    method Load(now: int) returns (checkpoint: Option<CheckpointData>)
      ensures checkpoint == Loaded(owner, file, now)
    {
      if !file.Stored? { return None; }
      if file.data.version != VERSION { return None; }
      if file.data.blocName != owner.bloc || file.data.provider != owner.provider { return None; }
      if now - file.data.lastUpdate > DAY { return None; }
      if file.data.completedSteps > file.data.totalSteps { return None; }
      checkpoint := Some(file.data);
    }

    /** Once the file could be removed nothing is loaded any more, at any time, by any
        owner; otherwise all is as before. */
    method Clear(removed: bool)
      modifies this
      ensures removed ==> FileNames(file) == {} && forall other, now :: Loaded(other, file, now).None?
      ensures !removed ==> file == old(file)
      ensures file == if removed then Absent else old(file)
    {
      if removed { file := Absent; }
    }
  }
}
