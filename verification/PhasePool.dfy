/** The worker pool of the parallel driver (internal/bastion/init.go:
    runPhasesParallel, phaseWorker, collectWorkerResults) as a state machine.

    An event names which goroutine moves and what the outside world answers, so
    a sequence of events is one interleaving; an event that cannot happen leaves
    the state alone.  The Go code does not lock the progress record; each mark,
    each snapshot and each half of a file write is one atomic event here, and
    two workers may be between the halves of a write at the same time. */
module PhasePool {
  import opened Prelude
  import opened PhaseErrors
  import opened Checkpoints

  /** The error a task ends with is nil unless the verdict is `Broken`. */
  datatype Verdict = Skipped | Announced | Performed | Broken

  /** What a task handler (a worker, or the loop of a sequential batch) is about
      to do, for task number `t`. */
  datatype Handler =
    | Waiting
    | Begun(t: nat)
    | Trying(t: nat, attempt: nat)
    | Marking(t: nat)
    | Snapshotting(t: nat, verdict: Verdict)
    | Writing(t: nat, verdict: Verdict, data: CheckpointData)
    | Flushing(t: nat, verdict: Verdict, data: CheckpointData)
    | Reporting(t: nat, verdict: Verdict)
    | Exited
  {
    predicate Busy() { !Waiting? && !Exited? }
  }

  /** Memory, file and host as all goroutines see them; `returned` holds the
      phases whose function has returned nil in any run so far. */
  datatype Shared = Shared(progress: Progress, file: File, returned: set<string>)

  datatype Context = Context(owner: Owner, options: Options, tasks: seq<string>, inPool: bool)

  datatype Answer =
    | Go
    | ReturnsNil
    | Raises(message: string, cancelled: bool)
    | Snapshot(now: int)
    | SaveFails
    | Cut
    | Flush(whole: bool)

  datatype Moved = Moved(h: Handler, sh: Shared)

  /** What the start of task `t` writes to the shared progress record. */
  function Announce(cx: Context, t: nat, p: Progress): Progress
    requires t < |cx.tasks|
  {
    if cx.inPool then
      if cx.options.reporter then p.(currentStep := cx.tasks[t], completedSteps := 0, totalSteps := 0) else p
    else
      p.(currentStep := cx.tasks[t],
         completedSteps := if cx.options.reporter then t else p.completedSteps + 1)
  }

  /** One atomic step of a handler that holds a task. */
  function HandlerStep(cx: Context, h: Handler, sh: Shared, a: Answer): Option<Moved>
    requires h.Busy() ==> h.t < |cx.tasks|
  {
    match (h, a)
    case (Begun(t), Go) =>
      if ShouldSkip(cx.options, sh.progress, cx.tasks[t]) then Some(Moved(Reporting(t, Skipped), sh))
      else
        var announced := sh.(progress := Announce(cx, t, sh.progress));
        if !cx.options.dryRun then Some(Moved(Trying(t, 1), announced))
        else if cx.inPool then Some(Moved(Marking(t), announced))
        else Some(Moved(Reporting(t, Announced), announced))
    case (Trying(t, attempt), ReturnsNil) =>
      Some(Moved(Marking(t), sh.(returned := sh.returned + {cx.tasks[t]})))
    case (Trying(t, attempt), Raises(message, cancelled)) =>
      if Retryable(message) && attempt < MAX_RETRIES && !cancelled then Some(Moved(Trying(t, attempt + 1), sh))
      else Some(Moved(Snapshotting(t, Broken), sh))
    case (Marking(t), Go) =>
      Some(Moved(Snapshotting(t, Performed), sh.(progress := Marked(sh.progress, cx.tasks[t]))))
    case (Snapshotting(t, v), Snapshot(now)) =>
      Some(Moved(Writing(t, v, DataOf(cx.owner, sh.progress, now)), sh))
    case (Snapshotting(t, v), SaveFails) => Some(Moved(Reporting(t, v), sh))
    case (Writing(t, v, data), Cut) => Some(Moved(Flushing(t, v, data), sh.(file := Torn)))
    case (Writing(t, v, data), SaveFails) => Some(Moved(Reporting(t, v), sh))
    case (Flushing(t, v, data), Flush(whole)) =>
      Some(Moved(Reporting(t, v), sh.(file := if whole then Stored(data) else Torn)))
    case _ => None
  }

  datatype Report = Report(t: nat, verdict: Verdict)

  /** `reports` is everything ever sent on the error channel, oldest first, and
      the collector has taken the first `received` of them; the channel buffer
      is the rest and has room for one report a task. */
  datatype Pool = Pool(
    sent: nat,
    closed: bool,
    workers: seq<Handler>,
    reports: seq<Report>,
    received: nat,
    anyErr: bool)

  datatype State = State(pool: Pool, sh: Shared)

  datatype Event = Send(w: nat) | Close | Receive | Worker(w: nat, answer: Answer)

  const DEFAULT_WORKERS: nat := 3

  /** The main goroutine has left collectWorkerResults. */
  predicate Collected(cx: Context, p: Pool) {
    p.closed && p.received == |cx.tasks|
  }

  ghost predicate WellFormed(cx: Context, p: Pool) {
    && 0 < |p.workers|
    && p.sent <= |cx.tasks|
    && p.received <= |p.reports|
    && (forall w | 0 <= w < |p.workers| && p.workers[w].Busy() :: p.workers[w].t < p.sent)
  }

  function Step(cx: Context, s: State, e: Event): Option<State>
    requires WellFormed(cx, s.pool)
  {
    var p := s.pool;
    match e
    case Send(w) =>
      if p.sent < |cx.tasks| && !p.closed && w < |p.workers| && p.workers[w].Waiting?
      then Some(s.(pool := p.(workers := p.workers[w := Begun(p.sent)], sent := p.sent + 1)))
      else None
    case Close =>
      if p.sent == |cx.tasks| && !p.closed then Some(s.(pool := p.(closed := true))) else None
    case Receive =>
      if p.closed && p.received < |cx.tasks| && p.received < |p.reports|
      then Some(s.(pool := p.(received := p.received + 1,
                              anyErr := p.anyErr || p.reports[p.received].verdict.Broken?)))
      else None
    case Worker(w, answer) =>
      if w >= |p.workers| then None
      else match p.workers[w]
        case Waiting =>
          if p.closed && answer.Go? then Some(s.(pool := p.(workers := p.workers[w := Exited]))) else None
        case Exited => None
        case Reporting(t, v) =>
          if answer.Go? && |p.reports| - p.received < |cx.tasks|
          then Some(s.(pool := p.(workers := p.workers[w := Waiting], reports := p.reports + [Report(t, v)])))
          else None
        case h =>
          match HandlerStep(cx, h, s.sh, answer)
          case None => None
          case Some(m) => Some(State(p.(workers := p.workers[w := m.h]), m.sh))
  }

  // ----- Bookkeeping over the workers -----

  ghost function Total(workers: seq<Handler>, weight: Handler -> nat): nat {
    if workers == [] then 0 else weight(workers[0]) + Total(workers[1..], weight)
  }

  lemma {:induction false} TotalUpdate(workers: seq<Handler>, w: nat, h: Handler, weight: Handler -> nat)
    requires w < |workers|
    ensures Total(workers[w := h], weight) + weight(workers[w]) == Total(workers, weight) + weight(h)
  {
    if w == 0 {
      assert workers[0 := h][1..] == workers[1..];
    } else {
      TotalUpdate(workers[1..], w - 1, h, weight);
      assert workers[w := h][1..] == workers[1..][w - 1 := h];
    }
  }

  lemma {:induction false} TotalZero(workers: seq<Handler>, weight: Handler -> nat)
    requires forall w | 0 <= w < |workers| :: weight(workers[w]) == 0
    ensures Total(workers, weight) == 0
  {
    if workers != [] { TotalZero(workers[1..], weight); }
  }

  lemma {:induction false} TotalCovers(workers: seq<Handler>, w: nat, weight: Handler -> nat)
    requires w < |workers|
    ensures weight(workers[w]) <= Total(workers, weight)
  {
    if w > 0 { TotalCovers(workers[1..], w - 1, weight); }
  }

  function Holding(h: Handler): nat { if h.Busy() then 1 else 0 }

  /** Steps a handler can still take before it has sent its report and left. */
  function Ahead(h: Handler): nat {
    match h
    case Exited => 0
    case Waiting => 1
    case Reporting(_, _) => 3
    case Flushing(_, _, _) => 4
    case Writing(_, _, _) => 5
    case Snapshotting(_, _) => 6
    case Marking(_) => 7
    case Trying(_, attempt) => if attempt <= MAX_RETRIES then 8 + MAX_RETRIES - attempt else 8
    case Begun(_) => 8 + MAX_RETRIES
  }

  /** Every event that happens makes this smaller. */
  ghost function Measure(cx: Context, p: Pool): int {
    (8 + MAX_RETRIES) * (|cx.tasks| - p.sent)
    + Total(p.workers, Ahead)
    + (if p.closed then 0 else 1)
    + (|p.reports| - p.received)
  }

  /** What every interleaving keeps: the tasks handed out are exactly those held
      by one worker or reported once. */
  ghost predicate PoolInv(cx: Context, p: Pool) {
    && WellFormed(cx, p)
    && (p.closed ==> p.sent == |cx.tasks|)
    && (forall w | 0 <= w < |p.workers| && p.workers[w].Exited? :: p.closed)
    && (forall w | 0 <= w < |p.workers| && p.workers[w].Trying? :: 1 <= p.workers[w].attempt <= MAX_RETRIES)
    && (forall i | 0 <= i < |p.reports| :: p.reports[i].t < p.sent)
    && (forall i, j | 0 <= i < j < |p.reports| :: p.reports[i].t != p.reports[j].t)
    && (forall v, w | 0 <= v < w < |p.workers| && p.workers[v].Busy() && p.workers[w].Busy() ::
          p.workers[v].t != p.workers[w].t)
    && (forall w, i | 0 <= w < |p.workers| && 0 <= i < |p.reports| && p.workers[w].Busy() ::
          p.workers[w].t != p.reports[i].t)
    && p.sent == Total(p.workers, Holding) + |p.reports|
    && (p.anyErr <==> exists i | 0 <= i < p.received :: p.reports[i].verdict.Broken?)
  }

  /** A pool about to start: a worker count that is not positive means three. */
  function NewPool(cx: Context, workers: int): (p: Pool)
    ensures PoolInv(cx, p)
  {
    var idle: seq<Handler> := seq(if workers <= 0 then DEFAULT_WORKERS else workers, _ => Waiting);
    TotalZero(idle, Holding);
    Pool(0, false, idle, [], 0, false)
  }

  lemma HandlerKeepsTask(cx: Context, h: Handler, sh: Shared, a: Answer)
    requires h.Busy() && h.t < |cx.tasks| && (h.Trying? ==> 1 <= h.attempt <= MAX_RETRIES)
    ensures var next := HandlerStep(cx, h, sh, a);
            next.Some? ==>
              && next.value.h.Busy() && next.value.h.t == h.t
              && Ahead(next.value.h) < Ahead(h)
              && (next.value.h.Trying? ==> 1 <= next.value.h.attempt <= MAX_RETRIES)
  {
  }

  lemma SendKeepsInv(cx: Context, s: State, w: nat)
    requires PoolInv(cx, s.pool) && Step(cx, s, Send(w)).Some?
    ensures PoolInv(cx, Step(cx, s, Send(w)).value.pool)
    ensures Measure(cx, Step(cx, s, Send(w)).value.pool) < Measure(cx, s.pool)
  {
    TotalUpdate(s.pool.workers, w, Begun(s.pool.sent), Holding);
    TotalUpdate(s.pool.workers, w, Begun(s.pool.sent), Ahead);
  }

  lemma ReportKeepsInv(cx: Context, s: State, w: nat)
    requires PoolInv(cx, s.pool) && w < |s.pool.workers| && s.pool.workers[w].Reporting?
    requires Step(cx, s, Worker(w, Go)).Some?
    ensures PoolInv(cx, Step(cx, s, Worker(w, Go)).value.pool)
    ensures Measure(cx, Step(cx, s, Worker(w, Go)).value.pool) < Measure(cx, s.pool)
  {
    TotalUpdate(s.pool.workers, w, Waiting, Holding);
    TotalUpdate(s.pool.workers, w, Waiting, Ahead);
    var next := Step(cx, s, Worker(w, Go)).value.pool;
    assert forall i | 0 <= i < |s.pool.reports| :: next.reports[i] == s.pool.reports[i];
  }

  lemma LeaveKeepsInv(cx: Context, s: State, w: nat)
    requires PoolInv(cx, s.pool) && w < |s.pool.workers| && s.pool.workers[w].Waiting?
    requires Step(cx, s, Worker(w, Go)).Some?
    ensures PoolInv(cx, Step(cx, s, Worker(w, Go)).value.pool)
    ensures Measure(cx, Step(cx, s, Worker(w, Go)).value.pool) < Measure(cx, s.pool)
  {
    TotalUpdate(s.pool.workers, w, Exited, Holding);
    TotalUpdate(s.pool.workers, w, Exited, Ahead);
  }

  lemma HandlerMoveKeepsInv(cx: Context, p: Pool, w: nat, h: Handler)
    requires PoolInv(cx, p) && w < |p.workers| && p.workers[w].Busy()
    requires h.Busy() && h.t == p.workers[w].t && Ahead(h) < Ahead(p.workers[w])
    requires h.Trying? ==> 1 <= h.attempt <= MAX_RETRIES
    ensures PoolInv(cx, p.(workers := p.workers[w := h]))
    ensures Measure(cx, p.(workers := p.workers[w := h])) < Measure(cx, p)
  {
    TotalUpdate(p.workers, w, h, Holding);
    TotalUpdate(p.workers, w, h, Ahead);
  }

  lemma CollectorKeepsInv(cx: Context, s: State, e: Event)
    requires PoolInv(cx, s.pool) && (e.Close? || e.Receive?) && Step(cx, s, e).Some?
    ensures PoolInv(cx, Step(cx, s, e).value.pool)
    ensures Measure(cx, Step(cx, s, e).value.pool) < Measure(cx, s.pool)
  {
    var p, next := s.pool, Step(cx, s, e).value.pool;
    assert next.anyErr <==> exists i | 0 <= i < next.received :: next.reports[i].verdict.Broken? by {
      assert e.Receive? && p.reports[p.received].verdict.Broken? ==> next.reports[next.received - 1].verdict.Broken?;
    }
  }

  /** Every step of every interleaving keeps the accounting and uses up some of
      the measure. */
  lemma StepKeepsInv(cx: Context, s: State, e: Event)
    requires PoolInv(cx, s.pool) && Step(cx, s, e).Some?
    ensures PoolInv(cx, Step(cx, s, e).value.pool)
    ensures 0 <= Measure(cx, Step(cx, s, e).value.pool) < Measure(cx, s.pool)
  {
    match e {
      case Send(w) => SendKeepsInv(cx, s, w);
      case Close => CollectorKeepsInv(cx, s, e);
      case Receive => CollectorKeepsInv(cx, s, e);
      case Worker(w, answer) =>
        var h := s.pool.workers[w];
        if h.Reporting? {
          ReportKeepsInv(cx, s, w);
        } else if h.Waiting? {
          LeaveKeepsInv(cx, s, w);
        } else {
          HandlerKeepsTask(cx, h, s.sh, answer);
          HandlerMoveKeepsInv(cx, s.pool, w, HandlerStep(cx, h, s.sh, answer).value.h);
        }
    }
  }

  // ----- No deadlock -----

  /** An answer the outside world can always give a handler in this position. */
  function SomeAnswer(h: Handler): Answer {
    match h
    case Trying(_, _) => ReturnsNil
    case Snapshotting(_, _) => SaveFails
    case Writing(_, _, _) => Cut
    case Flushing(_, _, _) => Flush(true)
    case _ => Go
  }

  /** Until the collector has returned and every worker has left, something can
      happen, whatever the workers are doing. */
  lemma NeverStuck(cx: Context, s: State) returns (e: Event)
    requires PoolInv(cx, s.pool)
    requires !Collected(cx, s.pool) || exists w | 0 <= w < |s.pool.workers| :: !s.pool.workers[w].Exited?
    ensures Step(cx, s, e).Some?
  {
    var p := s.pool;
    if w :| 0 <= w < |p.workers| && p.workers[w].Busy() {
      TotalCovers(p.workers, w, Holding);
      e := Worker(w, SomeAnswer(p.workers[w]));
    } else {
      TotalZero(p.workers, Holding);
      if p.sent < |cx.tasks| {
        e := Send(0);
      } else if !p.closed {
        e := Close;
      } else if w :| 0 <= w < |p.workers| && p.workers[w].Waiting? {
        e := Worker(w, Go);
      } else {
        e := Receive;
      }
    }
  }

  // ----- Runs -----

  function Exec(cx: Context, s: State, events: seq<Event>): State
    requires PoolInv(cx, s.pool)
    decreases |events|
  {
    if events == [] then s
    else match Step(cx, s, events[0])
      case None => Exec(cx, s, events[1..])
      case Some(next) => StepKeepsInv(cx, s, events[0]); Exec(cx, next, events[1..])
  }

  lemma {:induction false} ExecKeepsInv(cx: Context, s: State, events: seq<Event>)
    requires PoolInv(cx, s.pool)
    ensures PoolInv(cx, Exec(cx, s, events).pool)
    decreases |events|
  {
    if events != [] {
      match Step(cx, s, events[0])
      case None => ExecKeepsInv(cx, s, events[1..]);
      case Some(next) => StepKeepsInv(cx, s, events[0]); ExecKeepsInv(cx, next, events[1..]);
    }
  }

  ghost function Range(n: nat): (r: set<nat>)
    ensures |r| == n && forall t: nat :: t in r <==> t < n
  {
    if n == 0 then {} else Range(n - 1) + {n - 1}
  }

  ghost function Reported(reports: seq<Report>): (r: set<nat>)
    requires forall i, j | 0 <= i < j < |reports| :: reports[i].t != reports[j].t
    ensures |r| == |reports| && forall t :: t in r <==> HasReport(reports, t)
  {
    if reports == [] then {}
    else
      var rest := Reported(reports[1..]);
      assert forall i | 0 <= i < |reports| - 1 :: reports[1..][i] == reports[i + 1];
      assert reports[0].t !in rest;
      rest + {reports[0].t}
  }

  predicate HasReport(reports: seq<Report>, t: nat) {
    exists i | 0 <= i < |reports| :: reports[i].t == t
  }

  lemma EqualSizeSubset(a: set<nat>, b: set<nat>)
    requires a <= b && |a| == |b|
    ensures a == b
  {
    if b - a != {} {
      var x :| x in b - a;
      SubsetSize(a, b - {x});
    }
  }

  lemma {:induction false} SubsetSize(a: set<nat>, b: set<nat>)
    requires a <= b
    ensures |a| <= |b|
  {
    if x :| x in a { SubsetSize(a - {x}, b - {x}); }
  }

  /** For any task list, any worker setting and any interleaving: when the
      collector returns, each task has been reported exactly once, by a worker
      that held no other report for it, and the error is nil exactly when every
      task was skipped, announced or performed. */
  lemma PoolHandlesEachTaskOnce(cx: Context, workers: int, sh: Shared, events: seq<Event>)
    ensures var p := Exec(cx, State(NewPool(cx, workers), sh), events).pool;
            Collected(cx, p) ==>
              && |p.reports| == |cx.tasks|
              && (forall t | 0 <= t < |cx.tasks| :: HasReport(p.reports, t))
              && (forall i, j | 0 <= i < j < |p.reports| :: p.reports[i].t != p.reports[j].t)
              && (forall w | 0 <= w < |p.workers| :: !p.workers[w].Busy())
              && (!p.anyErr <==> forall i | 0 <= i < |p.reports| :: !p.reports[i].verdict.Broken?)
  {
    var s := State(NewPool(cx, workers), sh);
    ExecKeepsInv(cx, s, events);
    var p := Exec(cx, s, events).pool;
    if Collected(cx, p) {
      CollectedCovers(cx, p);
    }
  }

  lemma CollectedCovers(cx: Context, p: Pool)
    requires PoolInv(cx, p) && Collected(cx, p)
    ensures |p.reports| == |cx.tasks|
    ensures forall t | 0 <= t < |cx.tasks| :: HasReport(p.reports, t)
    ensures forall w | 0 <= w < |p.workers| :: !p.workers[w].Busy()
  {
    forall w | 0 <= w < |p.workers| ensures !p.workers[w].Busy() {
      TotalCovers(p.workers, w, Holding);
    }
    EqualSizeSubset(Reported(p.reports), Range(|cx.tasks|));
    forall t | 0 <= t < |cx.tasks| ensures HasReport(p.reports, t) {
      assert t in Range(|cx.tasks|);
    }
  }

  function Effective(cx: Context, s: State, events: seq<Event>): nat
    requires PoolInv(cx, s.pool)
    decreases |events|
  {
    if events == [] then 0
    else match Step(cx, s, events[0])
      case None => Effective(cx, s, events[1..])
      case Some(next) => StepKeepsInv(cx, s, events[0]); 1 + Effective(cx, next, events[1..])
  }

  lemma MeasureIsNatural(cx: Context, p: Pool)
    requires PoolInv(cx, p)
    ensures 0 <= Measure(cx, p)
  {
  }

  lemma {:induction false} StepsUseTheMeasure(cx: Context, s: State, events: seq<Event>)
    requires PoolInv(cx, s.pool)
    ensures Effective(cx, s, events) + Measure(cx, Exec(cx, s, events).pool) <= Measure(cx, s.pool)
    decreases |events|
  {
    if events != [] {
      match Step(cx, s, events[0])
      case None => StepsUseTheMeasure(cx, s, events[1..]);
      case Some(next) => StepKeepsInv(cx, s, events[0]); StepsUseTheMeasure(cx, next, events[1..]);
    }
  }

  lemma {:induction false} IdleTotal(workers: seq<Handler>)
    requires forall w | 0 <= w < |workers| :: workers[w].Waiting?
    ensures Total(workers, Ahead) == |workers|
  {
    if workers != [] { IdleTotal(workers[1..]); }
  }

  /** No interleaving goes on for ever: a pool takes at most eleven steps a task, one a
      worker and one to close the channel. */
  lemma PoolTerminates(cx: Context, workers: int, sh: Shared, events: seq<Event>)
    ensures Effective(cx, State(NewPool(cx, workers), sh), events)
         <= 11 * |cx.tasks| + (if workers <= 0 then DEFAULT_WORKERS else workers) + 1
  {
    var s := State(NewPool(cx, workers), sh);
    StepsUseTheMeasure(cx, s, events);
    ExecKeepsInv(cx, s, events);
    MeasureIsNatural(cx, Exec(cx, s, events).pool);
    IdleTotal(s.pool.workers);
  }
}
