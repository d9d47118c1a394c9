/** Error classification and the retry loop of the bastion phases
    (internal/bastion/errors.go).  A phase function, the clock and the context
    are the environment: each call of the function consumes one `Attempt`. */
module PhaseErrors {

  datatype ErrorType = Network | Permission | Configuration | Dependency | Timeout | Unknown

  const NETWORK_MARKERS: seq<string> := [
    "connection refused", "network unreachable", "timeout", "dial tcp", "no route to host",
    "connection timed out", "temporary failure", "dns resolution"]
  const PERMISSION_MARKERS: seq<string> := [
    "permission denied", "access denied", "operation not permitted", "sudo", "not allowed",
    "unauthorized", "authentication failed"]
  const CONFIGURATION_MARKERS: seq<string> := [
    "config", "configuration", "not found", "missing", "invalid", "parse", "yaml", "json"]
  const DEPENDENCY_MARKERS: seq<string> := [
    "command not found", "no such file", "package", "dependency", "module", "library", "install",
    "apt-get", "snap"]
  const TIMEOUT_MARKERS: seq<string> := [
    "timeout", "deadline exceeded", "context canceled", "operation timed out"]

  /** strings.ToLower on the ASCII letters; the markers hold no others. */
  function Lower(text: string): (r: string)
    ensures |r| == |text|
  {
    seq(|text|, i requires 0 <= i < |text| =>
      if 'A' <= text[i] <= 'Z' then (text[i] as int + 32) as char else text[i])
  }

  predicate Contains(text: string, sub: string) {
    sub <= text || (text != "" && Contains(text[1..], sub))
  }

  predicate ContainsAny(text: string, subs: seq<string>) {
    exists sub | sub in subs :: Contains(text, sub)
  }

  predicate IsConfiguration(text: string) {
    !Contains(text, "command not found") && ContainsAny(text, CONFIGURATION_MARKERS)
  }

  /** The class of a lower-cased message: the first classifier that accepts it. */
  function KindOf(text: string): ErrorType {
    if ContainsAny(text, NETWORK_MARKERS) then Network
    else if ContainsAny(text, PERMISSION_MARKERS) then Permission
    else if IsConfiguration(text) then Configuration
    else if ContainsAny(text, DEPENDENCY_MARKERS) then Dependency
    else if ContainsAny(text, TIMEOUT_MARKERS) then Timeout
    else Unknown
  }

  predicate RetryableKind(kind: ErrorType) {
    !kind.Permission? && !kind.Configuration?
  }

  predicate Retryable(message: string) {
    RetryableKind(KindOf(Lower(message)))
  }

  /** A message that says "timeout" is filed under Network, so the Timeout class
      is left with the other three phrases. */
  lemma TimeoutMarkerIsShadowed(text: string)
    requires KindOf(text) == Timeout
    ensures !Contains(text, "timeout")
    ensures Contains(text, "deadline exceeded") || Contains(text, "context canceled")
         || Contains(text, "operation timed out")
  {
    assert NETWORK_MARKERS[2] == "timeout";
    var sub :| sub in TIMEOUT_MARKERS && Contains(text, sub);
  }

  /** A missing command never stops the retries for being "not found": unless a
      permission phrase is also present, the error stays retryable. */
  lemma MissingCommandIsRetried(text: string)
    requires Contains(text, "command not found")
    requires !ContainsAny(text, PERMISSION_MARKERS)
    ensures RetryableKind(KindOf(text))
    ensures KindOf(text) == Network || KindOf(text) == Dependency
  {
    assert DEPENDENCY_MARKERS[0] == "command not found";
  }

  /** Retrying stops exactly for a message that has no network phrase, and has a
      permission phrase or, missing commands aside, a configuration one. */
  lemma RetryingStopsExactlyWhen(message: string)
    ensures var text := Lower(message);
            !Retryable(message) <==>
              && !ContainsAny(text, NETWORK_MARKERS)
              && (ContainsAny(text, PERMISSION_MARKERS)
                  || (ContainsAny(text, CONFIGURATION_MARKERS) && !Contains(text, "command not found")))
  {
  }

  /** The error record the classifiers fill in. */
  class BastionError {
    const message: string
    var kind: ErrorType
    var retryable: bool
    var attemptCount: nat

    constructor (message: string)
      ensures this.message == message && !retryable && attemptCount == 0
    {
      this.message := message;
      kind, retryable, attemptCount := Unknown, false, 0;
    }

    method File(kind: ErrorType, retryable: bool)
      modifies this
      ensures this.kind == kind && this.retryable == retryable && attemptCount == old(attemptCount)
    {
      this.kind, this.retryable := kind, retryable;
    }
  }

  method ClassifyError(message: string) returns (e: BastionError)
    ensures fresh(e) && e.message == message && e.attemptCount == 0
    ensures e.kind == KindOf(Lower(message)) && e.retryable == Retryable(message)
  {
    var text := Lower(message);
    e := new BastionError(message);
    if ContainsAny(text, NETWORK_MARKERS) {
      e.File(Network, true);
    } else if ContainsAny(text, PERMISSION_MARKERS) {
      e.File(Permission, false);
    } else if !Contains(text, "command not found") && ContainsAny(text, CONFIGURATION_MARKERS) {
      e.File(Configuration, false);
    } else if ContainsAny(text, DEPENDENCY_MARKERS) {
      e.File(Dependency, true);
    } else if ContainsAny(text, TIMEOUT_MARKERS) {
      e.File(Timeout, true);
    } else {
      e.File(Unknown, true);
    }
  }

  const MAX_RETRIES: nat := 3

  /** One call of a phase function: it returned nil, it returned an error (after
      which the wait before the next attempt may be cancelled), or the process
      died inside it.  A script that has run out is a process that died before
      the call. */
  datatype Attempt = ReturnedNil | Raised(message: string, cancelled: bool) | Killed

  datatype Outcome = Succeeded | Failed | Died

  datatype Retried = Retried(outcome: Outcome, calls: nat)

  function Retry(script: seq<Attempt>, attempt: nat): (r: Retried)
    requires 1 <= attempt <= MAX_RETRIES
    ensures r.calls <= |script| && r.calls <= MAX_RETRIES + 1 - attempt
    ensures r.outcome.Succeeded? ==> 1 <= r.calls && script[r.calls - 1].ReturnedNil?
    decreases MAX_RETRIES - attempt
  {
    if script == [] then Retried(Died, 0)
    else match script[0]
      case ReturnedNil => Retried(Succeeded, 1)
      case Killed => Retried(Died, 1)
      case Raised(message, cancelled) =>
        if !Retryable(message) || attempt == MAX_RETRIES || cancelled then Retried(Failed, 1)
        else
          var rest := Retry(script[1..], attempt + 1);
          Retried(rest.outcome, rest.calls + 1)
  }

  /** A denied permission or a bad configuration ends the phase at its first call. */
  lemma DenialEndsThePhase(script: seq<Attempt>)
    requires script != [] && script[0].Raised?
    requires !ContainsAny(Lower(script[0].message), NETWORK_MARKERS)
    requires ContainsAny(Lower(script[0].message), PERMISSION_MARKERS)
          || (ContainsAny(Lower(script[0].message), CONFIGURATION_MARKERS)
              && !Contains(Lower(script[0].message), "command not found"))
    ensures Retry(script, 1) == Retried(Failed, 1)
  {
    RetryingStopsExactlyWhen(script[0].message);
  }

  /** Anything else is tried as often as is left, from the first attempt three times,
      before the phase fails. */
  lemma {:induction false} OthersAreTriedToTheEnd(script: seq<Attempt>, attempt: nat)
    requires 1 <= attempt <= MAX_RETRIES && |script| >= MAX_RETRIES + 1 - attempt
    requires forall i | 0 <= i < MAX_RETRIES + 1 - attempt :: TriesAgain(script[i])
    ensures Retry(script, attempt) == Retried(Failed, MAX_RETRIES + 1 - attempt)
    decreases MAX_RETRIES - attempt
  {
    if attempt < MAX_RETRIES {
      forall i | 0 <= i < MAX_RETRIES - attempt ensures TriesAgain(script[1..][i]) {
        assert TriesAgain(script[i + 1]);
      }
      OthersAreTriedToTheEnd(script[1..], attempt + 1);
    }
  }

  predicate TriesAgain(a: Attempt) {
    a.Raised? && Retryable(a.message) && !a.cancelled
  }

  /** The k-th call returns nil and every call before it is worth another try. */
  predicate WinsAt(script: seq<Attempt>, k: nat) {
    k < |script| && script[k].ReturnedNil? && forall i | 0 <= i < k :: TriesAgain(script[i])
  }

  /** The loop succeeds exactly when one of its at most three calls returns nil
      and every call before it failed in a way that is tried again. */
  lemma {:induction false} SucceedsExactlyWhen(script: seq<Attempt>, attempt: nat)
    requires 1 <= attempt <= MAX_RETRIES
    ensures Retry(script, attempt).outcome.Succeeded? <==>
            exists k: nat | k <= MAX_RETRIES - attempt :: WinsAt(script, k)
    decreases MAX_RETRIES - attempt
  {
    if script != [] && script[0].ReturnedNil? {
      assert WinsAt(script, 0);
    } else if script != [] && TriesAgain(script[0]) && attempt < MAX_RETRIES {
      var tail := script[1..];
      SucceedsExactlyWhen(tail, attempt + 1);
      assert forall k: nat :: WinsAt(script, k + 1) <==> WinsAt(tail, k) by {
        assert forall i | 0 <= i < |tail| :: tail[i] == script[i + 1];
        forall k: nat | WinsAt(tail, k) ensures WinsAt(script, k + 1) {
          forall i | 0 <= i < k + 1 ensures TriesAgain(script[i]) {
            if i > 0 { assert TriesAgain(tail[i - 1]); }
          }
        }
      }
      if k: nat :| k <= MAX_RETRIES - attempt && WinsAt(script, k) {
        assert WinsAt(tail, k - 1);
      }
    }
  }

  lemma RetryStep(script: seq<Attempt>, calls: nat, attempt: nat)
    requires calls < |script| && 1 <= attempt <= MAX_RETRIES
    ensures var r := Retry(script[calls..], attempt);
            if script[calls].ReturnedNil? then r == Retried(Succeeded, 1)
            else if script[calls].Killed? then r == Retried(Died, 1)
            else if !TriesAgain(script[calls]) || attempt == MAX_RETRIES then r == Retried(Failed, 1)
            else
              var rest := Retry(script[calls + 1..], attempt + 1);
              r == Retried(rest.outcome, rest.calls + 1)
  {
    assert script[calls..][0] == script[calls] && script[calls..][1..] == script[calls + 1..];
  }

  method ExecuteWithRetry(script: seq<Attempt>) returns (outcome: Outcome, calls: nat)
    ensures Retried(outcome, calls) == Retry(script, 1)
    ensures calls <= MAX_RETRIES
    ensures outcome.Succeeded? <==> exists k: nat | k < MAX_RETRIES :: WinsAt(script, k)
  {
    SucceedsExactlyWhen(script, 1);
    calls := 0;
    var attempt := 1;
    while attempt <= MAX_RETRIES
      invariant 1 <= attempt <= MAX_RETRIES && calls == attempt - 1 <= |script|
      invariant Retry(script, 1).outcome == Retry(script[calls..], attempt).outcome
      invariant Retry(script, 1).calls == Retry(script[calls..], attempt).calls + calls
      decreases MAX_RETRIES - attempt
    {
      if calls == |script| { return Died, calls; }
      RetryStep(script, calls, attempt);
      var reply := script[calls];
      calls := calls + 1;
      match reply {
        case ReturnedNil => return Succeeded, calls;
        case Killed => return Died, calls;
        case Raised(message, cancelled) =>
          var e := ClassifyError(message);
          e.attemptCount := attempt;
          if !e.retryable { return Failed, calls; }
          if attempt == MAX_RETRIES { break; }
          if cancelled { return Failed, calls; }
      }
      attempt := attempt + 1;
    }
    outcome := Failed;
  }
}
