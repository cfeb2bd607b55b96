/** The Phira API client's retry loop: calls share one set of counters and one circuit breaker, and every
    counter update, breaker update, request and sleep is its own step. */
module RetryClient {
  import opened Options
  import opened CircuitBreaker

  type CallId = nat
  type Instant = nat

  datatype RetryPolicy = RetryPolicy(maxRetries: nat, baseBackoffMs: nat, maxBackoffMs: nat, breaker: Policy)

  datatype FailureKind = CircuitOpen | Transport | RetryableStatus | NonRetryableStatus | Decode | Timeout

  /** What came back for one request. */
  datatype Reply = Decoded(value: nat) | Undecodable | BadStatus(retryable: bool) | NoAnswer(retryable: bool)

  datatype Outcome = Value(value: nat) | Failed(kind: FailureKind)

  predicate Retryable(r: Reply) { (r.BadStatus? || r.NoAnswer?) && r.retryable }

  /** What the caller gets for a reply that is not retried. */
  function Verdict(r: Reply): Outcome {
    match r
    case Decoded(value) => Value(value)
    case Undecodable => Failed(Decode)
    case BadStatus(retryable) => Failed(if retryable then RetryableStatus else NonRetryableStatus)
    case NoAnswer(_) => Failed(Transport)
  }

  /** Client-side statuses, a full deadline and an open breaker do not count against the upstream. */
  predicate CountsAgainstUpstream(kind: FailureKind) { kind.Transport? || kind.RetryableStatus? || kind.Decode? }

  datatype Counters = Counters(
    requests: nat, successes: nat, failures: nat, retries: nat,
    circuitRejections: nat, transport: nat, status: nat, decode: nat, retryableStatus: nat, nonRetryableStatus: nat)

  const ZERO := Counters(0, 0, 0, 0, 0, 0, 0, 0, 0, 0)

  /** The per-kind counters; a deadline failure is counted among the status errors. */
  function Name(n: Counters, kind: FailureKind): Counters {
    match kind
    case CircuitOpen => n.(circuitRejections := n.circuitRejections + 1)
    case Transport => n.(transport := n.transport + 1)
    case RetryableStatus => n.(status := n.status + 1, retryableStatus := n.retryableStatus + 1)
    case NonRetryableStatus => n.(status := n.status + 1, nonRetryableStatus := n.nonRetryableStatus + 1)
    case Decode => n.(decode := n.decode + 1)
    case Timeout => n.(status := n.status + 1)
  }

  function Named(n: Counters): nat { n.circuitRejections + n.transport + n.status + n.decode }

  /** The failures of one kind. Deadline failures have no counter of their own: they are the status errors
      that are neither retryable nor not. */
  function CountOf(n: Counters, kind: FailureKind): int {
    match kind
    case CircuitOpen => n.circuitRejections
    case Transport => n.transport
    case RetryableStatus => n.retryableStatus
    case NonRetryableStatus => n.nonRetryableStatus
    case Decode => n.decode
    case Timeout => n.status - n.retryableStatus - n.nonRetryableStatus
  }

  // ---- backoff --------------------------------------------------------------------------------------

  function Max(a: nat, b: nat): nat { if a > b then a else b }

  function Min(a: nat, b: nat): nat { if a < b then a else b }

  function SaturatingMul(a: nat, b: nat): nat { if a * b > U64_MAX then U64_MAX else a * b }

  function BackoffDelay(p: RetryPolicy, attempt: nat): nat {
    var jitter := (attempt * 37 + 11) % 50;
    Min(SaturatingAdd(SaturatingMul(Max(p.baseBackoffMs, 1), attempt + 1), jitter), Max(p.maxBackoffMs, 1))
  }

  /** The delay grows with the attempt, with jitter, up to the maximum; saturation never shows. */
  lemma BackoffIsExact(p: RetryPolicy, attempt: nat)
    requires p.maxBackoffMs <= U64_MAX
    ensures var base, cap := if p.baseBackoffMs == 0 then 1 else p.baseBackoffMs,
                             if p.maxBackoffMs == 0 then 1 else p.maxBackoffMs;
      var delay := base * (attempt + 1) + (37 * attempt + 11) % 50;
      BackoffDelay(p, attempt) == if delay < cap then delay else cap
  {}

  /** When the sleep before the next attempt ends; no sleep once the deadline has passed. */
  function SleepUntil(p: RetryPolicy, now: Instant, deadline: Option<Instant>, attempt: nat): Instant {
    if deadline.None? then now + BackoffDelay(p, attempt)
    else if deadline.value <= now then now
    else now + Min(deadline.value - now, BackoffDelay(p, attempt))
  }

  /** A backoff waits at least a millisecond and at most the maximum, and never past the deadline. */
  lemma BackoffIsBounded(p: RetryPolicy, now: Instant, deadline: Option<Instant>, attempt: nat)
    ensures now <= SleepUntil(p, now, deadline, attempt) <= now + Max(p.maxBackoffMs, 1)
    ensures deadline.Some? ==> SleepUntil(p, now, deadline, attempt) <= Max(now, deadline.value)
    ensures deadline.None? || now < deadline.value ==> now < SleepUntil(p, now, deadline, attempt)
  {
    assert Max(p.baseBackoffMs, 1) * (attempt + 1) >= 1;
  }

  // ---- concurrent calls -----------------------------------------------------------------------------

  datatype Pc =
    | Asking
    | Looping(attempt: nat)
    | Awaiting(attempt: nat)
    | Sleeping(attempt: nat, until: Instant)
    | LoopEnded
    | Succeeding
    | ClosingBreaker
    | Blaming(kind: FailureKind)
    | Failing(kind: FailureKind)
    | Naming(kind: FailureKind)
    | Finished
    | Abandoned

  /** `sends`, `latestSend` and `blames` record the requests started, the last one's time, and the failures
      reported to the breaker. */
  datatype Call = Call(pc: Pc, deadline: Option<Instant>, sends: nat, latestSend: Option<Instant>, blames: nat)

  datatype Sys = Sys(now: Instant, counters: Counters, breaker: Breaker, calls: map<CallId, Call>)

  const INITIAL := Sys(0, ZERO, CLOSED, map[])

  datatype Act =
    | Tick(elapsed: nat)
    | Begin(c: CallId, deadline: Option<Instant>)
    | Ask(c: CallId)
    | Turn(c: CallId)
    | Respond(c: CallId, reply: Reply)
    | Wake(c: CallId)
    | FallThrough(c: CallId)
    | CountSuccess(c: CallId)
    | CloseBreaker(c: CallId)
    | Blame(c: CallId)
    | CountFailure(c: CallId)
    | NameFailure(c: CallId)
    | Abandon(c: CallId)

  predicate Enabled(sys: Sys, a: Act) {
    match a
    case Tick(_) => true
    case Begin(c, _) => c !in sys.calls
    case Ask(c) => c in sys.calls && sys.calls[c].pc.Asking?
    case Turn(c) => c in sys.calls && sys.calls[c].pc.Looping?
    case Respond(c, _) => c in sys.calls && sys.calls[c].pc.Awaiting?
    case Wake(c) => c in sys.calls && sys.calls[c].pc.Sleeping? && sys.now >= sys.calls[c].pc.until
    case FallThrough(c) => c in sys.calls && sys.calls[c].pc.LoopEnded?
    case CountSuccess(c) => c in sys.calls && sys.calls[c].pc.Succeeding?
    case CloseBreaker(c) => c in sys.calls && sys.calls[c].pc.ClosingBreaker?
    case Blame(c) => c in sys.calls && sys.calls[c].pc.Blaming?
    case CountFailure(c) => c in sys.calls && sys.calls[c].pc.Failing?
    case NameFailure(c) => c in sys.calls && sys.calls[c].pc.Naming?
    case Abandon(c) => c in sys.calls && (sys.calls[c].pc.Awaiting? || sys.calls[c].pc.Sleeping?)
  }

  predicate DeadlineLeft(deadline: Option<Instant>, now: Instant) { deadline.Some? ==> now < deadline.value }

  function FailurePc(kind: FailureKind): Pc { if CountsAgainstUpstream(kind) then Blaming(kind) else Failing(kind) }

  /** The head of one loop iteration. */
  function TurnCall(p: RetryPolicy, now: Instant, r: Call): Call
    requires r.pc.Looping?
  {
    if r.pc.attempt > p.maxRetries then r.(pc := LoopEnded)
    else if !DeadlineLeft(r.deadline, now) then r.(pc := Failing(Timeout))
    else r.(pc := Awaiting(r.pc.attempt), sends := r.sends + 1, latestSend := Some(now))
  }

  predicate Retries(p: RetryPolicy, reply: Reply, attempt: nat) { Retryable(reply) && attempt < p.maxRetries }

  function RespondedPc(p: RetryPolicy, now: Instant, r: Call, reply: Reply): Pc
    requires r.pc.Awaiting?
  {
    if Retries(p, reply, r.pc.attempt) then Sleeping(r.pc.attempt, SleepUntil(p, now, r.deadline, r.pc.attempt))
    else match Verdict(reply)
         case Value(_) => Succeeding
         case Failed(kind) => FailurePc(kind)
  }

  function Put(sys: Sys, c: CallId, r: Call): Sys { sys.(calls := sys.calls[c := r]) }

  function SetPc(sys: Sys, c: CallId, pc: Pc): Sys
    requires c in sys.calls
  {
    Put(sys, c, sys.calls[c].(pc := pc))
  }

  function Do(p: RetryPolicy, sys: Sys, a: Act): Sys {
    if !Enabled(sys, a) then sys else
    match a
    case Tick(elapsed) => sys.(now := sys.now + elapsed)
    case Begin(c, deadline) =>
      Put(sys, c, Call(Asking, deadline, 0, None, 0)).(counters := sys.counters.(requests := sys.counters.requests + 1))
    case Ask(c) => SetPc(sys, c, if Admits(p.breaker, sys.breaker, sys.now) then Looping(0) else Failing(CircuitOpen))
    case Turn(c) => Put(sys, c, TurnCall(p, sys.now, sys.calls[c]))
    case Respond(c, reply) =>
      var r := sys.calls[c];
      var retries := sys.counters.retries + if Retries(p, reply, r.pc.attempt) then 1 else 0;
      SetPc(sys, c, RespondedPc(p, sys.now, r, reply)).(counters := sys.counters.(retries := retries))
    case Wake(c) => SetPc(sys, c, Looping(sys.calls[c].pc.attempt + 1))
    case FallThrough(c) => SetPc(sys, c, Blaming(RetryableStatus))
    case CountSuccess(c) =>
      SetPc(sys, c, ClosingBreaker).(counters := sys.counters.(successes := sys.counters.successes + 1))
    case CloseBreaker(c) => SetPc(sys, c, Finished).(breaker := Succeed(sys.breaker))
    case Blame(c) =>
      var r := sys.calls[c];
      sys.(calls := sys.calls[c := r.(pc := Failing(r.pc.kind), blames := r.blames + 1)],
           breaker := Fail(p.breaker, sys.breaker, sys.now))
    case CountFailure(c) =>
      SetPc(sys, c, Naming(sys.calls[c].pc.kind)).(counters := sys.counters.(failures := sys.counters.failures + 1))
    case NameFailure(c) => SetPc(sys, c, Finished).(counters := Name(sys.counters, sys.calls[c].pc.kind))
    case Abandon(c) => SetPc(sys, c, Abandoned)
  }

  function Run(p: RetryPolicy, acts: seq<Act>): Sys {
    if acts == [] then INITIAL else Do(p, Run(p, acts[..|acts| - 1]), acts[|acts| - 1])
  }

  // ---- conservation ---------------------------------------------------------------------------------

  /** Not yet counted as a success or a failure. */
  predicate IsUncounted(pc: Pc) { !pc.ClosingBreaker? && !pc.Naming? && !pc.Finished? }

  function Uncounted(calls: map<CallId, Call>): set<CallId> { set c | c in calls && IsUncounted(calls[c].pc) }

  /** Counted as a failure, its kind not yet counted. */
  function Unnamed(calls: map<CallId, Call>): set<CallId> { set c | c in calls && calls[c].pc.Naming? }

  function One(b: bool): nat { if b then 1 else 0 }

  lemma UncountedPut(calls: map<CallId, Call>, c: CallId, r: Call)
    ensures |Uncounted(calls[c := r])| + One(c in calls && IsUncounted(calls[c].pc)) ==
      |Uncounted(calls)| + One(IsUncounted(r.pc))
  {
    assert Uncounted(calls[c := r]) == if IsUncounted(r.pc) then Uncounted(calls) + {c} else Uncounted(calls) - {c};
  }

  lemma UnnamedPut(calls: map<CallId, Call>, c: CallId, r: Call)
    ensures |Unnamed(calls[c := r])| + One(c in calls && calls[c].pc.Naming?) == |Unnamed(calls)| + One(r.pc.Naming?)
  {
    assert Unnamed(calls[c := r]) == if r.pc.Naming? then Unnamed(calls) + {c} else Unnamed(calls) - {c};
  }

  predicate Conserved(sys: Sys) {
    && sys.counters.requests == sys.counters.successes + sys.counters.failures + |Uncounted(sys.calls)|
    && sys.counters.failures == Named(sys.counters) + |Unnamed(sys.calls)|
    && sys.counters.retryableStatus + sys.counters.nonRetryableStatus <= sys.counters.status
  }

  lemma DoConserves(p: RetryPolicy, sys: Sys, a: Act)
    requires Conserved(sys)
    ensures Conserved(Do(p, sys, a))
  {
    if Enabled(sys, a) && !a.Tick? {
      UncountedPut(sys.calls, a.c, Do(p, sys, a).calls[a.c]);
      UnnamedPut(sys.calls, a.c, Do(p, sys, a).calls[a.c]);
    }
  }

  /** At every point of every interleaving: requests are the successes, the failures and the calls still
      uncounted, and the failures are those named by kind and those about to be. */
  lemma {:induction false} RunConserves(p: RetryPolicy, acts: seq<Act>)
    ensures Conserved(Run(p, acts))
  {
    if acts != [] {
      RunConserves(p, acts[..|acts| - 1]);
      DoConserves(p, Run(p, acts[..|acts| - 1]), acts[|acts| - 1]);
    }
  }

  /** Once every call has finished, every request is a success or a failure of exactly one kind. */
  lemma FinishedTotals(p: RetryPolicy, acts: seq<Act>)
    requires forall c :: c in Run(p, acts).calls ==> Run(p, acts).calls[c].pc.Finished?
    ensures var n := Run(p, acts).counters;
      && n.requests == n.successes + n.failures
      && n.failures == n.circuitRejections + n.transport + n.status + n.decode
  {
    RunConserves(p, acts);
    assert Uncounted(Run(p, acts).calls) == {} && Unnamed(Run(p, acts).calls) == {};
  }

  // ---- each call ------------------------------------------------------------------------------------

  predicate InLoop(pc: Pc) { pc.Looping? || pc.Awaiting? || pc.Sleeping? }

  predicate CallOk(p: RetryPolicy, r: Call) {
    && (r.pc.Asking? ==> r.sends == 0)
    && (InLoop(r.pc) ==> r.pc.attempt <= p.maxRetries && r.sends == r.pc.attempt + One(!r.pc.Looping?))
    && (r.pc.Sleeping? ==> r.pc.attempt < p.maxRetries)
    && r.sends <= p.maxRetries + 1
    && (r.latestSend.Some? <==> r.sends > 0)
    && (r.deadline.Some? && r.latestSend.Some? ==> r.latestSend.value < r.deadline.value)
    && r.blames <= One(r.pc.Failing? || r.pc.Naming? || r.pc.Finished?)
    && (r.pc.Failing? || r.pc.Naming? ==> (r.blames == 1 <==> r.pc.kind in {Transport, RetryableStatus, Decode}))
    && (r.pc.Blaming? ==> r.pc.kind in {Transport, RetryableStatus, Decode})
    && !r.pc.LoopEnded?
  }

  predicate CallsOk(p: RetryPolicy, sys: Sys) { forall c :: c in sys.calls ==> CallOk(p, sys.calls[c]) }

  lemma DoKeepsCallsOk(p: RetryPolicy, sys: Sys, a: Act)
    requires CallsOk(p, sys)
    ensures CallsOk(p, Do(p, sys, a))
  {
    if Enabled(sys, a) && !a.Tick? {
      if a.c in sys.calls { assert CallOk(p, sys.calls[a.c]); }
      assert CallOk(p, Do(p, sys, a).calls[a.c]);
      assert Do(p, sys, a).calls == sys.calls[a.c := Do(p, sys, a).calls[a.c]];
    }
  }

  lemma {:induction false} RunCallsOk(p: RetryPolicy, acts: seq<Act>)
    ensures CallsOk(p, Run(p, acts))
  {
    if acts != [] {
      RunCallsOk(p, acts[..|acts| - 1]);
      DoKeepsCallsOk(p, Run(p, acts[..|acts| - 1]), acts[|acts| - 1]);
    }
  }

  /** Each call starts at most `maxRetries + 1` requests, none at or after its deadline, and blames the
      breaker once if it fails by transport, retryable status or decoding, and not at all otherwise; the code
      after the loop is never reached. */
  lemma CallsAreBounded(p: RetryPolicy, acts: seq<Act>, c: CallId)
    requires c in Run(p, acts).calls
    ensures var r := Run(p, acts).calls[c];
      && r.sends <= p.maxRetries + 1 && r.blames <= 1 && (r.latestSend.Some? <==> r.sends > 0)
      && (r.deadline.Some? && r.latestSend.Some? ==> r.latestSend.value < r.deadline.value)
      && (r.pc.Naming? ==> (r.blames == 1 <==> r.pc.kind in {Transport, RetryableStatus, Decode}))
    ensures !Enabled(Run(p, acts), FallThrough(c))
  {
    RunCallsOk(p, acts);
    assert CallOk(p, Run(p, acts).calls[c]);
  }

  // ---- what the breaker and the retry counter are told ----------------------------------------------

  /** What a step reports to the breaker, if anything. */
  function Report(sys: Sys, a: Act): seq<CircuitBreaker.Outcome> {
    match a
    case CloseBreaker(c) => if c in sys.calls && sys.calls[c].pc.ClosingBreaker? then [Success(sys.now)] else []
    case Blame(c) => if c in sys.calls && sys.calls[c].pc.Blaming? then [Failure(sys.now)] else []
    case _ => []
  }

  /** Is this a reply that is retried? */
  predicate IsRetry(p: RetryPolicy, sys: Sys, a: Act) {
    && a.Respond? && a.c in sys.calls && sys.calls[a.c].pc.Awaiting? && sys.calls[a.c].pc.attempt < p.maxRetries
    && a.reply in {BadStatus(true), NoAnswer(true)}
  }

  /** The outcomes reported, in order. */
  function Reports(p: RetryPolicy, acts: seq<Act>): seq<CircuitBreaker.Outcome> {
    if acts == [] then []
    else Reports(p, acts[..|acts| - 1]) + Report(Run(p, acts[..|acts| - 1]), acts[|acts| - 1])
  }

  function FailuresIn(h: seq<CircuitBreaker.Outcome>): nat {
    if h == [] then 0 else FailuresIn(h[..|h| - 1]) + One(h[|h| - 1].Failure?)
  }

  /** The number of replies retried. */
  function RetriesIn(p: RetryPolicy, acts: seq<Act>): nat {
    if acts == [] then 0
    else RetriesIn(p, acts[..|acts| - 1]) + One(IsRetry(p, Run(p, acts[..|acts| - 1]), acts[|acts| - 1]))
  }

  function BlamesOf(calls: map<CallId, Call>): set<CallId> { set c | c in calls && calls[c].blames > 0 }

  lemma BlamesPut(calls: map<CallId, Call>, c: CallId, r: Call)
    ensures |BlamesOf(calls[c := r])| + One(c in calls && calls[c].blames > 0) == |BlamesOf(calls)| + One(r.blames > 0)
  {
    assert BlamesOf(calls[c := r]) == if r.blames > 0 then BlamesOf(calls) + {c} else BlamesOf(calls) - {c};
  }

  lemma ReportStep(p: RetryPolicy, h: seq<CircuitBreaker.Outcome>, sys: Sys, a: Act)
    requires sys.breaker == After(p.breaker, h)
    ensures Do(p, sys, a).breaker == After(p.breaker, h + Report(sys, a))
    ensures FailuresIn(h + Report(sys, a)) ==
      FailuresIn(h) + One(a.Blame? && a.c in sys.calls && sys.calls[a.c].pc.Blaming?)
  {
    var r := Report(sys, a);
    if r == [] { assert h + r == h; } else { assert (h + r)[..|h|] == h && (h + r)[|h|] == r[0]; }
  }

  lemma RetryStep(p: RetryPolicy, sys: Sys, a: Act)
    ensures Do(p, sys, a).counters.retries == sys.counters.retries + One(IsRetry(p, sys, a))
  {}

  lemma BlamesStep(p: RetryPolicy, sys: Sys, a: Act)
    requires CallsOk(p, sys)
    ensures |BlamesOf(Do(p, sys, a).calls)| == |BlamesOf(sys.calls)| +
      One(a.Blame? && a.c in sys.calls && sys.calls[a.c].pc.Blaming?)
  {
    if Enabled(sys, a) && !a.Tick? {
      if a.c in sys.calls { assert CallOk(p, sys.calls[a.c]); }
      BlamesPut(sys.calls, a.c, Do(p, sys, a).calls[a.c]);
      assert Do(p, sys, a).calls == sys.calls[a.c := Do(p, sys, a).calls[a.c]];
    }
  }

  /** In every interleaving the breaker is where the reports put it, in the order they were made, with one
      failure for every call that blamed it; and the retry counter counts exactly the retried replies. */
  lemma {:induction false} BreakerHearsEveryReport(p: RetryPolicy, acts: seq<Act>)
    ensures Run(p, acts).breaker == After(p.breaker, Reports(p, acts))
    ensures FailuresIn(Reports(p, acts)) == |BlamesOf(Run(p, acts).calls)|
    ensures Run(p, acts).counters.retries == RetriesIn(p, acts)
  {
    if acts == [] {
      assert BlamesOf(map[]) == {};
    } else {
      var init, a := acts[..|acts| - 1], acts[|acts| - 1];
      BreakerHearsEveryReport(p, init);
      RunCallsOk(p, init);
      BlamesStep(p, Run(p, init), a);
      ReportStep(p, Reports(p, init), Run(p, init), a);
      RetryStep(p, Run(p, init), a);
    }
  }

  // ---- who is let through -----------------------------------------------------------------------------

  /** Step `i` asks the breaker for call `c`: does it find it open? */
  predicate AsksAt(p: RetryPolicy, acts: seq<Act>, i: nat, c: CallId, finds: bool)
    requires i < |acts|
  {
    var sys := Run(p, acts[..i]);
    && acts[i] == Ask(c) && c in sys.calls && sys.calls[c].pc.Asking?
    && finds == (p.breaker.enabled && sys.now < sys.breaker.openUntil)
  }

  predicate Rejected(r: Call) { r.pc == Failing(CircuitOpen) || r.pc == Naming(CircuitOpen) }

  predicate LetThrough(r: Call) { InLoop(r.pc) || r.sends > 0 }

  ghost predicate Asked(p: RetryPolicy, acts: seq<Act>, c: CallId, finds: bool) {
    exists i :: 0 <= i < |acts| && AsksAt(p, acts, i, c, finds)
  }

  lemma AskedGrows(p: RetryPolicy, acts: seq<Act>, c: CallId, finds: bool)
    requires acts != [] && Asked(p, acts[..|acts| - 1], c, finds)
    ensures Asked(p, acts, c, finds)
  {
    var init := acts[..|acts| - 1];
    var i :| 0 <= i < |init| && AsksAt(p, init, i, c, finds);
    assert init[..i] == acts[..i] && AsksAt(p, acts, i, c, finds);
  }

  lemma AskStep(p: RetryPolicy, sys: Sys, a: Act, c: CallId)
    requires c in Do(p, sys, a).calls
    requires c in sys.calls ==> CallOk(p, sys.calls[c])
    ensures Rejected(Do(p, sys, a).calls[c]) ==>
      || (c in sys.calls && Rejected(sys.calls[c]))
      || (a == Ask(c) && c in sys.calls && sys.calls[c].pc.Asking?
          && p.breaker.enabled && sys.now < sys.breaker.openUntil)
    ensures LetThrough(Do(p, sys, a).calls[c]) ==>
      || (c in sys.calls && LetThrough(sys.calls[c]))
      || (a == Ask(c) && c in sys.calls && sys.calls[c].pc.Asking?
          && !(p.breaker.enabled && sys.now < sys.breaker.openUntil))
  {}

  /** A call is rejected only by an open breaker, and starts a request only past one that is not. */
  lemma {:induction false} OpenBreakerRejects(p: RetryPolicy, acts: seq<Act>, c: CallId)
    requires c in Run(p, acts).calls
    ensures Rejected(Run(p, acts).calls[c]) ==> Asked(p, acts, c, true)
    ensures LetThrough(Run(p, acts).calls[c]) ==> Asked(p, acts, c, false)
  {
    if acts != [] {
      var n := |acts| - 1;
      var sys := Run(p, acts[..n]);
      RunCallsOk(p, acts[..n]);
      if c in sys.calls {
        OpenBreakerRejects(p, acts[..n], c);
        if Asked(p, acts[..n], c, true) { AskedGrows(p, acts, c, true); }
        if Asked(p, acts[..n], c, false) { AskedGrows(p, acts, c, false); }
      }
      AskStep(p, sys, acts[n], c);
      var finds := p.breaker.enabled && sys.now < sys.breaker.openUntil;
      assert AsksAt(p, acts, n, c, finds) == (acts[n] == Ask(c) && c in sys.calls && sys.calls[c].pc.Asking?);
    }
  }

  // ---- one call as a method -------------------------------------------------------------------------

  /** One exchange with the API: what comes back and how long it takes. */
  datatype Exchange = Exchange(reply: Reply, elapsed: nat)

  /** What a reply means to the caller. */
  ghost predicate Means(reply: Reply, outcome: Outcome) {
    && (forall v :: outcome == Value(v) <==> reply == Decoded(v))
    && (outcome == Failed(Decode) <==> reply == Undecodable)
    && (outcome == Failed(Transport) <==> reply.NoAnswer?)
    && (outcome == Failed(RetryableStatus) <==> reply == BadStatus(true))
    && (outcome == Failed(NonRetryableStatus) <==> reply == BadStatus(false))
  }

  /** Every request that did not decide the outcome was retried. */
  function Retried(sends: nat, outcome: Outcome): nat {
    if sends == 0 || outcome == Failed(Timeout) then sends else sends - 1
  }

  /** An outcome is counted once, as a success or as a failure of exactly its kind; nothing else changes. */
  ghost predicate Counted(before: Counters, after: Counters, outcome: Outcome) {
    && after.requests == before.requests && after.retries == before.retries
    && after.successes == before.successes + One(outcome.Value?)
    && after.failures == before.failures + One(outcome.Failed?)
    && Named(after) == Named(before) + One(outcome.Failed?)
    && forall k: FailureKind :: CountOf(after, k) == CountOf(before, k) + One(outcome == Failed(k))
  }

  /** When attempt `k` begins, all before it having been retried. */
  function StartOf(p: RetryPolicy, deadline: Option<Instant>, begin: Instant, replies: seq<Exchange>, k: nat): Instant
    requires k <= |replies|
  {
    if k == 0 then begin
    else SleepUntil(p, StartOf(p, deadline, begin, replies, k - 1) + replies[k - 1].elapsed, deadline, k - 1)
  }

  predicate InTime(p: RetryPolicy, deadline: Option<Instant>, begin: Instant, replies: seq<Exchange>, i: nat)
    requires i <= |replies|
  {
    deadline.Some? ==> StartOf(p, deadline, begin, replies, i) < deadline.value
  }

  /** Attempt `i` was made before the deadline and its reply was one to retry. */
  predicate RetriedAt(p: RetryPolicy, deadline: Option<Instant>, begin: Instant, replies: seq<Exchange>, i: nat)
    requires i < |replies|
  {
    replies[i].reply in {BadStatus(true), NoAnswer(true)} && InTime(p, deadline, begin, replies, i)
  }

  ghost predicate AllRetried(p: RetryPolicy, deadline: Option<Instant>, begin: Instant, replies: seq<Exchange>, n: nat)
  {
    n <= |replies| && forall i :: 0 <= i < n ==> RetriedAt(p, deadline, begin, replies, i)
  }

  /** Did the replies decide this outcome by `end`, after `sends` requests? The first reply that is not retried
      decides, and only the last attempt's retryable reply is not retried; a timeout is an attempt that would
      begin at or after the deadline. */
  ghost predicate Decides(p: RetryPolicy, deadline: Option<Instant>, begin: Instant, replies: seq<Exchange>,
                          sends: nat, outcome: Outcome, end: Instant)
    requires |replies| == p.maxRetries + 1
  {
    if outcome == Failed(Timeout) then
      && sends <= p.maxRetries && AllRetried(p, deadline, begin, replies, sends)
      && !InTime(p, deadline, begin, replies, sends) && end == StartOf(p, deadline, begin, replies, sends)
    else
      && 0 < sends <= |replies| && AllRetried(p, deadline, begin, replies, sends - 1)
      && InTime(p, deadline, begin, replies, sends - 1) && Means(replies[sends - 1].reply, outcome)
      && (replies[sends - 1].reply in {BadStatus(true), NoAnswer(true)} ==> sends == |replies|)
      && end == StartOf(p, deadline, begin, replies, sends - 1) + replies[sends - 1].elapsed
  }

  /** A success closes the breaker, a client-side status leaves it alone, anything else is a failure. */
  predicate BreakerFollows(p: RetryPolicy, reply: Reply, before: Breaker, after: Breaker, now: Instant) {
    match reply
    case Decoded(_) => after == Succeed(before)
    case BadStatus(false) => after == before
    case _ => after == Fail(p.breaker, before, now)
  }

  class PhiraClient {
    const policy: RetryPolicy
    const breaker: PhiraCircuitBreaker
    var counters: Counters
    var now: Instant
    var sends: nat

    constructor (p: RetryPolicy)
      ensures policy == p && counters == ZERO
      ensures breaker.policy == p.breaker && breaker.View() == CLOSED && fresh(breaker)
    {
      policy := p;
      breaker := new PhiraCircuitBreaker(p.breaker);
      counters, now, sends := ZERO, 0, 0;
    }

    /** One failure more, of exactly one kind; nothing else is counted. */
    method RecordFailureKind(kind: FailureKind)
      modifies this`counters
      ensures Counted(old(counters), counters, Failed(kind))
    {
      counters := counters.(failures := counters.failures + 1);
      counters := Name(counters, kind);
    }

    method Fails(kind: FailureKind) returns (outcome: Outcome)
      requires breaker.policy == policy.breaker
      modifies this`counters, breaker
      ensures outcome == Failed(kind) && Counted(old(counters), counters, outcome)
      ensures breaker.View() == if kind in {Transport, RetryableStatus, Decode}
        then Fail(policy.breaker, old(breaker.View()), now) else old(breaker.View())
    {
      if CountsAgainstUpstream(kind) { breaker.RecordFailure(now); }
      RecordFailureKind(kind);
      outcome := Failed(kind);
    }

    /** A reply that is not retried. */
    method Conclude(reply: Reply) returns (outcome: Outcome)
      requires breaker.policy == policy.breaker
      modifies this`counters, breaker
      ensures Means(reply, outcome) && outcome != Failed(CircuitOpen) && outcome != Failed(Timeout)
      ensures Counted(old(counters), counters, outcome)
      ensures BreakerFollows(policy, reply, old(breaker.View()), breaker.View(), now)
    {
      outcome := Verdict(reply);
      if outcome.Failed? {
        outcome := Fails(outcome.kind);
      } else {
        counters := counters.(successes := counters.successes + 1);
        breaker.RecordSuccess();
      }
    }

    method BoundedBackoffSleep(deadline: Option<Instant>, attempt: nat)
      modifies this`now
      ensures now == SleepUntil(policy, old(now), deadline, attempt)
    {
      if deadline.Some? {
        if now < deadline.value { now := now + Min(deadline.value - now, BackoffDelay(policy, attempt)); }
      } else {
        now := now + BackoffDelay(policy, attempt);
      }
    }

    /** One turn of the loop: an outcome, or a retry. */
    method TryOnce(deadline: Option<Instant>, replies: seq<Exchange>, attempt: nat, ghost begin: Instant)
      returns (outcome: Option<Outcome>)
      requires |replies| == policy.maxRetries + 1 && breaker.policy == policy.breaker && attempt <= policy.maxRetries
      requires now == StartOf(policy, deadline, begin, replies, attempt)
      requires AllRetried(policy, deadline, begin, replies, attempt)
      modifies this, breaker
      ensures outcome == Some(Failed(Timeout)) <==> sends == old(sends)
      ensures outcome != Some(Failed(Timeout)) ==> sends == old(sends) + 1
      ensures outcome.None? ==>
        && attempt < policy.maxRetries && now == StartOf(policy, deadline, begin, replies, attempt + 1)
        && AllRetried(policy, deadline, begin, replies, attempt + 1)
        && counters == old(counters).(retries := old(counters).retries + 1) && breaker.View() == old(breaker.View())
      ensures outcome.Some? ==>
        && Decides(policy, deadline, begin, replies, attempt + sends - old(sends), outcome.value, now)
        && Counted(old(counters), counters, outcome.value) && outcome.value != Failed(CircuitOpen)
        && if outcome.value == Failed(Timeout) then breaker.View() == old(breaker.View())
           else BreakerFollows(policy, replies[attempt].reply, old(breaker.View()), breaker.View(), now)
    {
      if !DeadlineLeft(deadline, now) {
        var failed := Fails(Timeout);
        return Some(failed);
      }
      var exchange := replies[attempt];
      sends, now := sends + 1, now + exchange.elapsed;
      if Retryable(exchange.reply) && attempt < policy.maxRetries {
        assert RetriedAt(policy, deadline, begin, replies, attempt);
        counters := counters.(retries := counters.retries + 1);
        BoundedBackoffSleep(deadline, attempt);
        outcome := None;
      } else {
        var decided := Conclude(exchange.reply);
        outcome := Some(decided);
      }
    }

    /** `get_json` against the exchanges its attempts would meet. */
    method GetJson(deadline: Option<Instant>, replies: seq<Exchange>) returns (outcome: Outcome)
      requires |replies| == policy.maxRetries + 1 && breaker.policy == policy.breaker
      modifies this, breaker
      ensures !old(Admits(policy.breaker, breaker.View(), now)) ==>
        outcome == Failed(CircuitOpen) && sends == old(sends) && now == old(now)
      ensures old(Admits(policy.breaker, breaker.View(), now)) ==>
        sends >= old(sends) && Decides(policy, deadline, old(now), replies, sends - old(sends), outcome, now)
      ensures Counted(old(counters).(requests := old(counters).requests + 1,
                                     retries := old(counters).retries + Retried(sends - old(sends), outcome)),
                      counters, outcome)
      ensures if outcome == Failed(CircuitOpen) || outcome == Failed(Timeout) then breaker.View() == old(breaker.View())
              else BreakerFollows(policy, replies[sends - old(sends) - 1].reply,
                                  old(breaker.View()), breaker.View(), now)
    {
      counters := counters.(requests := counters.requests + 1);
      var admitted := breaker.AllowRequest(now);
      if !admitted {
        outcome := Fails(CircuitOpen);
        return;
      }
      for attempt := 0 to policy.maxRetries + 1
        invariant attempt <= policy.maxRetries && sends == old(sends) + attempt
        invariant now == StartOf(policy, deadline, old(now), replies, attempt)
        invariant AllRetried(policy, deadline, old(now), replies, attempt)
        invariant counters == old(counters).(requests := old(counters).requests + 1,
                                             retries := old(counters).retries + attempt)
        invariant breaker.View() == old(breaker.View())
      {
        var decided := TryOnce(deadline, replies, attempt, old(now));
        if decided.Some? { return decided.value; }
      }
      assert false;
    }
  }
}
