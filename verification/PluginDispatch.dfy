/** The plugin event dispatcher: callers pass a send gate and a closed flag to reach one bounded queue, and a
    single consumer handles its messages in order until it meets the Shutdown message. */
module PluginDispatch {
  import opened Options

  type Tid = nat
  type PluginEvent = nat

  const MIN_CAPACITY := 16

  datatype Op = Dispatch(e: PluginEvent) | TryDispatch(e: PluginEvent) | FlushEvents | ShutdownDispatcher

  /** `before`: how many events the queue had accepted when the flush was queued. */
  datatype Message = Event(e: PluginEvent) | Flush(t: Tid, before: nat) | Shutdown(t: Tid)

  datatype Consumer = NotRunning | Idle | Holding(m: Message) | Exited

  /** Where a call stands; `InGate` and later up to `Reopening` hold the send gate. */
  datatype Pc =
    | Entered(op: Op)
    | ProbeClosed(op: Op)
    | ProbeSuspended(op: Op)
    | AtGate(op: Op)
    | InGate(op: Op)
    | Sending(op: Op)
    | Reopening
    | Awaiting
    | Returned(ok: bool)

  /** `accepted`, `done` and `direct` record the events queued, handed to `trigger` by the consumer, and
      handed over by a caller before the dispatcher started. `acks` holds the replies sent; for a flush, with the
      number of events accepted before it. */
  datatype Sys = Sys(
    capacity: nat, started: bool, closed: bool, suspended: bool, gate: Option<Tid>,
    queue: seq<Message>, consumer: Consumer, calls: map<Tid, Pc>, acks: map<Tid, nat>,
    accepted: seq<PluginEvent>, done: seq<PluginEvent>, direct: seq<PluginEvent>, shutdownQueued: bool)

  function Initial(capacity: nat): Sys {
    Sys(if capacity > MIN_CAPACITY then capacity else MIN_CAPACITY, false, false, false, None, [], NotRunning,
        map[], map[], [], [], [], false)
  }

  datatype Act =
    | StartDispatcher
    | SpawnConsumer
    | Suspend(suspended: bool)
    | Call(t: Tid, op: Op)
    | Enter(t: Tid)
    | Probe(t: Tid)
    | Acquire(t: Tid)
    | TryLockFails(t: Tid)
    | CheckClosed(t: Tid)
    | SendNow(t: Tid)
    | Reopen(t: Tid)
    | GetReply(t: Tid)
    | GiveUp(t: Tid)
    | Recv
    | Process

  predicate At(sys: Sys, t: Tid) { t in sys.calls }

  function Go(sys: Sys, t: Tid, pc: Pc): Sys { sys.(calls := sys.calls[t := pc]) }

  function Leave(sys: Sys, t: Tid, pc: Pc): Sys { sys.(calls := sys.calls[t := pc], gate := None) }

  predicate IsEventOp(op: Op) { op.Dispatch? || op.TryDispatch? }

  predicate HoldsGate(pc: Pc) { pc.InGate? || pc.Sending? || pc.Reopening? }

  /** The first load: nothing is queued before the dispatcher starts. */
  function EnterCall(sys: Sys, t: Tid, op: Op): Sys {
    if sys.started then Go(sys, t, if op.TryDispatch? then ProbeClosed(op) else AtGate(op))
    else if op.Dispatch? then Go(sys, t, Returned(true)).(direct := sys.direct + [op.e])
    else Go(sys, t, Returned(!op.TryDispatch?))
  }

  /** Under the gate: a shutdown swaps the flag, everything else only reads it. */
  function Admit(sys: Sys, t: Tid, op: Op): Sys {
    if sys.closed then Leave(sys, t, Returned(op.ShutdownDispatcher?))
    else Go(sys, t, Sending(op)).(closed := op.ShutdownDispatcher?)
  }

  predicate CanSend(sys: Sys, op: Op) { IsEventOp(op) || sys.consumer.Exited? || |sys.queue| < sys.capacity }

  function EventOf(m: Message): seq<PluginEvent> { if m.Event? then [m.e] else [] }

  function MessageFor(sys: Sys, t: Tid, op: Op): Message {
    match op
    case FlushEvents => Flush(t, |sys.accepted|)
    case ShutdownDispatcher => Shutdown(t)
    case _ => Event(op.e)
  }

  function Queued(sys: Sys, t: Tid, op: Op, m: Message): Sys {
    sys.(calls := sys.calls[t := if IsEventOp(op) then Returned(true) else Awaiting],
         gate := None, queue := sys.queue + [m], accepted := sys.accepted + EventOf(m),
         shutdownQueued := sys.shutdownQueued || m.Shutdown?)
  }

  predicate Refused(sys: Sys) { sys.consumer.Exited? || |sys.queue| >= sys.capacity }

  /** A refused shutdown goes on to open the flag again, still holding the gate. */
  function Bounced(sys: Sys, t: Tid, op: Op): Sys {
    if op.ShutdownDispatcher? then Go(sys, t, Reopening) else Leave(sys, t, Returned(false))
  }

  /** `try_send` for events, a blocking `send` for the control messages; the consumer's exit closes the queue. */
  function SendMessage(sys: Sys, t: Tid, op: Op): Sys {
    if Refused(sys) then Bounced(sys, t, op) else Queued(sys, t, op, MessageFor(sys, t, op))
  }

  function ProcessMessage(sys: Sys, m: Message): Sys {
    match m
    case Event(e) => sys.(consumer := Idle, done := sys.done + [e])
    case Flush(t, before) => sys.(consumer := Idle, acks := sys.acks[t := before])
    case Shutdown(t) => sys.(consumer := Exited, acks := sys.acks[t := 0])
  }

  predicate Enabled(sys: Sys, a: Act) {
    match a
    case StartDispatcher => true
    case SpawnConsumer => sys.started && sys.consumer.NotRunning?
    case Suspend(_) => true
    case Call(t, _) => t !in sys.calls
    case Enter(t) => At(sys, t) && sys.calls[t].Entered?
    case Probe(t) => At(sys, t) && (sys.calls[t].ProbeClosed? || sys.calls[t].ProbeSuspended?)
    case Acquire(t) => At(sys, t) && sys.calls[t].AtGate? && sys.gate.None?
    case TryLockFails(t) => At(sys, t) && sys.calls[t].AtGate? && sys.calls[t].op.TryDispatch? && sys.gate.Some?
    case CheckClosed(t) => At(sys, t) && sys.calls[t].InGate?
    case SendNow(t) => At(sys, t) && sys.calls[t].Sending? && CanSend(sys, sys.calls[t].op)
    case Reopen(t) => At(sys, t) && sys.calls[t].Reopening?
    case GetReply(t) => At(sys, t) && sys.calls[t].Awaiting? && t in sys.acks
    case GiveUp(t) => At(sys, t) && !sys.calls[t].Returned?
    case Recv => sys.consumer.Idle? && sys.queue != []
    case Process => sys.consumer.Holding?
  }

  function Do(sys: Sys, a: Act): Sys {
    if !Enabled(sys, a) then sys else
    match a
    case StartDispatcher => sys.(started := true)
    case SpawnConsumer => sys.(consumer := Idle)
    case Suspend(suspended) => sys.(suspended := suspended)
    case Call(t, op) => Go(sys, t, Entered(op))
    case Enter(t) => EnterCall(sys, t, sys.calls[t].op)
    case Probe(t) =>
      var op := sys.calls[t].op;
      if sys.calls[t].ProbeClosed? then Go(sys, t, if sys.closed then Returned(false) else ProbeSuspended(op))
      else Go(sys, t, if sys.suspended then Returned(false) else AtGate(op))
    case Acquire(t) => Go(sys, t, InGate(sys.calls[t].op)).(gate := Some(t))
    case TryLockFails(t) => Go(sys, t, Returned(false))
    case CheckClosed(t) => Admit(sys, t, sys.calls[t].op)
    case SendNow(t) => SendMessage(sys, t, sys.calls[t].op)
    case Reopen(t) => Leave(sys, t, Returned(false)).(closed := false)
    case GetReply(t) => Go(sys, t, Returned(true))
    case GiveUp(t) => if HoldsGate(sys.calls[t]) then Leave(sys, t, Returned(false)) else Go(sys, t, Returned(false))
    case Recv => sys.(consumer := Holding(sys.queue[0]), queue := sys.queue[1..])
    case Process => ProcessMessage(sys, sys.consumer.m)
  }

  function Steps(sys: Sys, acts: seq<Act>): Sys {
    if acts == [] then sys else Do(Steps(sys, acts[..|acts| - 1]), acts[|acts| - 1])
  }

  // ---- the gate and the closed flag -----------------------------------------------------------------

  /** Only the gate's holder is past the gate; whoever sends saw the flag open, or is the one that closed it. */
  predicate CallOk(sys: Sys, t: Tid, pc: Pc) {
    && (HoldsGate(pc) <==> sys.gate == Some(t))
    && (pc.Sending? ==> !sys.shutdownQueued && sys.closed == pc.op.ShutdownDispatcher?)
    && !pc.Reopening?
  }

  predicate CallsOk(sys: Sys) { forall t :: t in sys.calls ==> CallOk(sys, t, sys.calls[t]) }

  /** The Shutdown message, once queued, is the last message there ever is. */
  predicate ShutdownLast(sys: Sys) {
    && (sys.shutdownQueued ==> sys.closed)
    && (forall i :: 0 <= i < |sys.queue| && sys.queue[i].Shutdown? ==> i == |sys.queue| - 1 && sys.shutdownQueued)
    && (sys.consumer.Holding? && sys.consumer.m.Shutdown? ==> sys.queue == [] && sys.shutdownQueued)
    && (sys.consumer.Exited? ==> sys.queue == [] && sys.shutdownQueued)
  }

  predicate GateOk(sys: Sys) {
    && CallsOk(sys)
    && ShutdownLast(sys)
    && (sys.gate.Some? ==> sys.gate.value in sys.calls)
  }

  predicate IsSilent(a: Act) { a.StartDispatcher? || a.SpawnConsumer? || a.Suspend? || a.Recv? || a.Process? }

  predicate IsOutside(a: Act) { a.Call? || a.Enter? || a.Probe? || a.TryLockFails? || a.GetReply? }

  lemma SilentStep(sys: Sys, a: Act)
    requires IsSilent(a)
    ensures Do(sys, a).calls == sys.calls && Do(sys, a).gate == sys.gate
    ensures Do(sys, a).closed == sys.closed && Do(sys, a).shutdownQueued == sys.shutdownQueued
  {
    if a.Process? && Enabled(sys, a) { assert Do(sys, a) == ProcessMessage(sys, sys.consumer.m); }
  }

  /** The call `t` moved, outside the gate, and no other. */
  predicate MovedOutside(sys: Sys, next: Sys, t: Tid) {
    && t in next.calls && !HoldsGate(next.calls[t]) && next.calls == sys.calls[t := next.calls[t]]
    && (t in sys.calls ==> !HoldsGate(sys.calls[t]))
  }

  lemma EnterMovesOutside(sys: Sys, t: Tid)
    requires Enabled(sys, Enter(t))
    ensures MovedOutside(sys, Do(sys, Enter(t)), t)
  {}

  lemma ProbeMovesOutside(sys: Sys, t: Tid)
    requires Enabled(sys, Probe(t))
    ensures MovedOutside(sys, Do(sys, Probe(t)), t)
  {}

  lemma CallMovesOutside(sys: Sys, t: Tid, op: Op)
    requires Enabled(sys, Call(t, op))
    ensures MovedOutside(sys, Do(sys, Call(t, op)), t)
  {}

  lemma LeaveMovesOutside(sys: Sys, a: Act)
    requires Enabled(sys, a) && (a.TryLockFails? || a.GetReply?)
    ensures MovedOutside(sys, Do(sys, a), a.t)
  {}

  /** Steps outside the gate move one call that does not hold it, and nothing else the gate protects. */
  lemma OutsideStep(sys: Sys, a: Act)
    requires IsOutside(a) && Enabled(sys, a)
    ensures MovedOutside(sys, Do(sys, a), a.t)
  {
    match a
    case Enter(t) => EnterMovesOutside(sys, t);
    case Probe(t) => ProbeMovesOutside(sys, t);
    case Call(t, op) => CallMovesOutside(sys, t, op);
    case _ => LeaveMovesOutside(sys, a);
  }

  lemma OutsideStepFlags(sys: Sys, a: Act)
    requires IsOutside(a)
    ensures var next := Do(sys, a);
      next.gate == sys.gate && next.closed == sys.closed && next.shutdownQueued == sys.shutdownQueued
  {}

  lemma OutsideKeepsCallOk(sys: Sys, a: Act, t: Tid)
    requires CallsOk(sys) && (sys.gate.Some? ==> sys.gate.value in sys.calls)
    requires IsOutside(a) && Enabled(sys, a) && t in Do(sys, a).calls
    ensures CallOk(Do(sys, a), t, Do(sys, a).calls[t])
  {
    OutsideStep(sys, a);
    OutsideStepFlags(sys, a);
    if t in sys.calls { assert CallOk(sys, t, sys.calls[t]); }
  }

  lemma SilentKeepsCallOk(sys: Sys, a: Act, t: Tid)
    requires CallsOk(sys) && IsSilent(a) && t in Do(sys, a).calls
    ensures CallOk(Do(sys, a), t, Do(sys, a).calls[t])
  {
    SilentStep(sys, a);
    assert CallOk(sys, t, sys.calls[t]);
  }

  /** The branch that opens the closed flag again is never reached. */
  lemma NeverReopens(sys: Sys, t: Tid)
    requires CallsOk(sys)
    ensures !Enabled(sys, Reopen(t))
  {
    if t in sys.calls { assert CallOk(sys, t, sys.calls[t]); }
  }

  lemma AcquireKeepsCallOk(sys: Sys, u: Tid, t: Tid)
    requires CallsOk(sys) && t in sys.calls && Enabled(sys, Acquire(u))
    ensures CallOk(Do(sys, Acquire(u)), t, Do(sys, Acquire(u)).calls[t])
  {
    assert CallOk(sys, t, sys.calls[t]);
  }

  lemma CheckKeepsCallOk(sys: Sys, u: Tid, t: Tid)
    requires CallsOk(sys) && t in sys.calls && Enabled(sys, CheckClosed(u)) && (sys.shutdownQueued ==> sys.closed)
    ensures CallOk(Do(sys, CheckClosed(u)), t, Do(sys, CheckClosed(u)).calls[t])
  {
    assert CallOk(sys, t, sys.calls[t]) && CallOk(sys, u, sys.calls[u]);
  }

  lemma SendKeepsCallOk(sys: Sys, u: Tid, t: Tid)
    requires CallsOk(sys) && t in sys.calls && Enabled(sys, SendNow(u)) && (sys.consumer.Exited? ==> sys.shutdownQueued)
    ensures CallOk(Do(sys, SendNow(u)), t, Do(sys, SendNow(u)).calls[t])
  {
    assert CallOk(sys, t, sys.calls[t]) && CallOk(sys, u, sys.calls[u]);
  }

  lemma GiveUpKeepsCallOk(sys: Sys, u: Tid, t: Tid)
    requires CallsOk(sys) && t in sys.calls && Enabled(sys, GiveUp(u))
    ensures CallOk(Do(sys, GiveUp(u)), t, Do(sys, GiveUp(u)).calls[t])
  {
    assert CallOk(sys, t, sys.calls[t]) && CallOk(sys, u, sys.calls[u]);
  }

  lemma DoKeepsCallsOk(sys: Sys, a: Act)
    requires GateOk(sys) && Enabled(sys, a) && !a.Reopen?
    ensures CallsOk(Do(sys, a))
  {
    forall t | t in Do(sys, a).calls ensures CallOk(Do(sys, a), t, Do(sys, a).calls[t]) {
      match a
      case Acquire(u) => AcquireKeepsCallOk(sys, u, t);
      case CheckClosed(u) => CheckKeepsCallOk(sys, u, t);
      case SendNow(u) => SendKeepsCallOk(sys, u, t);
      case GiveUp(u) => GiveUpKeepsCallOk(sys, u, t);
      case _ => if IsSilent(a) { SilentKeepsCallOk(sys, a, t); } else { OutsideKeepsCallOk(sys, a, t); }
    }
  }

  lemma SendKeepsShutdownLast(sys: Sys, u: Tid)
    requires GateOk(sys) && Enabled(sys, SendNow(u))
    ensures ShutdownLast(Do(sys, SendNow(u)))
  {
    assert CallOk(sys, u, sys.calls[u]);
  }

  lemma DoKeepsShutdownLast(sys: Sys, a: Act)
    requires GateOk(sys) && Enabled(sys, a) && !a.Reopen?
    ensures ShutdownLast(Do(sys, a))
  {
    if a.SendNow? { SendKeepsShutdownLast(sys, a.t); }
  }

  lemma DoKeepsGateOk(sys: Sys, a: Act)
    requires GateOk(sys)
    ensures GateOk(Do(sys, a))
  {
    if Enabled(sys, a) {
      if a.Reopen? { NeverReopens(sys, a.t); }
      DoKeepsCallsOk(sys, a);
      DoKeepsShutdownLast(sys, a);
    }
  }

  // ---- every accepted event is handled once, in order -----------------------------------------------

  function EventsIn(queue: seq<Message>): seq<PluginEvent> {
    if queue == [] then [] else EventsIn(queue[..|queue| - 1]) + EventOf(queue[|queue| - 1])
  }

  function Held(c: Consumer): seq<PluginEvent> { if c.Holding? then EventOf(c.m) else [] }

  lemma Associate(a: seq<PluginEvent>, b: seq<PluginEvent>, c: seq<PluginEvent>)
    ensures a + b + c == a + (b + c)
  {}

  lemma {:induction false} EventsInCons(m: Message, queue: seq<Message>)
    ensures EventsIn([m] + queue) == EventOf(m) + EventsIn(queue)
  {
    if queue == [] {
      assert [m] + queue == [m] && [m][..0] == [];
    } else {
      var init := queue[..|queue| - 1];
      EventsInCons(m, init);
      var last := queue[|queue| - 1];
      assert ([m] + queue)[..|queue|] == [m] + init && ([m] + queue)[|queue|] == last;
      Associate(EventOf(m), EventsIn(init), EventOf(last));
    }
  }

  lemma EventsInFromFront(queue: seq<Message>)
    requires queue != []
    ensures EventsIn(queue) == EventOf(queue[0]) + EventsIn(queue[1..])
  {
    assert queue == [queue[0]] + queue[1..];
    EventsInCons(queue[0], queue[1..]);
  }

  /** What was accepted is what was handled, then what is being handled, then what is queued. */
  predicate StreamOk(sys: Sys) { sys.accepted == sys.done + Held(sys.consumer) + EventsIn(sys.queue) }

  lemma Regroup(a: seq<PluginEvent>, b: seq<PluginEvent>, c: seq<PluginEvent>, d: seq<PluginEvent>)
    ensures a + b + (c + d) == a + b + c + d && a + [] + (c + d) == a + c + d && a + c + [] + d == a + c + d
  {}

  predicate SameStream(sys: Sys, next: Sys) {
    && next.accepted == sys.accepted && next.done == sys.done && next.consumer == sys.consumer
    && next.queue == sys.queue && next.acks == sys.acks
  }

  predicate Appends(sys: Sys, next: Sys, m: Message) {
    && next.accepted == sys.accepted + EventOf(m) && next.done == sys.done && next.consumer == sys.consumer
    && next.queue == sys.queue + [m] && next.acks == sys.acks
  }

  /** A send bounces, or appends one message and accepts its event. */
  lemma SendAppends(sys: Sys, t: Tid, op: Op)
    ensures Refused(sys) ==> SameStream(sys, SendMessage(sys, t, op))
    ensures !Refused(sys) ==> Appends(sys, SendMessage(sys, t, op), MessageFor(sys, t, op))
  {}

  lemma AppendKeepsStreamOk(sys: Sys, next: Sys, m: Message)
    requires StreamOk(sys) && Appends(sys, next, m)
    ensures StreamOk(next)
  {
    assert next.queue[..|sys.queue|] == sys.queue;
    Regroup(sys.done, Held(sys.consumer), EventsIn(sys.queue), EventOf(m));
  }

  lemma RecvKeepsStreamOk(sys: Sys)
    requires StreamOk(sys) && Enabled(sys, Recv)
    ensures StreamOk(Do(sys, Recv))
  {
    EventsInFromFront(sys.queue);
    Regroup(sys.done, [], EventOf(sys.queue[0]), EventsIn(sys.queue[1..]));
  }

  lemma ProcessKeepsStreamOk(sys: Sys, m: Message)
    requires StreamOk(sys) && sys.consumer == Holding(m)
    ensures StreamOk(ProcessMessage(sys, m))
  {
    Regroup(sys.done, [], EventOf(m), EventsIn(sys.queue));
  }

  predicate IsStreamStep(a: Act) { a.SendNow? || a.Recv? || a.Process? || a.SpawnConsumer? }

  lemma OtherStepsKeepStream(sys: Sys, a: Act)
    requires !IsStreamStep(a)
    ensures SameStream(sys, Do(sys, a))
  {
    if a.Acquire? || a.CheckClosed? || a.Reopen? || a.GiveUp? { GateStepsKeepStream(sys, a); }
  }

  lemma GateStepsKeepStream(sys: Sys, a: Act)
    requires a.Acquire? || a.CheckClosed? || a.Reopen? || a.GiveUp?
    ensures SameStream(sys, Do(sys, a))
  {}

  lemma DoKeepsStreamOk(sys: Sys, a: Act)
    requires StreamOk(sys)
    ensures StreamOk(Do(sys, a))
  {
    if !Enabled(sys, a) {
    } else if a.SendNow? {
      var m := MessageFor(sys, a.t, sys.calls[a.t].op);
      SendAppends(sys, a.t, sys.calls[a.t].op);
      if !Refused(sys) { AppendKeepsStreamOk(sys, Do(sys, a), m); }
    } else if a.Recv? {
      RecvKeepsStreamOk(sys);
    } else if a.Process? {
      ProcessKeepsStreamOk(sys, sys.consumer.m);
    } else if !a.SpawnConsumer? {
      OtherStepsKeepStream(sys, a);
    }
  }

  // ---- what a flush reply means ---------------------------------------------------------------------

  /** Each queued flush carries the number of events ahead of it. */
  predicate FlushesOk(queue: seq<Message>, base: nat) {
    forall i :: 0 <= i < |queue| && queue[i].Flush? ==> queue[i].before == base + |EventsIn(queue[..i])|
  }

  predicate AcksOk(sys: Sys) {
    && FlushesOk(sys.queue, |sys.done| + |Held(sys.consumer)|)
    && (sys.consumer.Holding? && sys.consumer.m.Flush? ==> sys.consumer.m.before == |sys.done|)
    && (forall t :: t in sys.acks ==> sys.acks[t] <= |sys.done|)
  }

  lemma FlushesAppend(queue: seq<Message>, base: nat, m: Message)
    requires FlushesOk(queue, base) && (m.Flush? ==> m.before == base + |EventsIn(queue)|)
    ensures FlushesOk(queue + [m], base)
  {
    var longer := queue + [m];
    forall i | 0 <= i < |longer| && longer[i].Flush? ensures longer[i].before == base + |EventsIn(longer[..i])| {
      assert longer[..i] == queue[..i];
      if i < |queue| { assert longer[i] == queue[i]; } else { assert queue[..i] == queue; }
    }
  }

  lemma FlushesPop(queue: seq<Message>, base: nat)
    requires queue != [] && FlushesOk(queue, base)
    ensures FlushesOk(queue[1..], base + |EventOf(queue[0])|)
    ensures queue[0].Flush? ==> queue[0].before == base
  {
    var rest := queue[1..];
    forall i | 0 <= i < |rest| && rest[i].Flush?
      ensures rest[i].before == base + |EventOf(queue[0])| + |EventsIn(rest[..i])|
    {
      EventsInFromFront(queue[..i + 1]);
      assert queue[..i + 1][1..] == rest[..i] && rest[i] == queue[i + 1];
    }
    if queue[0].Flush? { assert queue[..0] == []; }
  }

  lemma AppendKeepsAcksOk(sys: Sys, next: Sys, m: Message)
    requires AcksOk(sys) && StreamOk(sys) && Appends(sys, next, m) && (m.Flush? ==> m.before == |sys.accepted|)
    ensures AcksOk(next)
  {
    FlushesAppend(sys.queue, |sys.done| + |Held(sys.consumer)|, m);
  }

  lemma RecvKeepsAcksOk(sys: Sys)
    requires AcksOk(sys) && Enabled(sys, Recv)
    ensures AcksOk(Do(sys, Recv))
  {
    FlushesPop(sys.queue, |sys.done|);
  }

  lemma ProcessKeepsAcksOk(sys: Sys, m: Message)
    requires AcksOk(sys) && sys.consumer == Holding(m)
    ensures AcksOk(ProcessMessage(sys, m))
  {}

  lemma DoKeepsAcksOk(sys: Sys, a: Act)
    requires AcksOk(sys) && StreamOk(sys) && ShutdownLast(sys)
    ensures AcksOk(Do(sys, a))
  {
    if !Enabled(sys, a) {
    } else if a.SendNow? {
      var m := MessageFor(sys, a.t, sys.calls[a.t].op);
      SendAppends(sys, a.t, sys.calls[a.t].op);
      if !Refused(sys) { AppendKeepsAcksOk(sys, Do(sys, a), m); }
    } else if a.Recv? {
      RecvKeepsAcksOk(sys);
    } else if a.Process? {
      ProcessKeepsAcksOk(sys, sys.consumer.m);
    } else if !a.SpawnConsumer? {
      OtherStepsKeepStream(sys, a);
    }
  }

  // ---- which call a reply belongs to ----------------------------------------------------------------

  predicate TaggedBy(m: Message, t: Tid) { !m.Event? && m.t == t }

  predicate BeforeSend(pc: Pc) { !pc.Awaiting? && !pc.Returned? }

  /** The control messages of call `t`, queued or in the consumer's hands, are `m`, and its reply is `m`'s. */
  predicate Tracked(sys: Sys, t: Tid, m: Message) {
    && (forall k :: k in sys.queue && TaggedBy(k, t) ==> k == m)
    && (sys.consumer.Holding? && TaggedBy(sys.consumer.m, t) ==> sys.consumer.m == m)
    && (t in sys.acks && m.Flush? ==> sys.acks[t] == m.before)
    && (t in sys.acks && m.Shutdown? ==> sys.consumer.Exited?)
  }

  predicate HasMessage(sys: Sys, t: Tid) {
    || (exists k :: k in sys.queue && TaggedBy(k, t))
    || (sys.consumer.Holding? && TaggedBy(sys.consumer.m, t))
    || t in sys.acks
  }

  ghost predicate TagsOk(sys: Sys) {
    forall t :: HasMessage(sys, t) ==> t in sys.calls && !BeforeSend(sys.calls[t])
  }

  ghost predicate Ok(sys: Sys) { GateOk(sys) && StreamOk(sys) && AcksOk(sys) && TagsOk(sys) }

  lemma MessagesAfterSend(sys: Sys, u: Tid, op: Op, t: Tid)
    requires HasMessage(SendMessage(sys, u, op), t)
    ensures HasMessage(sys, t) || (t == u && !Refused(sys) && !IsEventOp(op))
  {
    SendAppends(sys, u, op);
    if !Refused(sys) {
      var m := MessageFor(sys, u, op);
      assert forall k :: k in sys.queue + [m] ==> k in sys.queue || k == m;
    }
  }

  lemma MessagesAfterRecv(sys: Sys, t: Tid)
    requires Enabled(sys, Recv) && HasMessage(Do(sys, Recv), t)
    ensures HasMessage(sys, t)
  {
    assert forall k :: k in sys.queue[1..] || k == sys.queue[0] ==> k in sys.queue;
  }

  lemma MessagesAfterProcess(sys: Sys, k: Message, t: Tid)
    requires sys.consumer == Holding(k) && HasMessage(ProcessMessage(sys, k), t)
    ensures HasMessage(sys, t)
  {}

  lemma MessagesAfterStep(sys: Sys, a: Act, t: Tid)
    requires HasMessage(Do(sys, a), t)
    ensures HasMessage(sys, t) || (a == SendNow(t) && Enabled(sys, a) && !Refused(sys) && !IsEventOp(sys.calls[t].op))
  {
    if !Enabled(sys, a) {
    } else if a.SendNow? {
      MessagesAfterSend(sys, a.t, sys.calls[a.t].op, t);
    } else if a.Recv? {
      MessagesAfterRecv(sys, t);
    } else if a.Process? {
      MessagesAfterProcess(sys, sys.consumer.m, t);
    } else if !a.SpawnConsumer? {
      OtherStepsKeepStream(sys, a);
    }
  }

  lemma GateStepMoves(sys: Sys, a: Act)
    requires !IsSilent(a) && !IsOutside(a) && Enabled(sys, a)
    ensures a.t in sys.calls && (a.GiveUp? || (!sys.calls[a.t].Awaiting? && !sys.calls[a.t].Returned?))
    ensures a.GiveUp? ==> a.t in Do(sys, a).calls && Do(sys, a).calls[a.t].Returned?
  {}

  lemma GateStepMovesOne(sys: Sys, a: Act, t: Tid)
    requires !IsSilent(a) && !IsOutside(a) && Enabled(sys, a) && t in sys.calls && t != a.t
    ensures t in Do(sys, a).calls && Do(sys, a).calls[t] == sys.calls[t]
  {
    match a
    case Acquire(u) => AcquireMovesOne(sys, u, t);
    case CheckClosed(u) => CheckMovesOne(sys, u, t);
    case SendNow(u) => SendAppends(sys, u, sys.calls[u].op);
    case Reopen(u) => ReopenMovesOne(sys, u, t);
    case GiveUp(u) => GiveUpMovesOne(sys, u, t);
  }

  lemma AcquireMovesOne(sys: Sys, u: Tid, t: Tid)
    requires Enabled(sys, Acquire(u)) && t in sys.calls && t != u
    ensures t in Do(sys, Acquire(u)).calls && Do(sys, Acquire(u)).calls[t] == sys.calls[t]
  {}

  lemma CheckMovesOne(sys: Sys, u: Tid, t: Tid)
    requires Enabled(sys, CheckClosed(u)) && t in sys.calls && t != u
    ensures t in Do(sys, CheckClosed(u)).calls && Do(sys, CheckClosed(u)).calls[t] == sys.calls[t]
  {}

  lemma ReopenMovesOne(sys: Sys, u: Tid, t: Tid)
    requires Enabled(sys, Reopen(u)) && t in sys.calls && t != u
    ensures t in Do(sys, Reopen(u)).calls && Do(sys, Reopen(u)).calls[t] == sys.calls[t]
  {}

  lemma GiveUpMovesOne(sys: Sys, u: Tid, t: Tid)
    requires Enabled(sys, GiveUp(u)) && t in sys.calls && t != u
    ensures t in Do(sys, GiveUp(u)).calls && Do(sys, GiveUp(u)).calls[t] == sys.calls[t]
  {}

  lemma SentStaysSent(sys: Sys, a: Act, t: Tid)
    requires t in sys.calls && !BeforeSend(sys.calls[t])
    ensures t in Do(sys, a).calls && !BeforeSend(Do(sys, a).calls[t])
  {
    if !Enabled(sys, a) {
    } else if IsSilent(a) {
      SilentStep(sys, a);
    } else if IsOutside(a) {
      OutsideStep(sys, a);
    } else {
      GateStepMoves(sys, a);
      if a.t != t { GateStepMovesOne(sys, a, t); }
    }
  }

  lemma DoKeepsTagsOk(sys: Sys, a: Act)
    requires TagsOk(sys)
    ensures TagsOk(Do(sys, a))
  {
    forall t | HasMessage(Do(sys, a), t) ensures t in Do(sys, a).calls && !BeforeSend(Do(sys, a).calls[t]) {
      MessagesAfterStep(sys, a, t);
      if HasMessage(sys, t) { SentStaysSent(sys, a, t); } else { SendAppends(sys, t, sys.calls[t].op); }
    }
  }

  lemma DoKeepsOk(sys: Sys, a: Act)
    requires Ok(sys)
    ensures Ok(Do(sys, a))
  {
    DoKeepsGateOk(sys, a);
    DoKeepsStreamOk(sys, a);
    DoKeepsAcksOk(sys, a);
    DoKeepsTagsOk(sys, a);
  }

  lemma {:induction false} StepsOk(sys: Sys, acts: seq<Act>)
    requires Ok(sys)
    ensures Ok(Steps(sys, acts))
  {
    if acts != [] {
      StepsOk(sys, acts[..|acts| - 1]);
      DoKeepsOk(Steps(sys, acts[..|acts| - 1]), acts[|acts| - 1]);
    }
  }

  lemma SendKeepsTracked(sys: Sys, u: Tid, op: Op, t: Tid, m: Message)
    requires Tracked(sys, t, m) && t != u
    ensures Tracked(SendMessage(sys, u, op), t, m)
  {
    SendAppends(sys, u, op);
    if !Refused(sys) {
      var k := MessageFor(sys, u, op);
      assert forall j :: j in sys.queue + [k] ==> j in sys.queue || j == k;
    }
  }

  lemma RecvKeepsTracked(sys: Sys, t: Tid, m: Message)
    requires Enabled(sys, Recv) && Tracked(sys, t, m)
    ensures Tracked(Do(sys, Recv), t, m)
  {
    assert forall k :: k in sys.queue[1..] || k == sys.queue[0] ==> k in sys.queue;
  }

  lemma ProcessKeepsTracked(sys: Sys, k: Message, t: Tid, m: Message)
    requires sys.consumer == Holding(k) && Tracked(sys, t, m)
    ensures Tracked(ProcessMessage(sys, k), t, m)
  {}

  lemma DoKeepsTracked(sys: Sys, a: Act, t: Tid, m: Message)
    requires Tracked(sys, t, m) && t in sys.calls && !BeforeSend(sys.calls[t])
    ensures Tracked(Do(sys, a), t, m)
  {
    if !Enabled(sys, a) {
    } else if a.SendNow? {
      SendKeepsTracked(sys, a.t, sys.calls[a.t].op, t, m);
    } else if a.Recv? {
      RecvKeepsTracked(sys, t, m);
    } else if a.Process? {
      ProcessKeepsTracked(sys, sys.consumer.m, t, m);
    } else if !a.SpawnConsumer? {
      OtherStepsKeepStream(sys, a);
    }
  }

  lemma DoExtends(sys: Sys, a: Act)
    requires Ok(sys)
    ensures sys.accepted <= Do(sys, a).accepted && sys.done <= Do(sys, a).done
    ensures sys.shutdownQueued ==> Do(sys, a).shutdownQueued && Do(sys, a).accepted == sys.accepted
  {
    if !Enabled(sys, a) {
    } else if a.SendNow? {
      assert CallOk(sys, a.t, sys.calls[a.t]);
      SendAppends(sys, a.t, sys.calls[a.t].op);
    } else if IsStreamStep(a) {
      SilentStep(sys, a);
      ConsumeExtends(sys, a);
    } else {
      OtherStepsKeepStream(sys, a);
      if sys.shutdownQueued { ShutdownStaysQueued(sys, a); }
    }
  }

  lemma ConsumeExtends(sys: Sys, a: Act)
    requires a.Recv? || a.Process? || a.SpawnConsumer?
    ensures sys.accepted == Do(sys, a).accepted && sys.done <= Do(sys, a).done
  {}

  lemma ShutdownStaysQueued(sys: Sys, a: Act)
    requires sys.shutdownQueued
    ensures Do(sys, a).shutdownQueued
  {}

  lemma {:induction false} StepsExtend(sys: Sys, more: seq<Act>, t: Tid, m: Message)
    requires Ok(sys) && Tracked(sys, t, m) && t in sys.calls && !BeforeSend(sys.calls[t])
    ensures var later := Steps(sys, more);
      && Ok(later) && Tracked(later, t, m) && t in later.calls && !BeforeSend(later.calls[t])
      && sys.accepted <= later.accepted
  {
    if more != [] {
      var init, a := more[..|more| - 1], more[|more| - 1];
      StepsExtend(sys, init, t, m);
      DoKeepsOk(Steps(sys, init), a);
      DoKeepsTracked(Steps(sys, init), a, t, m);
      SentStaysSent(Steps(sys, init), a, t);
      DoExtends(Steps(sys, init), a);
    }
  }

  // ---- main results ---------------------------------------------------------------------------------

  /** In every run nothing is queued behind the Shutdown message, events are handled once and in acceptance
      order, and when the consumer exits every accepted event was handled. */
  lemma ShutdownDrainsTheQueue(capacity: nat, acts: seq<Act>)
    ensures var sys := Steps(Initial(capacity), acts);
      && (forall i :: 0 <= i < |sys.queue| && sys.queue[i].Shutdown? ==> i == |sys.queue| - 1)
      && sys.done <= sys.accepted
      && (sys.consumer.Exited? ==> sys.queue == [] && sys.done == sys.accepted)
  {
    StepsOk(Initial(capacity), acts);
    DoneIsPrefix(Steps(Initial(capacity), acts));
  }

  lemma DoneIsPrefix(sys: Sys)
    requires StreamOk(sys)
    ensures sys.done <= sys.accepted
    ensures sys.consumer.Exited? && sys.queue == [] ==> sys.done == sys.accepted
  {
    var rest := Held(sys.consumer) + EventsIn(sys.queue);
    assert sys.accepted == sys.done + rest;
  }

  /** Once Shutdown is queued no event is ever accepted again, whichever calls are still under way. */
  lemma {:induction false} NothingAcceptedAfterShutdown(capacity: nat, acts: seq<Act>, more: seq<Act>)
    requires Steps(Initial(capacity), acts).shutdownQueued
    ensures var sys, later := Steps(Initial(capacity), acts), Steps(Steps(Initial(capacity), acts), more);
      later.shutdownQueued && later.accepted == sys.accepted
  {
    var sys := Steps(Initial(capacity), acts);
    StepsOk(Initial(capacity), acts);
    if more != [] {
      var init := more[..|more| - 1];
      NothingAcceptedAfterShutdown(capacity, acts, init);
      StepsOk(sys, init);
      DoExtends(Steps(sys, init), more[|more| - 1]);
    }
  }

  lemma SentIsTracked(sys: Sys, t: Tid, op: Op)
    requires Ok(sys) && t in sys.calls && sys.calls[t] == Sending(op) && Enabled(sys, SendNow(t)) && !IsEventOp(op)
    ensures var sent := Do(sys, SendNow(t));
      && Ok(sent) && Tracked(sent, t, MessageFor(sys, t, op)) && t in sent.calls && !BeforeSend(sent.calls[t])
      && sys.accepted <= sent.accepted
  {
    assert !HasMessage(sys, t) && CallOk(sys, t, sys.calls[t]);
    DoKeepsOk(sys, SendNow(t));
    FreshIsTracked(sys, t, op);
    SendAppends(sys, t, op);
  }

  lemma FreshIsTracked(sys: Sys, t: Tid, op: Op)
    requires !HasMessage(sys, t) && !Refused(sys)
    ensures Tracked(Queued(sys, t, op, MessageFor(sys, t, op)), t, MessageFor(sys, t, op))
  {
    var m := MessageFor(sys, t, op);
    assert forall k :: k in sys.queue + [m] ==> k in sys.queue || k == m;
  }

  lemma SentThenSteps(capacity: nat, acts: seq<Act>, t: Tid, op: Op, more: seq<Act>)
    requires var sys := Steps(Initial(capacity), acts);
      t in sys.calls && sys.calls[t] == Sending(op) && Enabled(sys, SendNow(t)) && !IsEventOp(op)
    ensures var sys := Steps(Initial(capacity), acts);
      var later := Steps(Do(sys, SendNow(t)), more);
      Ok(later) && Tracked(later, t, MessageFor(sys, t, op)) && sys.accepted <= later.accepted
  {
    var sys := Steps(Initial(capacity), acts);
    StepsOk(Initial(capacity), acts);
    SentIsTracked(sys, t, op);
    StepsExtend(Do(sys, SendNow(t)), more, t, MessageFor(sys, t, op));
  }

  /** A flush that was queued and answered: every event accepted before it has been handled. */
  lemma FlushReplyMeansHandled(capacity: nat, acts: seq<Act>, t: Tid, more: seq<Act>)
    requires var sys := Steps(Initial(capacity), acts);
      t in sys.calls && sys.calls[t] == Sending(FlushEvents) && Enabled(sys, SendNow(t))
    requires t in Steps(Do(Steps(Initial(capacity), acts), SendNow(t)), more).acks
    ensures Steps(Initial(capacity), acts).accepted <= Steps(Do(Steps(Initial(capacity), acts), SendNow(t)), more).done
  {
    var sys := Steps(Initial(capacity), acts);
    SentThenSteps(capacity, acts, t, FlushEvents, more);
    HandledPrefix(Steps(Do(sys, SendNow(t)), more), t, sys.accepted);
  }

  lemma HandledPrefix(later: Sys, t: Tid, early: seq<PluginEvent>)
    requires Ok(later) && Tracked(later, t, Flush(t, |early|)) && t in later.acks && early <= later.accepted
    ensures early <= later.done
  {
    DoneIsPrefix(later);
    assert early == later.accepted[..|early|] && later.done[..|early|] == later.accepted[..|early|];
  }

  /** A shutdown that was queued and answered: every event accepted by then or since has been handled. */
  lemma ShutdownReplyMeansDrained(capacity: nat, acts: seq<Act>, t: Tid, more: seq<Act>)
    requires var sys := Steps(Initial(capacity), acts);
      t in sys.calls && sys.calls[t] == Sending(ShutdownDispatcher) && Enabled(sys, SendNow(t))
    requires t in Steps(Do(Steps(Initial(capacity), acts), SendNow(t)), more).acks
    ensures var later := Steps(Do(Steps(Initial(capacity), acts), SendNow(t)), more);
      later.done == later.accepted && later.queue == []
  {
    SentThenSteps(capacity, acts, t, ShutdownDispatcher, more);
  }

  // ---- what the callers are told --------------------------------------------------------------------

  predicate Stands(sys: Sys, t: Tid, pc: Pc) { t in sys.calls && sys.calls[t] == pc }

  /** This step lets call `t` return true: nothing had to be queued before the start, its event was queued, its
      reply came, or somebody else has already shut the dispatcher down. */
  predicate Grants(sys: Sys, a: Act, t: Tid) {
    match a
    case Enter(u) =>
      u == t && t in sys.calls && sys.calls[t].Entered? && !sys.started && !sys.calls[t].op.TryDispatch?
    case SendNow(u) =>
      && u == t && t in sys.calls && sys.calls[t].Sending?
      && (sys.calls[t].op.Dispatch? || sys.calls[t].op.TryDispatch?)
      && !sys.consumer.Exited? && |sys.queue| < sys.capacity
    case GetReply(u) => u == t && Stands(sys, t, Awaiting) && t in sys.acks
    case CheckClosed(u) => u == t && Stands(sys, t, InGate(ShutdownDispatcher)) && sys.closed
    case _ => false
  }

  predicate GrantsAt(capacity: nat, acts: seq<Act>, i: nat, t: Tid)
    requires i < |acts|
  {
    Grants(Steps(Initial(capacity), acts[..i]), acts[i], t)
  }

  lemma GrantsAtPrefix(capacity: nat, acts: seq<Act>, n: nat, i: nat, t: Tid)
    requires i < n <= |acts|
    ensures GrantsAt(capacity, acts[..n], i, t) == GrantsAt(capacity, acts, i, t)
  {
    assert acts[..n][..i] == acts[..i];
  }

  lemma SendReturnsTrueIff(sys: Sys, u: Tid, t: Tid)
    ensures Stands(Do(sys, SendNow(u)), t, Returned(true)) <==>
      Stands(sys, t, Returned(true)) || Grants(sys, SendNow(u), t)
  {}

  lemma EnterReturnsTrueIff(sys: Sys, u: Tid, t: Tid)
    ensures Stands(Do(sys, Enter(u)), t, Returned(true)) <==>
      Stands(sys, t, Returned(true)) || Grants(sys, Enter(u), t)
  {}

  lemma OutsideReturnsTrueIff(sys: Sys, a: Act, t: Tid)
    requires IsOutside(a)
    ensures Stands(Do(sys, a), t, Returned(true)) <==> Stands(sys, t, Returned(true)) || Grants(sys, a, t)
  {
    if a.Enter? { EnterReturnsTrueIff(sys, a.t, t); }
  }

  lemma StepReturnsTrueIff(sys: Sys, a: Act, t: Tid)
    ensures Stands(Do(sys, a), t, Returned(true)) <==> Stands(sys, t, Returned(true)) || Grants(sys, a, t)
  {
    if IsOutside(a) { OutsideReturnsTrueIff(sys, a, t); }
    else if IsSilent(a) { SilentStep(sys, a); }
    else if a.SendNow? { SendReturnsTrueIff(sys, a.t, t); }
  }

  /** In every run: exactly which calls return true. */
  lemma {:induction false} ReturnsTrueIff(capacity: nat, acts: seq<Act>, t: Tid)
    ensures Stands(Steps(Initial(capacity), acts), t, Returned(true)) <==>
      exists i :: 0 <= i < |acts| && GrantsAt(capacity, acts, i, t)
  {
    if acts != [] {
      var n := |acts| - 1;
      var sys := Steps(Initial(capacity), acts[..n]);
      ReturnsTrueIff(capacity, acts[..n], t);
      StepReturnsTrueIff(sys, acts[n], t);
      assert GrantsAt(capacity, acts, n, t) == Grants(sys, acts[n], t);
      forall i | 0 <= i < n ensures GrantsAt(capacity, acts[..n], i, t) == GrantsAt(capacity, acts, i, t) {
        GrantsAtPrefix(capacity, acts, n, i, t);
      }
    }
  }

  /** Whoever waits for a reply has its message on the way or its reply sent. */
  ghost predicate NobodyForgotten(sys: Sys) {
    forall t :: t in sys.calls && sys.calls[t].Awaiting? ==> HasMessage(sys, t)
  }

  lemma SendKeepsMessage(sys: Sys, u: Tid, t: Tid)
    requires Enabled(sys, SendNow(u)) && HasMessage(sys, t)
    ensures HasMessage(Do(sys, SendNow(u)), t)
  {
    SendAppends(sys, u, sys.calls[u].op);
    if k :| k in sys.queue && TaggedBy(k, t) { assert k in Do(sys, SendNow(u)).queue; }
  }

  lemma SendMakesMessage(sys: Sys, u: Tid, op: Op)
    requires Stands(SendMessage(sys, u, op), u, Awaiting)
    ensures HasMessage(SendMessage(sys, u, op), u)
  {
    var m := MessageFor(sys, u, op);
    assert SendMessage(sys, u, op).queue == sys.queue + [m] && TaggedBy(m, u);
    assert m in sys.queue + [m];
  }

  lemma RecvKeepsMessage(sys: Sys, t: Tid)
    requires Enabled(sys, Recv) && HasMessage(sys, t)
    ensures HasMessage(Do(sys, Recv), t)
  {
    if k :| k in sys.queue && TaggedBy(k, t) { assert k == sys.queue[0] || k in sys.queue[1..]; }
  }

  lemma ProcessKeepsMessage(sys: Sys, t: Tid)
    requires Enabled(sys, Process) && HasMessage(sys, t)
    ensures HasMessage(Do(sys, Process), t)
  {
    assert Do(sys, Process) == ProcessMessage(sys, sys.consumer.m);
  }

  lemma StepKeepsMessage(sys: Sys, a: Act, t: Tid)
    requires Enabled(sys, a) && HasMessage(sys, t)
    ensures HasMessage(Do(sys, a), t)
  {
    if a.SendNow? { SendKeepsMessage(sys, a.t, t); }
    else if a.Recv? { RecvKeepsMessage(sys, t); }
    else if a.Process? { ProcessKeepsMessage(sys, t); }
    else if !a.SpawnConsumer? { OtherStepsKeepStream(sys, a); }
  }

  lemma OutsideNeverAwaits(sys: Sys, a: Act, t: Tid)
    requires IsOutside(a) && Stands(Do(sys, a), t, Awaiting)
    ensures Stands(sys, t, Awaiting)
  {}

  lemma SendMovesOne(sys: Sys, u: Tid, t: Tid)
    requires Enabled(sys, SendNow(u)) && t != u && t in Do(sys, SendNow(u)).calls
    ensures t in sys.calls && Do(sys, SendNow(u)).calls[t] == sys.calls[t]
  {}

  lemma GateStepMovesOther(sys: Sys, a: Act, t: Tid)
    requires !IsSilent(a) && !IsOutside(a) && Enabled(sys, a) && t != a.t && t in Do(sys, a).calls
    ensures t in sys.calls && Do(sys, a).calls[t] == sys.calls[t]
  {
    if a.SendNow? { SendMovesOne(sys, a.t, t); }
  }

  lemma NewlyAwaiting(sys: Sys, a: Act, t: Tid)
    requires Enabled(sys, a) && Stands(Do(sys, a), t, Awaiting) && !Stands(sys, t, Awaiting)
    ensures a == SendNow(t)
  {
    if IsSilent(a) { SilentStep(sys, a); }
    else if IsOutside(a) { OutsideNeverAwaits(sys, a, t); }
    else if t != a.t { GateStepMovesOther(sys, a, t); }
  }

  lemma {:induction false} EveryRunForgetsNobody(capacity: nat, acts: seq<Act>)
    ensures NobodyForgotten(Steps(Initial(capacity), acts))
  {
    if acts != [] {
      var init, a := acts[..|acts| - 1], acts[|acts| - 1];
      var sys := Steps(Initial(capacity), init);
      EveryRunForgetsNobody(capacity, init);
      if Enabled(sys, a) {
        forall t | Stands(Do(sys, a), t, Awaiting) ensures HasMessage(Do(sys, a), t) {
          if Stands(sys, t, Awaiting) { StepKeepsMessage(sys, a, t); }
          else { NewlyAwaiting(sys, a, t); SendMakesMessage(sys, t, sys.calls[t].op); }
        }
      }
    }
  }

  /** Once the consumer has exited, everybody still waiting has been replied to. */
  lemma ExitAnswersEveryone(capacity: nat, acts: seq<Act>, t: Tid)
    requires Steps(Initial(capacity), acts).consumer.Exited? && Stands(Steps(Initial(capacity), acts), t, Awaiting)
    ensures t in Steps(Initial(capacity), acts).acks
  {
    StepsOk(Initial(capacity), acts);
    EveryRunForgetsNobody(capacity, acts);
    assert HasMessage(Steps(Initial(capacity), acts), t);
  }

  /** The events of the dispatch calls that looked before the dispatcher was started. */
  function EarlyDispatches(capacity: nat, acts: seq<Act>): seq<PluginEvent> {
    if acts == [] then []
    else
      var init, a := acts[..|acts| - 1], acts[|acts| - 1];
      var calls := Steps(Initial(capacity), init).calls;
      EarlyDispatches(capacity, init) +
      if a.Enter? && a.t in calls && StartDispatcher !in init then
        match calls[a.t]
        case Entered(Dispatch(e)) => [e]
        case _ => []
      else []
  }

  lemma SilentTriggersNothing(sys: Sys, a: Act)
    requires IsSilent(a)
    ensures Do(sys, a).direct == sys.direct && (Do(sys, a).started <==> sys.started || a == StartDispatcher)
  {}

  lemma OutsideTriggersNothing(sys: Sys, a: Act)
    requires IsOutside(a) && !a.Enter?
    ensures Do(sys, a).direct == sys.direct && Do(sys, a).started == sys.started
  {}

  lemma SendTriggersNothing(sys: Sys, t: Tid)
    ensures Do(sys, SendNow(t)).direct == sys.direct && Do(sys, SendNow(t)).started == sys.started
  {}

  lemma GateTriggersNothing(sys: Sys, a: Act)
    requires !IsOutside(a) && !IsSilent(a)
    ensures Do(sys, a).direct == sys.direct && Do(sys, a).started == sys.started
  {
    if a.SendNow? { SendTriggersNothing(sys, a.t); }
  }

  lemma EnterTriggers(sys: Sys, t: Tid)
    ensures Do(sys, Enter(t)).started == sys.started
    ensures Do(sys, Enter(t)).direct ==
      if t in sys.calls && !sys.started && sys.calls[t].Entered? && sys.calls[t].op.Dispatch?
      then sys.direct + [sys.calls[t].op.e] else sys.direct
  {}

  /** They are handed over directly, each once and in that order, and nothing else is. */
  lemma {:induction false} EarlyEventsAreTriggered(capacity: nat, acts: seq<Act>)
    ensures Steps(Initial(capacity), acts).direct == EarlyDispatches(capacity, acts)
    ensures Steps(Initial(capacity), acts).started <==> StartDispatcher in acts
  {
    if acts != [] {
      var init, a := acts[..|acts| - 1], acts[|acts| - 1];
      EarlyEventsAreTriggered(capacity, init);
      assert acts == init + [a];
      var sys := Steps(Initial(capacity), init);
      if a.Enter? { EnterTriggers(sys, a.t); }
      else if IsSilent(a) { SilentTriggersNothing(sys, a); }
      else if IsOutside(a) { OutsideTriggersNothing(sys, a); }
      else { GateTriggersNothing(sys, a); }
    }
  }

  // ---- the same calls as methods --------------------------------------------------------------------

  /** A dispatch that nothing interrupts: the loads, the gate, the flag and the send, in order. */
  function DispatchAlone(sys: Sys, t: Tid, op: Op): Sys
    requires IsEventOp(op)
  {
    if !sys.started then EnterCall(sys, t, op)
    else if sys.closed || (op.TryDispatch? && sys.suspended) then Go(sys, t, Returned(false))
    else SendMessage(sys, t, op)
  }

  lemma Overwrite(calls: map<Tid, Pc>, t: Tid, a: Pc, b: Pc)
    ensures calls[t := a][t := b] == calls[t := b]
  {}

  lemma EnterAlone(sys: Sys, t: Tid, op: Op)
    requires IsEventOp(op) && t !in sys.calls
    ensures Do(Do(sys, Call(t, op)), Enter(t)) == EnterCall(sys, t, op)
  {
    Overwrite(sys.calls, t, Entered(op), EnterCall(sys, t, op).calls[t]);
  }

  lemma ProbeAlone(sys: Sys, t: Tid, op: Op)
    requires t in sys.calls && sys.calls[t] == ProbeClosed(op)
    ensures Do(Do(sys, Probe(t)), Probe(t)) ==
      Go(sys, t, if sys.closed || sys.suspended then Returned(false) else AtGate(op))
  {
    Overwrite(sys.calls, t, ProbeSuspended(op), if sys.suspended then Returned(false) else AtGate(op));
  }

  lemma GateAlone(sys: Sys, t: Tid, op: Op)
    requires t in sys.calls && sys.calls[t] == AtGate(op) && sys.gate.None? && IsEventOp(op)
    ensures Do(Do(sys, Acquire(t)), CheckClosed(t)) ==
      if sys.closed then Go(sys, t, Returned(false)) else Go(sys, t, Sending(op)).(gate := Some(t))
  {
    Overwrite(sys.calls, t, InGate(op), if sys.closed then Returned(false) else Sending(op));
  }

  lemma SendAlone(sys: Sys, t: Tid, op: Op)
    requires sys.gate.None? && IsEventOp(op)
    ensures Do(Go(sys, t, Sending(op)).(gate := Some(t)), SendNow(t)) == SendMessage(sys, t, op)
  {
    var sending := Go(sys, t, Sending(op)).(gate := Some(t));
    assert Do(sending, SendNow(t)) == SendMessage(sending, t, op);
    SendAppends(sending, t, op);
    SendAppends(sys, t, op);
    Overwrite(sys.calls, t, Sending(op), Returned(!Refused(sys)));
  }

  lemma ReachGate(sys: Sys, t: Tid, op: Op) returns (acts: seq<Act>)
    requires IsEventOp(op) && t !in sys.calls && sys.started && !(op.TryDispatch? && (sys.closed || sys.suspended))
    ensures Steps(sys, acts) == Go(sys, t, AtGate(op))
  {
    acts := StepsAppend(sys, [], Call(t, op));
    acts := StepsAppend(sys, acts, Enter(t));
    EnterAlone(sys, t, op);
    if op.TryDispatch? {
      acts := StepsAppend(sys, acts, Probe(t));
      acts := StepsAppend(sys, acts, Probe(t));
      ProbeAlone(EnterCall(sys, t, op), t, op);
    }
  }

  lemma TurnedAway(sys: Sys, t: Tid, op: Op) returns (acts: seq<Act>)
    requires IsEventOp(op) && t !in sys.calls
    requires !sys.started || (op.TryDispatch? && (sys.closed || sys.suspended))
    ensures Steps(sys, acts) == DispatchAlone(sys, t, op)
  {
    acts := StepsAppend(sys, [], Call(t, op));
    acts := StepsAppend(sys, acts, Enter(t));
    EnterAlone(sys, t, op);
    if sys.started {
      acts := StepsAppend(sys, acts, Probe(t));
      acts := StepsAppend(sys, acts, Probe(t));
      ProbeAlone(EnterCall(sys, t, op), t, op);
      Overwrite(sys.calls, t, ProbeClosed(op), Returned(false));
    }
  }

  lemma PassGate(sys: Sys, acts: seq<Act>, t: Tid, op: Op) returns (more: seq<Act>)
    requires IsEventOp(op) && sys.gate.None? && Steps(sys, acts) == Go(sys, t, AtGate(op))
    ensures Steps(sys, more) == if sys.closed then Go(sys, t, Returned(false)) else SendMessage(sys, t, op)
  {
    more := StepsAppend(sys, acts, Acquire(t));
    more := StepsAppend(sys, more, CheckClosed(t));
    GateAlone(Go(sys, t, AtGate(op)), t, op);
    Overwrite(sys.calls, t, AtGate(op), if sys.closed then Returned(false) else Sending(op));
    if !sys.closed {
      more := StepsAppend(sys, more, SendNow(t));
      SendAlone(sys, t, op);
    }
  }

  /** It is what the machine does with that call on its own. */
  lemma DispatchAloneIsARun(sys: Sys, t: Tid, op: Op) returns (acts: seq<Act>)
    requires IsEventOp(op) && t !in sys.calls && sys.gate.None?
    ensures Steps(sys, acts) == DispatchAlone(sys, t, op)
  {
    if sys.started && !(op.TryDispatch? && (sys.closed || sys.suspended)) {
      acts := ReachGate(sys, t, op);
      acts := PassGate(sys, acts, t, op);
    } else {
      acts := TurnedAway(sys, t, op);
    }
  }

  lemma StepsAppend(sys: Sys, acts: seq<Act>, a: Act) returns (more: seq<Act>)
    ensures more == acts + [a] && Steps(sys, more) == Do(Steps(sys, acts), a)
  {
    more := acts + [a];
    assert more[..|acts|] == acts;
  }

  /** The consumer's loop over everything queued, up to and including a Shutdown message. */
  function ConsumeAll(sys: Sys): Sys
    decreases |sys.queue|
  {
    if !sys.consumer.Idle? || sys.queue == [] then sys
    else ConsumeAll(ProcessMessage(sys.(queue := sys.queue[1..]), sys.queue[0]))
  }

  lemma ConsumeAlone(sys: Sys)
    requires Enabled(sys, Recv)
    ensures Do(Do(sys, Recv), Process) == ProcessMessage(sys.(queue := sys.queue[1..]), sys.queue[0])
  {}

  lemma {:induction false} ConsumeAllIsARun(sys: Sys, acts: seq<Act>) returns (more: seq<Act>)
    ensures Steps(sys, more) == ConsumeAll(Steps(sys, acts))
    decreases |Steps(sys, acts).queue|
  {
    more := acts;
    if Steps(sys, acts).consumer.Idle? && Steps(sys, acts).queue != [] {
      more := StepsAppend(sys, more, Recv);
      more := StepsAppend(sys, more, Process);
      ConsumeAlone(Steps(sys, acts));
      more := ConsumeAllIsARun(sys, more);
    }
  }

  class PluginManager {
    const capacity: nat
    var started: bool
    var closed: bool
    var suspended: bool
    var queue: seq<Message>
    var consumer: Consumer
    var acks: map<Tid, nat>
    var triggered: seq<PluginEvent>
    var triggeredDirectly: seq<PluginEvent>
    ghost var calls: map<Tid, Pc>
    ghost var accepted: seq<PluginEvent>
    ghost var shutdownQueued: bool

    constructor (configured: nat)
      ensures View() == Initial(configured) && capacity == if configured < 16 then 16 else configured
    {
      capacity := if configured > MIN_CAPACITY then configured else MIN_CAPACITY;
      started, closed, suspended, queue, consumer, acks := false, false, false, [], NotRunning, map[];
      triggered, triggeredDirectly := [], [];
      calls, accepted, shutdownQueued := map[], [], false;
    }

    ghost function View(): Sys reads this {
      Sys(capacity, started, closed, suspended, None, queue, consumer, calls, acks,
          accepted, triggered, triggeredDirectly, shutdownQueued)
    }

    method TrySend(ghost t: Tid, ghost op: Op, e: PluginEvent) returns (sent: bool)
      requires IsEventOp(op) && op.e == e
      modifies this
      ensures View() == SendMessage(old(View()), t, op) && sent == !Refused(old(View()))
    {
      sent := !consumer.Exited? && |queue| < capacity;
      calls := calls[t := Returned(sent)];
      if sent { queue, accepted := queue + [Event(e)], accepted + [e]; }
    }

    method DispatchEvent(ghost t: Tid, e: PluginEvent)
      modifies this
      ensures View() == DispatchAlone(old(View()), t, Dispatch(e))
      ensures !started ==> triggeredDirectly == old(triggeredDirectly) + [e] && queue == old(queue)
      ensures started && !closed && !consumer.Exited? && |old(queue)| < capacity ==> queue == old(queue) + [Event(e)]
      ensures started && (closed || consumer.Exited? || |old(queue)| >= capacity) ==> queue == old(queue)
      ensures started ==> triggeredDirectly == old(triggeredDirectly)
    {
      if !started {
        triggeredDirectly := triggeredDirectly + [e];
        calls := calls[t := Returned(true)];
      } else if closed {
        calls := calls[t := Returned(false)];
      } else {
        var _ := TrySend(t, Dispatch(e), e);
      }
    }

    method TryDispatchEvent(ghost t: Tid, e: PluginEvent) returns (sent: bool)
      modifies this
      ensures View() == DispatchAlone(old(View()), t, TryDispatch(e)) && View().calls[t] == Returned(sent)
      ensures sent <==> started && !closed && !suspended && !consumer.Exited? && |old(queue)| < capacity
      ensures queue == (if sent then old(queue) + [Event(e)] else old(queue))
      ensures triggeredDirectly == old(triggeredDirectly)
    {
      if !started || closed || suspended {
        calls := calls[t := Returned(false)];
        return false;
      }
      sent := TrySend(t, TryDispatch(e), e);
    }

    /** The consumer task, until its queue is empty or it has met the Shutdown message. */
    method Consume()
      requires consumer.Idle?
      modifies this
      ensures View() == ConsumeAll(old(View()))
    {
      while consumer.Idle? && queue != []
        invariant ConsumeAll(View()) == ConsumeAll(old(View()))
        decreases |queue|
      {
        var m := queue[0];
        queue := queue[1..];
        match m {
          case Event(e) => triggered := triggered + [e];
          case Flush(t, before) => acks := acks[t := before];
          case Shutdown(t) =>
            acks := acks[t := 0];
            consumer := Exited;
        }
      }
    }
  }
}
