/** The bounded buffer that holds a session's packets until authentication is proven flushed. */
module OutboundGate {
  import opened Commands
  import opened Options

  const USIZE_MAX: nat := 0xFFFF_FFFF_FFFF_FFFF

  /** A buffered packet with the gate's own arrival number and the room change that produced it. */
  datatype Entry = Entry(cmd: Command, seqNo: nat, cls: EventClass, roomSeq: Option<nat>)

  datatype Limits = Limits(maxEvents: nat, maxBytes: nat)

  datatype Gate = Gate(
    events: seq<Entry>, bytes: nat, nextSeq: nat, cutover: nat, overflowed: bool, activated: bool)

  /** A packet handed to the gate before activation. */
  datatype Push = Push(cmd: Command, roomSeq: Option<nat>)

  /** What reached the transport: the packet and whether its flush was awaited. */
  datatype Frame = Frame(cmd: Command, flushed: bool)

  /** The transport as the sender sees it. Send number `i` fails exactly when `i` is a key of `faults`. */
  datatype Wire = Wire(sent: seq<Frame>, attempts: nat)
  datatype Fault = SendError | TimedOut
  type Faults = map<nat, Fault>

  const CLOSED: Gate := Gate([], 0, 1, 0, false, false)

  // ---- Fitting the two limits ----

  function Bytes(es: seq<Entry>): nat {
    if es == [] then 0 else es[0].cmd.wireSize + Bytes(es[1..])
  }

  predicate Fits(limits: Limits, es: seq<Entry>) {
    |es| <= limits.maxEvents && Bytes(es) <= limits.maxBytes
  }

  /** What remains after dropping oldest entries until both limits hold. */
  function LongestFit(limits: Limits, es: seq<Entry>): seq<Entry> {
    if Fits(limits, es) then es else LongestFit(limits, es[1..])
  }

  lemma {:induction false} BytesConcat(a: seq<Entry>, b: seq<Entry>)
    ensures Bytes(a + b) == Bytes(a) + Bytes(b)
  {
    if a == [] {
      assert a + b == b;
    } else {
      assert (a + b)[1..] == a[1..] + b;
      BytesConcat(a[1..], b);
    }
  }

  lemma BytesOne(e: Entry)
    ensures Bytes([e]) == e.cmd.wireSize
  {
    assert Bytes([e][1..]) == 0;
  }

  /** The greedy result is the longest suffix that fits: it fits and no longer suffix does. */
  lemma {:induction false} LongestFitIsLongest(limits: Limits, es: seq<Entry>) returns (k: nat)
    ensures k <= |es| && LongestFit(limits, es) == es[k..]
    ensures Fits(limits, es[k..])
    ensures forall j :: 0 <= j < k ==> !Fits(limits, es[j..])
  {
    if Fits(limits, es) {
      k := 0;
      assert es[0..] == es;
    } else {
      var k' := LongestFitIsLongest(limits, es[1..]);
      k := k' + 1;
      assert es[1..][k'..] == es[k..];
      forall j | 0 <= j < k ensures !Fits(limits, es[j..]) {
        if j == 0 { assert es[0..] == es; } else { assert es[1..][j - 1..] == es[j..]; }
      }
    }
  }

  /** Dropping early loses nothing: trimming history first and then adding a packet keeps the same
      suffix as trimming once at the end. */
  lemma {:induction false} TrimEarly(limits: Limits, es: seq<Entry>, e: Entry)
    ensures LongestFit(limits, LongestFit(limits, es) + [e]) == LongestFit(limits, es + [e])
  {
    if !Fits(limits, es) {
      TrimEarly(limits, es[1..], e);
      BytesConcat(es, [e]);
      assert (es + [e])[1..] == es[1..] + [e];
    }
  }

  // ---- Pushing ----

  function EntryOf(p: Push, seqNo: nat): Entry {
    var cls := Classify(p.cmd.kind);
    Entry(p.cmd, seqNo, cls, if cls == SnapshotCovered then p.roomSeq else None)
  }

  /** Too large for an empty buffer, and not telemetry: the packet can be neither kept nor dropped. */
  predicate Oversized(limits: Limits, p: Push) {
    Classify(p.cmd.kind) != Telemetry && (limits.maxEvents == 0 || p.cmd.wireSize > limits.maxBytes)
  }

  /** A push: telemetry that does not fit is the newest dropped, anything else drops the oldest. */
  function Pushed(limits: Limits, g: Gate, p: Push): Gate {
    var e := EntryOf(p, g.nextSeq);
    var all := g.events + [e];
    var kept := if Fits(limits, all) then all
                else if e.cls == Telemetry then g.events
                else LongestFit(limits, all);
    g.(events := kept, bytes := Bytes(kept), nextSeq := g.nextSeq + 1,
       overflowed := g.overflowed || Oversized(limits, p))
  }

  function PushAll(limits: Limits, ps: seq<Push>): Gate {
    if ps == [] then CLOSED
    else Pushed(limits, PushAll(limits, ps[..|ps| - 1]), ps[|ps| - 1])
  }

  /** The unbounded reference: how one packet extends the history of accepted packets. */
  function AcceptOne(limits: Limits, before: seq<Entry>, p: Push, seqNo: nat): seq<Entry> {
    var e := EntryOf(p, seqNo);
    if Oversized(limits, p) then []
    else if e.cls == Telemetry && !Fits(limits, LongestFit(limits, before) + [e]) then before
    else before + [e]
  }

  /** Every packet accepted since the last oversized one. */
  function Accepted(limits: Limits, ps: seq<Push>): seq<Entry> {
    if ps == [] then []
    else AcceptOne(limits, Accepted(limits, ps[..|ps| - 1]), ps[|ps| - 1], |ps|)
  }

  predicate SeqIncreasing(es: seq<Entry>, bound: nat) {
    && (forall i, j :: 0 <= i < j < |es| ==> es[i].seqNo < es[j].seqNo)
    && (forall i :: 0 <= i < |es| ==> es[i].seqNo < bound)
  }

  ghost predicate SomeOversized(limits: Limits, ps: seq<Push>) {
    exists i :: 0 <= i < |ps| && Oversized(limits, ps[i])
  }

  lemma OversizedAlone(limits: Limits, p: Push, seqNo: nat)
    requires Classify(p.cmd.kind) != Telemetry
    ensures Oversized(limits, p) <==> !Fits(limits, [EntryOf(p, seqNo)])
  {
    BytesOne(EntryOf(p, seqNo));
  }

  lemma {:induction false} LongestFitEndsEmpty(limits: Limits, es: seq<Entry>, e: Entry)
    requires !Fits(limits, [e])
    ensures LongestFit(limits, es + [e]) == []
  {
    BytesConcat(es, [e]);
    if es == [] {
      assert es + [e] == [e] && [e][1..] == [];
    } else {
      assert (es + [e])[1..] == es[1..] + [e];
      LongestFitEndsEmpty(limits, es[1..], e);
    }
  }

  lemma AloneFits(limits: Limits, es: seq<Entry>, e: Entry)
    requires Fits(limits, es + [e])
    ensures Fits(limits, [e])
  {
    BytesConcat(es, [e]);
  }

  lemma PushRefines(limits: Limits, before: seq<Entry>, g: Gate, p: Push)
    requires g.events == LongestFit(limits, before)
    ensures Pushed(limits, g, p).events == LongestFit(limits, AcceptOne(limits, before, p, g.nextSeq))
  {
    var e := EntryOf(p, g.nextSeq);
    TrimEarly(limits, before, e);
    if e.cls != Telemetry {
      OversizedAlone(limits, p, g.nextSeq);
      if Oversized(limits, p) { LongestFitEndsEmpty(limits, g.events, e); }
    }
  }

  lemma AppendKeepsOrder(es: seq<Entry>, e: Entry)
    requires SeqIncreasing(es, e.seqNo)
    ensures SeqIncreasing(es + [e], e.seqNo + 1)
  {}

  lemma SuffixKeepsOrder(es: seq<Entry>, k: nat, bound: nat)
    requires SeqIncreasing(es, bound) && k <= |es|
    ensures SeqIncreasing(es[k..], bound)
  {}

  lemma PushKeepsOrder(limits: Limits, g: Gate, p: Push)
    requires SeqIncreasing(g.events, g.nextSeq)
    ensures var g' := Pushed(limits, g, p); SeqIncreasing(g'.events, g'.nextSeq)
  {
    var all := g.events + [EntryOf(p, g.nextSeq)];
    AppendKeepsOrder(g.events, EntryOf(p, g.nextSeq));
    var k := LongestFitIsLongest(limits, all);
    SuffixKeepsOrder(all, k, g.nextSeq + 1);
  }

  /** The bounded buffer refines the unbounded history. After every sequence of pushes the buffer is
      the longest suffix of the accepted packets that fits, in arrival order, the byte counter is the
      sum of the buffered sizes, and the overflow flag records exactly the oversized packets. */
  lemma {:induction false} BufferIsLongestFit(limits: Limits, ps: seq<Push>)
    ensures var g := PushAll(limits, ps);
      && g.events == LongestFit(limits, Accepted(limits, ps))
      && g.bytes == Bytes(g.events) && Fits(limits, g.events)
      && SeqIncreasing(g.events, g.nextSeq) && g.nextSeq == |ps| + 1
      && g.cutover == 0 && !g.activated
      && (g.overflowed <==> SomeOversized(limits, ps))
  {
    if ps != [] {
      var n := |ps| - 1;
      BufferIsLongestFit(limits, ps[..n]);
      var g := PushAll(limits, ps[..n]);
      PushRefines(limits, Accepted(limits, ps[..n]), g, ps[n]);
      PushKeepsOrder(limits, g, ps[n]);
      FitsSuffix(limits, Accepted(limits, ps));
      assert forall i :: 0 <= i < n ==> ps[i] == ps[..n][i];
      if Oversized(limits, ps[n]) { assert SomeOversized(limits, ps); }
    }
  }

  lemma FitsSuffix(limits: Limits, es: seq<Entry>)
    ensures Fits(limits, LongestFit(limits, es))
  {
    var k := LongestFitIsLongest(limits, es);
  }

  /** Touches, judges and pongs evict nothing: either they fit, or they are dropped themselves. */
  lemma TelemetryYields(limits: Limits, g: Gate, p: Push)
    requires p.cmd.kind in {Touches, Judges, Pong}
    ensures var all, g' := g.events + [Entry(p.cmd, g.nextSeq, Telemetry, None)], Pushed(limits, g, p);
      g'.events == (if Fits(limits, all) then all else g.events) && g'.overflowed == g.overflowed
  {}

  /** Any other packet that fits alone is always kept, as the newest entry. */
  lemma NewestControlSurvives(limits: Limits, g: Gate, p: Push)
    requires p.cmd.kind !in {Touches, Judges, Pong} && limits.maxEvents > 0 && p.cmd.wireSize <= limits.maxBytes
    ensures var es := Pushed(limits, g, p).events;
      |es| > 0 && es[|es| - 1] == EntryOf(p, g.nextSeq) && es[|es| - 1].cmd == p.cmd
  {
    var e := EntryOf(p, g.nextSeq);
    OversizedAlone(limits, p, g.nextSeq);
    var all := g.events + [e];
    var k := LongestFitIsLongest(limits, all);
    assert all[|all| - 1..] == [e];
    assert k <= |all| - 1;
  }

  /** What a push does, by the packet's kind and size. */
  lemma PushSpelledOut(limits: Limits, g: Gate, p: Push)
    ensures var g' := Pushed(limits, g, p);
      && (p.cmd.kind in {Touches, Judges, Pong} ==>
            g'.events == g.events || g'.events == g.events + [Entry(p.cmd, g.nextSeq, Telemetry, None)])
      && (p.cmd.kind !in {Touches, Judges, Pong} && limits.maxEvents > 0 && p.cmd.wireSize <= limits.maxBytes ==>
            |g'.events| > 0 && g'.events[|g'.events| - 1].cmd == p.cmd && g'.overflowed == g.overflowed)
      && (p.cmd.kind !in {Touches, Judges, Pong} && (limits.maxEvents == 0 || p.cmd.wireSize > limits.maxBytes) ==>
            g'.overflowed)
  {
    if p.cmd.kind in {Touches, Judges, Pong} { TelemetryYields(limits, g, p); }
    else if limits.maxEvents > 0 && p.cmd.wireSize <= limits.maxBytes { NewestControlSurvives(limits, g, p); }
  }

  // ---- Draining ----

  /** Already reflected by the room snapshot the client is about to receive. */
  predicate Covered(e: Entry, cutover: nat) {
    e.cls == SnapshotCovered && e.roomSeq.Some? && e.roomSeq.value <= cutover
  }

  /** A packet is covered by its class and the room change it carries, whatever its arrival number. */
  lemma CoveredIff(p: Push, seqNo: nat, cutover: nat)
    ensures Covered(EntryOf(p, seqNo), cutover) <==>
      Classify(p.cmd.kind) == SnapshotCovered && p.roomSeq.Some? && p.roomSeq.value <= cutover
  {}

  function Kept(es: seq<Entry>, cutover: nat): seq<Entry> {
    if es == [] then []
    else if Covered(es[0], cutover) then Kept(es[1..], cutover)
    else [es[0]] + Kept(es[1..], cutover)
  }

  function Frames(es: seq<Entry>): (fs: seq<Frame>)
    ensures |fs| == |es|
  {
    seq(|es|, i requires 0 <= i < |es| => Frame(es[i].cmd, es[i].cls == SnapshotCovered))
  }

  function Attempt(faults: Faults, w: Wire, f: Frame): Wire {
    Wire(if w.attempts in faults then w.sent else w.sent + [f], w.attempts + 1)
  }

  /** Sends the uncovered entries oldest first and stops at the first failure. */
  function Drain(faults: Faults, es: seq<Entry>, cutover: nat, w: Wire): (Wire, bool) {
    if es == [] then (w, true)
    else if Covered(es[0], cutover) then Drain(faults, es[1..], cutover, w)
    else
      var w' := Attempt(faults, w, Frame(es[0].cmd, es[0].cls == SnapshotCovered));
      if w.attempts in faults then (w', false) else Drain(faults, es[1..], cutover, w')
  }

  /** Activation either opens the gate with everything delivered, or leaves it shut and empty. */
  function Activated(faults: Faults, g: Gate, w: Wire): (Gate, Wire, bool) {
    var (w', ok) := if g.overflowed then (w, false) else Drain(faults, g.events, g.cutover, w);
    (g.(events := [], bytes := 0, activated := ok), w', ok)
  }

  /** The kept entries as the transport receives them. */
  function Delta(es: seq<Entry>, cutover: nat): seq<Frame> {
    Frames(Kept(es, cutover))
  }

  lemma DeltaStep(es: seq<Entry>, cutover: nat)
    requires es != []
    ensures Delta(es, cutover) ==
      (if Covered(es[0], cutover) then [] else [Frame(es[0].cmd, es[0].cls == SnapshotCovered)])
      + Delta(es[1..], cutover)
  {
  }

  lemma DeliverOneMore(sent: seq<Frame>, f: Frame, rest: seq<Frame>, m: nat)
    requires m <= |rest|
    ensures sent + ([f] + rest)[..m + 1] == sent + [f] + rest[..m]
  {
    assert ([f] + rest)[..m + 1] == [f] + rest[..m];
  }

  /** The drain delivers a prefix of the kept entries, all of them exactly when no send in its range
      fails; the failed send is the one right after the prefix. */
  lemma {:induction false} DrainDeliversPrefix(faults: Faults, es: seq<Entry>, cutover: nat, w: Wire) returns (n: nat)
    ensures n <= |Delta(es, cutover)|
    ensures Drain(faults, es, cutover, w).0.sent == w.sent + Delta(es, cutover)[..n]
    ensures Drain(faults, es, cutover, w).1 <==> n == |Delta(es, cutover)|
    ensures forall i :: w.attempts <= i < w.attempts + n ==> i !in faults
    ensures n < |Delta(es, cutover)| ==> w.attempts + n in faults
    ensures Drain(faults, es, cutover, w).0.attempts == w.attempts + n + if n == |Delta(es, cutover)| then 0 else 1
  {
    if es == [] {
      n := 0;
    } else {
      DeltaStep(es, cutover);
      if Covered(es[0], cutover) {
        n := DrainDeliversPrefix(faults, es[1..], cutover, w);
      } else if w.attempts in faults {
        n := 0;
      } else {
        var f := Frame(es[0].cmd, es[0].cls == SnapshotCovered);
        var m := DrainDeliversPrefix(faults, es[1..], cutover, Attempt(faults, w, f));
        n := m + 1;
        DeliverOneMore(w.sent, f, Delta(es[1..], cutover), m);
      }
    }
  }

  /** Cutover removes exactly the entries a snapshot covers: everything else is kept, in order. */
  lemma {:induction false} KeptIsUncovered(es: seq<Entry>, cutover: nat)
    ensures forall e :: e in Kept(es, cutover) <==> e in es && !Covered(e, cutover)
    ensures forall e :: e in es && (e.cls != SnapshotCovered || e.roomSeq.None?) ==> e in Kept(es, cutover)
    ensures (forall e :: e in es ==> !Covered(e, cutover)) ==> Kept(es, cutover) == es
  {
    if es != [] {
      KeptIsUncovered(es[1..], cutover);
      assert es == [es[0]] + es[1..];
    }
  }

  lemma {:induction false} KeptConcat(a: seq<Entry>, b: seq<Entry>, cutover: nat)
    ensures Kept(a + b, cutover) == Kept(a, cutover) + Kept(b, cutover)
  {
    if a == [] {
      assert a + b == b;
    } else {
      assert (a + b)[1..] == a[1..] + b;
      KeptConcat(a[1..], b, cutover);
    }
  }

  // ---- Whole runs of one gate ----

  datatype GateOp = DoPush(p: Push) | DoCutover(snapshotSeq: nat) | DoActivate

  function StepGate(limits: Limits, faults: Faults, g: Gate, w: Wire, op: GateOp): (Gate, Wire, bool) {
    match op
    case DoPush(p) => (Pushed(limits, g, p), w, true)
    case DoCutover(n) => (g.(cutover := n), w, true)
    case DoActivate => Activated(faults, g, w)
  }

  function RunGate(limits: Limits, faults: Faults, ops: seq<GateOp>): (Gate, Wire) {
    if ops == [] then (CLOSED, Wire([], 0))
    else
      var (g, w) := RunGate(limits, faults, ops[..|ops| - 1]);
      var (g', w', _) := StepGate(limits, faults, g, w, ops[|ops| - 1]);
      (g', w')
  }

  predicate OversizedAt(limits: Limits, ops: seq<GateOp>, i: nat)
    requires i < |ops|
  {
    ops[i].DoPush? && Oversized(limits, ops[i].p)
  }

  lemma OversizedAtStep(limits: Limits, ops: seq<GateOp>)
    requires ops != []
    ensures var n := |ops| - 1;
      (exists i :: 0 <= i <= n && OversizedAt(limits, ops, i)) <==>
        (exists i :: 0 <= i < n && OversizedAt(limits, ops[..n], i)) || OversizedAt(limits, ops, n)
  {
    var n := |ops| - 1;
    assert forall i :: 0 <= i < n ==> OversizedAt(limits, ops[..n], i) == OversizedAt(limits, ops, i);
  }

  lemma ActivationFailsClosed(faults: Faults, g: Gate, w: Wire)
    ensures var (g', w', ok) := Activated(faults, g, w);
      && (g.overflowed ==> !ok && w' == w)
      && (!ok ==> g'.events == [] && g'.bytes == 0 && !g'.activated)
  {}

  lemma GateStepKeepsBytes(limits: Limits, faults: Faults, g: Gate, w: Wire, op: GateOp)
    requires g.bytes == Bytes(g.events)
    ensures var g' := StepGate(limits, faults, g, w, op).0;
      g'.bytes == Bytes(g'.events) && (g'.overflowed <==> g.overflowed || (op.DoPush? && Oversized(limits, op.p)))
  {}

  /** Fail-closed for good: the flag is set exactly when some packet of the run was oversized, and
      from then on an activation fails, sends nothing and leaves the gate shut and empty. */
  lemma {:induction false} OverflowIsFinal(limits: Limits, faults: Faults, ops: seq<GateOp>)
    ensures var (g, w) := RunGate(limits, faults, ops);
      && (g.overflowed <==> exists i :: 0 <= i < |ops| && OversizedAt(limits, ops, i))
      && g.bytes == Bytes(g.events)
      && var (g', w', ok) := Activated(faults, g, w);
         && (g.overflowed ==> !ok && w' == w)
         && (!ok ==> g'.events == [] && g'.bytes == 0 && !g'.activated)
  {
    if ops != [] {
      var n := |ops| - 1;
      OverflowIsFinal(limits, faults, ops[..n]);
      OversizedAtStep(limits, ops);
      var (g, w) := RunGate(limits, faults, ops[..n]);
      GateStepKeepsBytes(limits, faults, g, w, ops[n]);
    }
    var (g, w) := RunGate(limits, faults, ops);
    ActivationFailsClosed(faults, g, w);
  }

  // ---- The gate object ----

  function SatAdd(a: nat, b: nat): nat { if a + b > USIZE_MAX then USIZE_MAX else a + b }
  function SatSub(a: nat, b: nat): nat { if a < b then 0 else a - b }

  /** The transport a gate drains into. */
  class Sink {
    const faults: Faults
    var sent: seq<Frame>
    var attempts: nat

    constructor (faults: Faults)
      ensures View() == Wire([], 0) && this.faults == faults
    {
      this.faults := faults;
      sent, attempts := [], 0;
    }

    ghost function View(): Wire reads this { Wire(sent, attempts) }

    method Send(cmd: Command, flushed: bool) returns (fault: Option<Fault>)
      modifies this
      ensures View() == Attempt(faults, old(View()), Frame(cmd, flushed))
      ensures fault == if old(attempts) in faults then Some(faults[old(attempts)]) else None
    {
      fault := if attempts in faults then Some(faults[attempts]) else None;
      if fault.None? { sent := sent + [Frame(cmd, flushed)]; }
      attempts := attempts + 1;
    }
  }

  class SessionOutboundGate {
    const limits: Limits
    var events: seq<Entry>
    var bytes: nat
    var nextSeq: nat
    var cutoverSeq: nat
    var overflowed: bool
    var activated: bool

    ghost function View(): Gate reads this {
      Gate(events, bytes, nextSeq, cutoverSeq, overflowed, activated)
    }

    ghost predicate Valid() reads this {
      bytes == Bytes(events) && Fits(limits, events) && limits.maxBytes < USIZE_MAX
    }

    constructor (limits: Limits)
      requires limits.maxBytes < USIZE_MAX
      ensures Valid() && View() == CLOSED && this.limits == limits
    {
      this.limits := limits;
      events, bytes, nextSeq, cutoverSeq, overflowed, activated := [], 0, 1, 0, false, false;
    }

    /** The drop-oldest loop: false, with the buffer empty, when even that leaves no room. */
    method MakeRoom(e: Entry) returns (fits: bool)
      requires Valid()
      modifies this`events, this`bytes
      ensures Valid()
      ensures fits ==> Fits(limits, events + [e]) && events + [e] == LongestFit(limits, old(events) + [e])
      ensures !fits ==> events == [] && LongestFit(limits, old(events) + [e]) == [] && !Fits(limits, [e])
    {
      var size := e.cmd.wireSize;
      BytesConcat(events, [e]);
      BytesOne(e);
      while !(|events| < limits.maxEvents && SatAdd(bytes, size) <= limits.maxBytes)
        invariant Valid() && Bytes(events + [e]) == bytes + size
        invariant LongestFit(limits, events + [e]) == LongestFit(limits, old(events) + [e])
        decreases |events|
      {
        if |events| == 0 {
          assert events + [e] == [e] && [e][1..] == [];
          return false;
        }
        var oldest := events[0];
        assert (events + [e])[1..] == events[1..] + [e];
        events := events[1..];
        bytes := SatSub(bytes, oldest.cmd.wireSize);
        BytesConcat(events, [e]);
      }
      fits := true;
    }

    /** `push_bounded`: the saturating byte counter never saturates, so it is the exact sum. */
    method PushBounded(cmd: Command, roomSeq: Option<nat>)
      requires Valid()
      modifies this
      ensures Valid()
      ensures View() == Pushed(limits, old(View()), Push(cmd, roomSeq))
      ensures cmd.kind in {Touches, Judges, Pong} ==>
        events == old(events) || events == old(events) + [Entry(cmd, old(nextSeq), Telemetry, None)]
      ensures cmd.kind !in {Touches, Judges, Pong} && limits.maxEvents > 0 && cmd.wireSize <= limits.maxBytes ==>
        |events| > 0 && events[|events| - 1].cmd == cmd && overflowed == old(overflowed)
      ensures cmd.kind !in {Touches, Judges, Pong} && (limits.maxEvents == 0 || cmd.wireSize > limits.maxBytes) ==>
        overflowed
    {
      PushSpelledOut(limits, View(), Push(cmd, roomSeq));
      var e := EntryOf(Push(cmd, roomSeq), nextSeq);
      var size := cmd.wireSize;
      nextSeq := nextSeq + 1;
      BytesConcat(events, [e]);
      BytesOne(e);
      if |events| >= limits.maxEvents || SatAdd(bytes, size) > limits.maxBytes {
        if e.cls == Telemetry { return; }
        OversizedAlone(limits, Push(cmd, roomSeq), old(nextSeq));
        var fits := MakeRoom(e);
        if !fits {
          overflowed := true;
          return;
        }
        BytesConcat(events, [e]);
        AloneFits(limits, events, e);
      }
      events := events + [e];
      bytes := bytes + size;
    }

    /** `activate`: drains in arrival order into `sink`, or fails closed. */
    method Activate(sink: Sink) returns (ok: bool)
      requires Valid()
      modifies this, sink
      ensures Valid()
      ensures (View(), sink.View(), ok) == Activated(sink.faults, old(View()), old(sink.View()))
    {
      if overflowed {
        activated, events, bytes := false, [], 0;
        return false;
      }
      activated := true;
      var cutover := cutoverSeq;
      ghost var goal := Drain(sink.faults, events, cutover, sink.View());
      while |events| > 0
        invariant bytes >= Bytes(events) && Fits(limits, events) && activated
        invariant nextSeq == old(nextSeq) && cutoverSeq == old(cutoverSeq) && !overflowed
        invariant Drain(sink.faults, events, cutover, sink.View()) == goal
        decreases |events|
      {
        var entry := events[0];
        events := events[1..];
        if Covered(entry, cutover) {
          bytes := SatSub(bytes, entry.cmd.wireSize);
        } else {
          var fault := sink.Send(entry.cmd, entry.cls == SnapshotCovered);
          if fault.Some? {
            activated, events, bytes := false, [], 0;
            return false;
          }
        }
      }
      bytes := 0;
      ok := true;
    }

    /** `begin_room_cutover`: record the room change number the snapshot was taken at. */
    method BeginRoomCutover(snapshotSeq: nat) returns (recorded: nat)
      requires Valid()
      modifies this
      ensures Valid() && View() == old(View()).(cutover := snapshotSeq) && recorded == snapshotSeq
    {
      cutoverSeq := snapshotSeq;
      recorded := cutoverSeq;
    }
  }
}
