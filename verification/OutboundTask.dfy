/** The single task that writes a session's packets to the wire from one queue. */
module OutboundTask {
  import opened Commands
  import opened Options
  import opened OutboundGate
  import opened Canonical

  /** The kinds of post-response compensation, in the order a batch delivers them. */
  datatype CompensationKind = HostFix | StateFix | PersistentRoom | Replay

  /** One compensation. `current`: its origin is still current when its turn comes. */
  datatype Compensation = Compensation(kind: CompensationKind, cmd: Command, current: bool)

  datatype Item =
    | Packet(p: Push)
    | Critical(cmd: Command)
    | Activate
    | PostResponse(batch: seq<Compensation>)

  /** One step the outbound loop can observe: the sender becoming available, another caller moving the cutover,
      or the next queued item. */
  datatype Event = SenderReady | BeginCutover(snapshotSeq: nat) | Consume(item: Item)

  /** `closed`: a send timeout or a failed batch closed the session's transport. `replies`: what the
      callers awaiting Critical and Activate items were told. */
  datatype Task = Task(gate: Gate, wire: Wire, active: bool, ready: bool, closed: bool, replies: seq<bool>)

  const START := Task(CLOSED, Wire([], 0), false, false, false, [])

  function KindRank(c: Compensation): int {
    match c.kind
    case HostFix => 0
    case StateFix => 1
    case PersistentRoom => 2
    case Replay => 3
  }

  /** Host and state corrections are flushed, and their failure is the connection's. */
  predicate IsCritical(c: Compensation) { c.kind.HostFix? || c.kind.StateFix? }

  function InOrder(batch: seq<Compensation>): seq<Compensation> { Sort(KindRank, batch) }

  /** A stale compensation is dropped; a critical one must succeed; any other may fail, but not time out. */
  function DeliverOne(faults: Faults, c: Compensation, w: Wire): (Wire, bool) {
    if !c.current then (w, true)
    else
      var failed := w.attempts in faults && (IsCritical(c) || faults[w.attempts] == TimedOut);
      (Attempt(faults, w, Frame(c.cmd, IsCritical(c))), !failed)
  }

  /** Compensations are delivered in order until one fails. */
  function Deliver(faults: Faults, items: seq<Compensation>, w: Wire): (Wire, bool) {
    if items == [] then (w, true)
    else
      var (w', ok) := DeliverOne(faults, items[0], w);
      if ok then Deliver(faults, items[1..], w') else (w', false)
  }

  function Handle(limits: Limits, faults: Faults, t: Task, item: Item): Task {
    match item
    case Packet(p) =>
      if !t.active then t.(gate := Pushed(limits, t.gate, p))
      else if !t.ready then t
      else t.(wire := Attempt(faults, t.wire, Frame(p.cmd, false)),
              closed := t.closed || (t.wire.attempts in faults && faults[t.wire.attempts] == TimedOut))
    case Critical(cmd) =>
      if !t.ready then t.(replies := t.replies + [false])
      else t.(wire := Attempt(faults, t.wire, Frame(cmd, true)),
              replies := t.replies + [t.wire.attempts !in faults])
    case Activate =>
      if !t.ready then t.(replies := t.replies + [false])
      else
        var (g, w, ok) := Activated(faults, t.gate, t.wire);
        t.(gate := g, wire := w, active := ok, replies := t.replies + [ok])
    case PostResponse(batch) =>
      if !t.ready then t
      else
        var (w, ok) := Deliver(faults, InOrder(batch), t.wire);
        t.(wire := w, closed := t.closed || !ok)
  }

  function Step(limits: Limits, faults: Faults, t: Task, ev: Event): Task {
    match ev
    case SenderReady => t.(ready := true)
    case BeginCutover(n) => t.(gate := t.gate.(cutover := n))
    case Consume(item) => Handle(limits, faults, t, item)
  }

  function Run(limits: Limits, faults: Faults, evs: seq<Event>): Task {
    if evs == [] then START
    else Step(limits, faults, Run(limits, faults, evs[..|evs| - 1]), evs[|evs| - 1])
  }

  // ---- What a run puts on the wire, told without the loop's state ----

  function IsReady(evs: seq<Event>): bool { SenderReady in evs }

  function CutoverOf(evs: seq<Event>): nat {
    if evs == [] then 0
    else match evs[|evs| - 1]
      case BeginCutover(n) => n
      case _ => CutoverOf(evs[..|evs| - 1])
  }

  function PushesOf(evs: seq<Event>): seq<Push> {
    if evs == [] then []
    else
      var before := PushesOf(evs[..|evs| - 1]);
      match evs[|evs| - 1]
      case Consume(Packet(p)) => before + [p]
      case _ => before
  }

  function FramesOf(items: seq<Compensation>): seq<Frame> {
    if items == [] then []
    else (if items[0].current then [Frame(items[0].cmd, IsCritical(items[0]))] else []) + FramesOf(items[1..])
  }

  function BatchFrames(batch: seq<Compensation>): seq<Frame> { FramesOf(InOrder(batch)) }

  /** Frames of the critical responses and post-response batches, which never wait for the gate. */
  function Immediate(evs: seq<Event>): seq<Frame> {
    if evs == [] then []
    else
      var init := evs[..|evs| - 1];
      Immediate(init) +
      match evs[|evs| - 1]
      case Consume(Critical(cmd)) => if IsReady(init) then [Frame(cmd, true)] else []
      case Consume(PostResponse(batch)) => if IsReady(init) then BatchFrames(batch) else []
      case _ => []
  }

  /** Frames of every item, in order: what an open gate lets through. */
  function Everything(evs: seq<Event>): seq<Frame> {
    if evs == [] then []
    else
      Everything(evs[..|evs| - 1]) +
      match evs[|evs| - 1]
      case Consume(Packet(p)) => [Frame(p.cmd, false)]
      case Consume(Critical(cmd)) => [Frame(cmd, true)]
      case Consume(PostResponse(batch)) => BatchFrames(batch)
      case _ => []
  }

  /** Event `k` opens the gate: an activation with the sender available and no oversized packet so far. */
  ghost predicate Opens(limits: Limits, evs: seq<Event>, k: nat) {
    && k < |evs| && evs[k] == Consume(Activate) && IsReady(evs[..k])
    && !SomeOversized(limits, PushesOf(evs[..k]))
  }

  ghost predicate NeverOpens(limits: Limits, evs: seq<Event>) {
    forall k :: 0 <= k < |evs| ==> !Opens(limits, evs, k)
  }

  lemma {:induction false} DeliverWithoutFaults(items: seq<Compensation>, w: Wire)
    ensures Deliver(map[], items, w).1 && Deliver(map[], items, w).0.sent == w.sent + FramesOf(items)
  {
    if items != [] { DeliverWithoutFaults(items[1..], DeliverOne(map[], items[0], w).0); }
  }

  function OfKind(items: seq<Compensation>, kind: CompensationKind): seq<Compensation> {
    if items == [] then []
    else
      var before := OfKind(items[..|items| - 1], kind);
      if items[|items| - 1].kind == kind then before + [items[|items| - 1]] else before
  }

  lemma {:induction false} OfKindIsOfKey(items: seq<Compensation>, c: Compensation)
    ensures OfKind(items, c.kind) == OfKey(KindRank, items, KindRank(c))
  {
    if items != [] { OfKindIsOfKey(items[..|items| - 1], c); }
  }

  /** Host fixes come before everything else, then state fixes, persistent rooms and replays. */
  predicate InKindOrder(first: CompensationKind, second: CompensationKind) {
    && (second == HostFix ==> first == HostFix)
    && (second == StateFix ==> first in {HostFix, StateFix})
    && (second == PersistentRoom ==> first in {HostFix, StateFix, PersistentRoom})
  }

  /** A batch is delivered by kind, and in submission order within one kind. */
  lemma BatchIsOrdered(batch: seq<Compensation>, c: Compensation)
    ensures forall i, j :: 0 <= i < j < |InOrder(batch)| ==> InKindOrder(InOrder(batch)[i].kind, InOrder(batch)[j].kind)
    ensures OfKind(InOrder(batch), c.kind) == OfKind(batch, c.kind)
  {
    SortIsOrdered(KindRank, batch);
    SortIsStable(KindRank, batch, KindRank(c));
    OfKindIsOfKey(batch, c);
    OfKindIsOfKey(InOrder(batch), c);
  }

  /** The compensations whose origin is still current. */
  function Live(items: seq<Compensation>): seq<Compensation> {
    if items == [] then [] else (if items[0].current then [items[0]] else []) + Live(items[1..])
  }

  /** A send whose failure ends a batch: of a host or state fix, or by timeout. */
  predicate Breaks(faults: Faults, c: Compensation, attempt: nat) {
    attempt in faults && (c.kind in {HostFix, StateFix} || faults[attempt] == TimedOut)
  }

  /** The live compensations take one send each, from number `attempt` on; does one of them end the batch? */
  ghost predicate SomeBreaks(faults: Faults, live: seq<Compensation>, attempt: nat) {
    exists k :: 0 <= k < |live| && Breaks(faults, live[k], attempt + k)
  }

  lemma SomeBreaksStep(faults: Faults, c: Compensation, rest: seq<Compensation>, attempt: nat)
    ensures SomeBreaks(faults, [c] + rest, attempt) <==>
      Breaks(faults, c, attempt) || SomeBreaks(faults, rest, attempt + 1)
  {
    var all := [c] + rest;
    if Breaks(faults, c, attempt) { assert Breaks(faults, all[0], attempt + 0); }
    if k :| 0 <= k < |rest| && Breaks(faults, rest[k], attempt + 1 + k) {
      assert Breaks(faults, all[k + 1], attempt + (k + 1));
    }
    if k :| 0 < k < |all| && Breaks(faults, all[k], attempt + k) {
      assert Breaks(faults, rest[k - 1], attempt + 1 + (k - 1));
    }
  }

  /** A batch fails exactly when a send of one of its live compensations does so in a way that ends it. */
  lemma {:induction false} DeliverFailsIff(faults: Faults, items: seq<Compensation>, w: Wire)
    ensures !Deliver(faults, items, w).1 <==> SomeBreaks(faults, Live(items), w.attempts)
    ensures Deliver(faults, items, w).1 ==> Deliver(faults, items, w).0.attempts == w.attempts + |Live(items)|
  {
    if items != [] {
      DeliverFailsIff(faults, items[1..], DeliverOne(faults, items[0], w).0);
      if items[0].current {
        SomeBreaksStep(faults, items[0], Live(items[1..]), w.attempts);
      } else {
        assert Live(items) == Live(items[1..]);
      }
    }
  }

  lemma DeliverOneAdds(faults: Faults, c: Compensation, w: Wire) returns (added: seq<Frame>)
    ensures DeliverOne(faults, c, w).0.sent == w.sent + added
    ensures Subsequence(added, if c.current then [Frame(c.cmd, IsCritical(c))] else [])
  {
    added := if c.current && w.attempts !in faults then [Frame(c.cmd, IsCritical(c))] else [];
    SubsequenceReflexive(added);
  }

  /** Under any faults a batch adds some of its frames, in order. */
  lemma {:induction false} DeliverAddsSome(faults: Faults, items: seq<Compensation>, w: Wire)
    returns (added: seq<Frame>)
    ensures Deliver(faults, items, w).0.sent == w.sent + added && Subsequence(added, FramesOf(items))
  {
    added := [];
    if items != [] {
      var (w', ok) := DeliverOne(faults, items[0], w);
      var first := DeliverOneAdds(faults, items[0], w);
      var rest := [];
      if ok { rest := DeliverAddsSome(faults, items[1..], w'); }
      added := first + rest;
      assert w'.sent + rest == w.sent + added;
      SubsequenceConcat(first, if items[0].current then [Frame(items[0].cmd, IsCritical(items[0]))] else [],
                        rest, FramesOf(items[1..]));
    }
  }

  lemma NeverOpensPrefix(limits: Limits, evs: seq<Event>)
    requires evs != [] && NeverOpens(limits, evs)
    ensures NeverOpens(limits, evs[..|evs| - 1])
  {
    var init := evs[..|evs| - 1];
    forall k | 0 <= k < |init| ensures !Opens(limits, init, k) {
      assert init[..k] == evs[..k] && !Opens(limits, evs, k);
    }
  }

  lemma OversizedStep(limits: Limits, ps: seq<Push>, p: Push)
    ensures SomeOversized(limits, ps + [p]) <==> SomeOversized(limits, ps) || Oversized(limits, p)
  {
    if SomeOversized(limits, ps) {
      var i :| 0 <= i < |ps| && Oversized(limits, ps[i]);
      assert Oversized(limits, (ps + [p])[i]);
    }
    if Oversized(limits, p) { assert Oversized(limits, (ps + [p])[|ps|]); }
  }

  lemma PushAllStep(limits: Limits, ps: seq<Push>, p: Push)
    ensures PushAll(limits, ps + [p]) == Pushed(limits, PushAll(limits, ps), p)
  {
    assert (ps + [p])[..|ps|] == ps;
  }

  /** A successful activation empties the gate onto the wire. */
  lemma ActivationDrains(limits: Limits, t: Task)
    requires t.ready && !t.gate.overflowed
    ensures var t' := Handle(limits, map[], t, Activate);
      && Open(t') && t'.wire.sent == t.wire.sent + Delta(t.gate.events, t.gate.cutover)
      && t'.gate.cutover == t.gate.cutover
  {
    var es, cutover := t.gate.events, t.gate.cutover;
    var m := DrainDeliversPrefix(map[], es, cutover, t.wire);
    assert Delta(es, cutover)[..m] == Delta(es, cutover);
  }

  lemma RunStep(limits: Limits, faults: Faults, evs: seq<Event>, ev: Event)
    ensures Run(limits, faults, evs + [ev]) == Step(limits, faults, Run(limits, faults, evs), ev)
    ensures PushesOf(evs + [ev]) == PushesOf(evs) + if ev.Consume? && ev.item.Packet? then [ev.item.p] else []
    ensures CutoverOf(evs + [ev]) == if ev.BeginCutover? then ev.snapshotSeq else CutoverOf(evs)
  {
    assert (evs + [ev])[..|evs|] == evs;
  }

  function ImmediateOf(init: seq<Event>, ev: Event): seq<Frame> {
    if !IsReady(init) || !ev.Consume? then []
    else if ev.item.Critical? then [Frame(ev.item.cmd, true)]
    else if ev.item.PostResponse? then BatchFrames(ev.item.batch)
    else []
  }

  lemma ImmediateStep(evs: seq<Event>, ev: Event)
    ensures Immediate(evs + [ev]) == Immediate(evs) + ImmediateOf(evs, ev)
  {
    assert (evs + [ev])[..|evs|] == evs;
  }

  /** The gate's part of a run that has not opened: exactly the bounded buffer of all packets so far
      (empty once one was oversized and an activation was refused). */
  ghost predicate Buffering(limits: Limits, evs: seq<Event>, t: Task) {
    && !t.active && !t.gate.activated && t.ready == IsReady(evs)
    && t.gate.cutover == CutoverOf(evs) && t.gate.nextSeq == |PushesOf(evs)| + 1
    && (t.gate.overflowed <==> SomeOversized(limits, PushesOf(evs)))
    && (!t.gate.overflowed ==> t.gate.events == PushAll(limits, PushesOf(evs)).events)
  }

  lemma PushKeepsBuffering(limits: Limits, evs: seq<Event>, t: Task, p: Push)
    requires Buffering(limits, evs, t)
    ensures Buffering(limits, evs + [Consume(Packet(p))], Handle(limits, map[], t, Packet(p)))
  {
    var ps, ev := PushesOf(evs), Consume(Packet(p));
    RunStep(limits, map[], evs, ev);
    BufferIsLongestFit(limits, ps);
    PushAllStep(limits, ps, p);
    OversizedStep(limits, ps, p);
  }

  lemma StepKeepsBuffering(limits: Limits, evs: seq<Event>, t: Task, ev: Event)
    requires Buffering(limits, evs, t) && !(ev == Consume(Activate) && t.ready && !t.gate.overflowed)
    ensures Buffering(limits, evs + [ev], Step(limits, map[], t, ev))
    ensures t.wire.sent == Immediate(evs) ==> Step(limits, map[], t, ev).wire.sent == Immediate(evs + [ev])
  {
    RunStep(limits, map[], evs, ev);
    ImmediateStep(evs, ev);
    match ev {
      case Consume(Packet(p)) => PushKeepsBuffering(limits, evs, t, p);
      case Consume(PostResponse(batch)) => DeliverWithoutFaults(InOrder(batch), t.wire);
      case _ =>
    }
  }

  /** Until the gate opens, packets only change the gate and the wire holds the immediate frames only. */
  lemma {:induction false} BeforeOpening(limits: Limits, evs: seq<Event>)
    requires NeverOpens(limits, evs)
    ensures Buffering(limits, evs, Run(limits, map[], evs))
    ensures Run(limits, map[], evs).wire.sent == Immediate(evs)
  {
    if evs == [] {
      assert !SomeOversized(limits, []);
    } else {
      var n := |evs| - 1;
      NeverOpensPrefix(limits, evs);
      BeforeOpening(limits, evs[..n]);
      assert !Opens(limits, evs, n) && evs == evs[..n] + [evs[n]];
      StepKeepsBuffering(limits, evs[..n], Run(limits, map[], evs[..n]), evs[n]);
    }
  }

  ghost predicate Open(t: Task) {
    t.active && t.gate.activated && t.ready && t.gate.events == [] && !t.gate.overflowed
  }

  /** The opening itself: everything buffered and uncovered goes out right behind the immediate frames. */
  lemma OpeningDrains(limits: Limits, evs: seq<Event>)
    requires NeverOpens(limits, evs) && IsReady(evs) && !SomeOversized(limits, PushesOf(evs))
    ensures var t := Handle(limits, map[], Run(limits, map[], evs), Activate);
      Open(t) && t.wire.sent == Immediate(evs)
        + Delta(LongestFit(limits, Accepted(limits, PushesOf(evs))), CutoverOf(evs))
  {
    BeforeOpening(limits, evs);
    BufferIsLongestFit(limits, PushesOf(evs));
    ActivationDrains(limits, Run(limits, map[], evs));
  }

  /** An open gate stays open and empty, and passes every later item straight through. */
  lemma OpenPassesThrough(limits: Limits, t: Task, ev: Event)
    requires Open(t)
    ensures var t' := Step(limits, map[], t, ev);
      Open(t') && t'.wire.sent == t.wire.sent + Everything([ev])
  {
    assert Everything([ev][..0]) == [];
    match ev {
      case Consume(PostResponse(batch)) => DeliverWithoutFaults(InOrder(batch), t.wire);
      case _ =>
    }
  }

  lemma EverythingStep(evs: seq<Event>, ev: Event)
    ensures Everything(evs + [ev]) == Everything(evs) + Everything([ev])
  {
    assert (evs + [ev])[..|evs|] == evs && Everything([ev][..0]) == [];
  }

  /** The wire of a run that opens after `before`: immediate frames, uncovered buffer, then `after`. */
  function Trace(limits: Limits, before: seq<Event>, after: seq<Event>): seq<Frame> {
    Immediate(before) + Delta(LongestFit(limits, Accepted(limits, PushesOf(before))), CutoverOf(before))
    + Everything(after)
  }

  lemma TraceStep(limits: Limits, before: seq<Event>, after: seq<Event>, ev: Event)
    ensures Trace(limits, before, after + [ev]) == Trace(limits, before, after) + Everything([ev])
  {
    EverythingStep(after, ev);
  }

  lemma RunAppend(limits: Limits, before: seq<Event>, after: seq<Event>, ev: Event)
    ensures Run(limits, map[], before + (after + [ev])) == Step(limits, map[], Run(limits, map[], before + after), ev)
  {
    RunStep(limits, map[], before + after, ev);
    assert before + (after + [ev]) == (before + after) + [ev];
  }

  ghost predicate Traced(limits: Limits, before: seq<Event>, after: seq<Event>) {
    var t := Run(limits, map[], before + [Consume(Activate)] + after);
    Open(t) && t.wire.sent == Trace(limits, before, after)
  }

  lemma TracedStep(limits: Limits, before: seq<Event>, after: seq<Event>, ev: Event)
    requires Traced(limits, before, after)
    ensures Traced(limits, before, after + [ev])
  {
    var opening := before + [Consume(Activate)];
    OpenPassesThrough(limits, Run(limits, map[], opening + after), ev);
    TraceStep(limits, before, after, ev);
    RunAppend(limits, opening, after, ev);
  }

  lemma {:induction false} AfterOpening(limits: Limits, before: seq<Event>, after: seq<Event>)
    requires NeverOpens(limits, before) && IsReady(before) && !SomeOversized(limits, PushesOf(before))
    ensures Traced(limits, before, after)
  {
    var opening := before + [Consume(Activate)];
    if after == [] {
      assert opening + after == opening;
      RunStep(limits, map[], before, Consume(Activate));
      OpeningDrains(limits, before);
    } else {
      var init, last := after[..|after| - 1], after[|after| - 1];
      AfterOpening(limits, before, init);
      TracedStep(limits, before, init, last);
      assert after == init + [last];
    }
  }

  lemma {:induction false} FirstOpening(limits: Limits, evs: seq<Event>) returns (k: nat)
    ensures k <= |evs| && NeverOpens(limits, evs[..k]) && (k < |evs| ==> Opens(limits, evs, k))
  {
    if evs == [] {
      k := 0;
    } else {
      var init := evs[..|evs| - 1];
      k := FirstOpening(limits, init);
      assert init[..k] == evs[..k];
      if k == |init| && !Opens(limits, evs, k) {
        forall j | 0 <= j < |evs| ensures !Opens(limits, evs, j) {
          if j < |init| { assert !Opens(limits, init, j) && init[..j] == evs[..j]; }
        }
        k := |evs|;
        assert evs[..k] == evs;
      }
    }
  }

  /** The wire trace of every run whose sends succeed. Either no activation can succeed and the wire
      holds the immediate frames only, or event `k` is the first that can, and the wire is the
      immediate frames before it, the uncovered part of the longest fitting buffer, and every later
      item, each in queue order. */
  lemma WireTrace(limits: Limits, evs: seq<Event>) returns (k: nat)
    ensures k <= |evs| && NeverOpens(limits, evs[..k])
    ensures k == |evs| ==> Run(limits, map[], evs).wire.sent == Immediate(evs)
    ensures k < |evs| ==> Opens(limits, evs, k)
    ensures k < |evs| ==> Run(limits, map[], evs).wire.sent == Trace(limits, evs[..k], evs[k + 1..])
  {
    k := FirstOpening(limits, evs);
    if k == |evs| {
      assert evs[..k] == evs;
      BeforeOpening(limits, evs);
    } else {
      assert evs == evs[..k] + [Consume(Activate)] + evs[k + 1..];
      AfterOpening(limits, evs[..k], evs[k + 1..]);
    }
  }

  ghost predicate Barrier(t: Task) {
    && t.active == t.gate.activated
    && (t.active ==> t.ready && t.gate.events == [] && !t.gate.overflowed)
    && (true !in t.replies ==> !t.active)
  }

  lemma HandleKeepsBarrier(limits: Limits, faults: Faults, t: Task, item: Item)
    requires Barrier(t)
    ensures var t' := Handle(limits, faults, t, item); Barrier(t') && (t.active ==> t'.active)
  {
    var r := t.replies;
    match item {
      case Activate =>
        var ok := Activated(faults, t.gate, t.wire).2;
        assert true in r ==> true in r + [ok];
        if ok { assert (r + [ok])[|r|]; }
      case Critical(cmd) =>
        var ok := t.ready && t.wire.attempts !in faults;
        assert true in r ==> true in r + [ok];
      case _ =>
    }
  }

  /** Under any pattern of send failures: the loop's flag equals the gate's at every loop head, an open
      gate holds nothing and was never overflowed. */
  lemma {:induction false} BarrierHolds(limits: Limits, faults: Faults, evs: seq<Event>)
    ensures Barrier(Run(limits, faults, evs)) && Run(limits, faults, evs).ready == IsReady(evs)
  {
    if evs != [] {
      var n := |evs| - 1;
      BarrierHolds(limits, faults, evs[..n]);
      assert evs == evs[..n] + [evs[n]];
      if evs[n].Consume? { HandleKeepsBarrier(limits, faults, Run(limits, faults, evs[..n]), evs[n].item); }
    }
  }

  /** Activation is for good, whatever fails later. */
  lemma {:induction false} ActiveForGood(limits: Limits, faults: Faults, evs: seq<Event>, k: nat)
    requires k <= |evs| && Run(limits, faults, evs[..k]).active
    ensures Run(limits, faults, evs).active
  {
    if k == |evs| {
      assert evs[..k] == evs;
    } else {
      var init := evs[..|evs| - 1];
      assert init[..k] == evs[..k];
      ActiveForGood(limits, faults, init, k);
      BarrierHolds(limits, faults, init);
      if evs[|init|].Consume? { HandleKeepsBarrier(limits, faults, Run(limits, faults, init), evs[|init|].item); }
    }
  }

  // ---- What the callers are told ----

  /** One answer for each awaited item, by what its step did: was exactly this frame added, flushed; is the
      gate open with everything kept on the wire? */
  function Told(limits: Limits, faults: Faults, evs: seq<Event>): seq<bool> {
    if evs == [] then []
    else
      var init := evs[..|evs| - 1];
      var before, after := Run(limits, faults, init), Run(limits, faults, evs);
      Told(limits, faults, init) +
      match evs[|evs| - 1]
      case Consume(Critical(cmd)) => [after.wire.sent == before.wire.sent + [Frame(cmd, true)]]
      case Consume(Activate) =>
        [after.gate.activated && after.wire.sent == before.wire.sent + Delta(before.gate.events, before.gate.cutover)]
      case _ => []
  }

  lemma ActivationTells(limits: Limits, faults: Faults, t: Task)
    requires Barrier(t)
    ensures var t' := Handle(limits, faults, t, Activate);
      t'.replies == t.replies +
        [t'.gate.activated && t'.wire.sent == t.wire.sent + Delta(t.gate.events, t.gate.cutover)]
  {
    if t.ready && !t.gate.overflowed {
      var delta := Delta(t.gate.events, t.gate.cutover);
      var n := DrainDeliversPrefix(faults, t.gate.events, t.gate.cutover, t.wire);
      if n == |delta| { assert delta[..n] == delta; }
    }
  }

  /** Under any send failures the replies are those answers: nobody is told of a flush that did not happen or
      of a gate that is not open. */
  lemma {:induction false} RepliesAreHonest(limits: Limits, faults: Faults, evs: seq<Event>)
    ensures Run(limits, faults, evs).replies == Told(limits, faults, evs)
  {
    if evs != [] {
      var n := |evs| - 1;
      var t := Run(limits, faults, evs[..n]);
      RepliesAreHonest(limits, faults, evs[..n]);
      BarrierHolds(limits, faults, evs[..n]);
      if evs[n] == Consume(Activate) { ActivationTells(limits, faults, t); }
    }
  }

  // ---- When the transport is closed ----

  /** The send of a packet times out, or a batch fails. */
  ghost predicate ClosesAt(limits: Limits, faults: Faults, evs: seq<Event>, i: nat)
    requires i < |evs|
  {
    var t := Run(limits, faults, evs[..i]);
    match evs[i]
    case Consume(Packet(_)) => t.active && t.wire.attempts in faults && faults[t.wire.attempts] == TimedOut
    case Consume(PostResponse(batch)) =>
      IsReady(evs[..i]) && SomeBreaks(faults, Live(InOrder(batch)), t.wire.attempts)
    case _ => false
  }

  lemma ClosesAtPrefix(limits: Limits, faults: Faults, evs: seq<Event>, n: nat, i: nat)
    requires i < n <= |evs|
    ensures ClosesAt(limits, faults, evs[..n], i) == ClosesAt(limits, faults, evs, i)
  {
    assert evs[..n][..i] == evs[..i];
  }

  /** The loop closes the transport exactly then, and for nothing else. */
  lemma {:induction false} ClosedIff(limits: Limits, faults: Faults, evs: seq<Event>)
    ensures Run(limits, faults, evs).closed <==> exists i :: 0 <= i < |evs| && ClosesAt(limits, faults, evs, i)
  {
    if evs != [] {
      var n := |evs| - 1;
      var t := Run(limits, faults, evs[..n]);
      ClosedIff(limits, faults, evs[..n]);
      BarrierHolds(limits, faults, evs[..n]);
      forall i | 0 <= i < n ensures ClosesAt(limits, faults, evs[..n], i) == ClosesAt(limits, faults, evs, i) {
        ClosesAtPrefix(limits, faults, evs, n, i);
      }
      ClosesStep(limits, faults, evs);
    }
  }

  lemma ClosesStep(limits: Limits, faults: Faults, evs: seq<Event>)
    requires evs != [] && Barrier(Run(limits, faults, evs[..|evs| - 1]))
    requires Run(limits, faults, evs[..|evs| - 1]).ready == IsReady(evs[..|evs| - 1])
    ensures Run(limits, faults, evs).closed <==>
      Run(limits, faults, evs[..|evs| - 1]).closed || ClosesAt(limits, faults, evs, |evs| - 1)
  {
    var n := |evs| - 1;
    var t := Run(limits, faults, evs[..n]);
    match evs[n] {
      case Consume(PostResponse(batch)) => DeliverFailsIff(faults, InOrder(batch), t.wire);
      case _ =>
    }
  }

  predicate Subsequence<T(==)>(a: seq<T>, b: seq<T>)
    decreases |b|
  {
    if |a| == 0 then true
    else if |b| == 0 then false
    else
      Subsequence(a, b[..|b| - 1]) || (a[|a| - 1] == b[|b| - 1] && Subsequence(a[..|a| - 1], b[..|b| - 1]))
  }

  lemma {:induction false} SubsequenceReflexive<T>(s: seq<T>)
    ensures Subsequence(s, s)
  {
    if |s| > 0 { SubsequenceReflexive(s[..|s| - 1]); }
  }

  lemma {:induction false} SubsequenceConcat<T>(a: seq<T>, b: seq<T>, c: seq<T>, d: seq<T>)
    requires Subsequence(a, b) && Subsequence(c, d)
    ensures Subsequence(a + c, b + d)
    decreases |d|
  {
    if |d| == 0 {
      assert a + c == a && b + d == b;
    } else {
      var dInit := d[..|d| - 1];
      assert (b + d)[..|b + d| - 1] == b + dInit;
      if Subsequence(c, dInit) {
        SubsequenceConcat(a, b, c, dInit);
      } else {
        assert |c| > 0;
        SubsequenceConcat(a, b, c[..|c| - 1], dInit);
        assert (a + c)[..|a + c| - 1] == a + c[..|c| - 1];
      }
    }
  }

  /** No activation attempted yet, whatever fails: what is on the wire is some of the immediate frames, in
      order and none repeated, so nothing overtakes the authentication response. */
  lemma {:induction false} NothingOvertakesAuthentication(limits: Limits, faults: Faults, evs: seq<Event>)
    requires Consume(Activate) !in evs
    ensures !Run(limits, faults, evs).active
    ensures Subsequence(Run(limits, faults, evs).wire.sent, Immediate(evs))
  {
    if evs != [] {
      var init, ev := evs[..|evs| - 1], evs[|evs| - 1];
      assert evs == init + [ev];
      NothingOvertakesAuthentication(limits, faults, init);
      BarrierHolds(limits, faults, init);
      var t := Run(limits, faults, init);
      var added := StepAddsSome(limits, faults, init, t, ev);
      ImmediateStep(init, ev);
      SubsequenceConcat(t.wire.sent, Immediate(init), added, ImmediateOf(init, ev));
    }
  }

  /** Before activation one step adds some of its immediate frames. */
  lemma StepAddsSome(limits: Limits, faults: Faults, init: seq<Event>, t: Task, ev: Event) returns (added: seq<Frame>)
    requires !t.active && t.ready == IsReady(init) && ev != Consume(Activate)
    ensures var t' := Step(limits, faults, t, ev); !t'.active && t'.wire.sent == t.wire.sent + added
    ensures Subsequence(added, ImmediateOf(init, ev))
  {
    added := [];
    match ev {
      case Consume(PostResponse(batch)) => if t.ready { added := DeliverAddsSome(faults, InOrder(batch), t.wire); }
      case Consume(Critical(cmd)) =>
        if t.ready && t.wire.attempts !in faults {
          added := [Frame(cmd, true)];
          SubsequenceReflexive(added);
        }
      case _ =>
    }
  }

  // ---- The outbound loop as an object ----

  class OutboundTask {
    const gate: SessionOutboundGate
    const sink: Sink
    var active: bool
    var ready: bool
    var closed: bool
    var replies: seq<bool>

    constructor (limits: Limits, faults: Faults)
      requires limits.maxBytes < USIZE_MAX
      ensures Valid() && View() == START && gate.limits == limits && sink.faults == faults
      ensures fresh(gate) && fresh(sink)
    {
      gate := new SessionOutboundGate(limits);
      sink := new Sink(faults);
      active, ready, closed, replies := false, false, false, [];
    }

    ghost predicate Valid() reads this, gate, sink { gate.Valid() }

    ghost function View(): Task reads this, gate, sink {
      Task(gate.View(), sink.View(), active, ready, closed, replies)
    }

    /** One compensation, unless its origin is no longer current. */
    method DeliverVia(c: Compensation) returns (ok: bool)
      requires Valid()
      modifies sink
      ensures Valid() && (sink.View(), ok) == DeliverOne(sink.faults, c, old(sink.View()))
      ensures !ok <==> c.current && Breaks(sink.faults, c, old(sink.attempts))
      ensures sink.sent == old(sink.sent) +
        if c.current && old(sink.attempts) !in sink.faults then [Frame(c.cmd, c.kind in {HostFix, StateFix})] else []
    {
      if !c.current { return true; }
      var fault := sink.Send(c.cmd, IsCritical(c));
      ok := fault.None? || (!IsCritical(c) && fault == Some(SendError));
    }

    method DeliverBatch(batch: seq<Compensation>) returns (ok: bool)
      requires Valid()
      modifies sink
      ensures Valid() && (sink.View(), ok) == Deliver(sink.faults, InOrder(batch), old(sink.View()))
    {
      var items := InOrder(batch);
      var i := 0;
      ghost var goal := Deliver(sink.faults, items, sink.View());
      while i < |items|
        invariant 0 <= i <= |items| && Deliver(sink.faults, items[i..], sink.View()) == goal
      {
        assert items[i..][1..] == items[i + 1..];
        var delivered := DeliverVia(items[i]);
        if !delivered { return false; }
        i := i + 1;
      }
      ok := true;
    }

    method HandleItem(item: Item)
      requires Valid()
      modifies this, gate, sink
      ensures Valid() && View() == Handle(gate.limits, sink.faults, old(View()), item)
      ensures item.Critical? ==>
        replies == old(replies) + [sink.sent == old(sink.sent) + [Frame(item.cmd, true)]]
      ensures item.Critical? && ready ==>
        (sink.sent == old(sink.sent) + [Frame(item.cmd, true)] <==> old(sink.attempts) !in sink.faults)
      ensures item == Activate ==> replies == old(replies) + [ready && gate.activated]
    {
      match item {
        case Packet(p) =>
          if !active {
            gate.PushBounded(p.cmd, p.roomSeq);
          } else if ready {
            var fault := sink.Send(p.cmd, false);
            if fault == Some(TimedOut) { closed := true; }
          }
        case Critical(cmd) =>
          var ok := false;
          if ready {
            var fault := sink.Send(cmd, true);
            ok := fault.None?;
          }
          replies := replies + [ok];
        case Activate =>
          if !ready {
            replies := replies + [false];
          } else {
            var ok := gate.Activate(sink);
            active := ok;
            replies := replies + [ok];
          }
        case PostResponse(batch) =>
          if ready {
            var ok := DeliverBatch(batch);
            if !ok { closed := true; }
          }
      }
    }

    /** The whole loop, from its start, over the events it observes. */
    method RunOutboundTask(evs: seq<Event>)
      requires Valid() && View() == START
      modifies this, gate, sink
      ensures Valid() && View() == Run(gate.limits, sink.faults, evs)
      ensures replies == Told(gate.limits, sink.faults, evs)
      ensures closed <==> exists i :: 0 <= i < |evs| && ClosesAt(gate.limits, sink.faults, evs, i)
    {
      var i := 0;
      while i < |evs|
        invariant 0 <= i <= |evs| && Valid()
        invariant View() == Run(gate.limits, sink.faults, evs[..i])
      {
        match evs[i] {
          case SenderReady => ready := true;
          case BeginCutover(n) => var _ := gate.BeginRoomCutover(n);
          case Consume(item) => HandleItem(item);
        }
        assert evs[..i + 1][..i] == evs[..i];
        i := i + 1;
      }
      assert evs[..i] == evs;
      RepliesAreHonest(gate.limits, sink.faults, evs);
      ClosedIff(gate.limits, sink.faults, evs);
    }
  }
}
