/** A room, a snapshot of it and the outbound queue of one authenticating session: what the client that
    installs the snapshot and then applies what the wire delivers makes of the room's state. */
module RoomCutover {
  import opened Commands
  import opened Options
  import opened OutboundGate
  import opened OutboundTask
  import opened Canonical

  /** `apply` is how a packet changes a client's copy of the room state. */
  type Apply<!S(!new)> = (S, Command) -> S

  function Fold<S(!new)>(apply: Apply<S>, s: S, cmds: seq<Command>): S {
    if cmds == [] then s else apply(Fold(apply, s, cmds[..|cmds| - 1]), cmds[|cmds| - 1])
  }

  /** Which packets are known never to change the room state: chat, telemetry, command responses. */
  type Neutrality = Command -> bool

  ghost predicate Sound<S(!new)>(apply: Apply<S>, neutral: Neutrality) {
    forall c, s :: neutral(c) ==> apply(s, c) == s
  }

  /** The packets of a stream that can change the room state, in order. */
  ghost function Changes(neutral: Neutrality, cmds: seq<Command>): seq<Command> {
    if cmds == [] then []
    else
      var c := cmds[|cmds| - 1];
      Changes(neutral, cmds[..|cmds| - 1]) + (if neutral(c) then [] else [c])
  }

  function Sent(frames: seq<Frame>): seq<Command> {
    seq(|frames|, i requires 0 <= i < |frames| => frames[i].cmd)
  }

  function Contents(es: seq<Entry>): seq<Command> {
    seq(|es|, i requires 0 <= i < |es| => es[i].cmd)
  }

  lemma {:induction false} ChangesConcat(neutral: Neutrality, a: seq<Command>, b: seq<Command>)
    ensures Changes(neutral, a + b) == Changes(neutral, a) + Changes(neutral, b)
  {
    if b == [] {
      assert a + b == a;
    } else {
      var init := b[..|b| - 1];
      assert (a + b)[..|a + b| - 1] == a + init;
      ChangesConcat(neutral, a, init);
    }
  }

  lemma {:induction false} NeutralHasNoChanges(neutral: Neutrality, cmds: seq<Command>)
    requires forall c :: c in cmds ==> neutral(c)
    ensures Changes(neutral, cmds) == []
  {
    if cmds != [] { NeutralHasNoChanges(neutral, cmds[..|cmds| - 1]); }
  }

  /** Only the changes of a stream matter to the client. */
  lemma {:induction false} FoldChanges<S(!new)>(apply: Apply<S>, neutral: Neutrality, s: S, cmds: seq<Command>)
    requires Sound(apply, neutral)
    ensures Fold(apply, s, Changes(neutral, cmds)) == Fold(apply, s, cmds)
  {
    if cmds != [] {
      var init, c := cmds[..|cmds| - 1], cmds[|cmds| - 1];
      FoldChanges(apply, neutral, s, init);
      var before := Changes(neutral, init);
      if neutral(c) {
        assert Changes(neutral, cmds) == before;
      } else {
        assert Changes(neutral, cmds) == before + [c] && (before + [c])[..|before|] == before;
      }
    }
  }

  lemma {:induction false} FoldConcat<S(!new)>(apply: Apply<S>, s: S, a: seq<Command>, b: seq<Command>)
    ensures Fold(apply, s, a + b) == Fold(apply, Fold(apply, s, a), b)
  {
    if b == [] {
      assert a + b == a;
    } else {
      assert (a + b)[..|a + b| - 1] == a + b[..|b| - 1];
      FoldConcat(apply, s, a, b[..|b| - 1]);
    }
  }

  // ---- The system ----

  /** A packet the client received, and whether it came through the room's broadcasts or directly, as a
      response or a compensation. */
  datatype Delivered = Delivered(cmd: Command, fromRoom: bool)

  /** `deltas` records the room's changes since the snapshot, `missed` those of them made before the session's
      queue was handed broadcasts, `received` what is on the wire, and `lossy` that the gate ever had to drop
      a packet. */
  datatype Sys<S> = Sys(
    room: S, roomSeq: nat, subscribed: bool, snapshot: Option<(nat, S)>, cutoverDone: bool,
    queue: seq<Item>, task: Task, deltas: seq<Command>, missed: seq<Command>, received: seq<Delivered>, lossy: bool)

  datatype Act =
    | RoomChange(cmds: seq<Command>)   // one state change of the room, broadcast as these packets
    | Note(cmd: Command, stamped: bool) // a packet that changes no state: a broadcast, or a plain response
    | Subscribe                        // `set_session`: from here on the queue is handed every broadcast
    | TakeSnapshot
    | SetCutover                       // `begin_room_cutover(snapshot_seq)`
    | Respond(cmd: Command) | Compensate(batch: seq<Compensation>) | RequestActivation
    | MakeReady
    | ConsumeNext

  function Start<S>(room: S): Sys<S> {
    Sys(room, 0, false, None, false, [], START, [], [], [], false)
  }

  function Stamped(cmds: seq<Command>, r: nat): seq<Item> {
    seq(|cmds|, i requires 0 <= i < |cmds| => Packet(Push(cmds[i], Some(r))))
  }

  function Tagged(cmds: seq<Command>, fromRoom: bool): seq<Delivered> {
    seq(|cmds|, i requires 0 <= i < |cmds| => Delivered(cmds[i], fromRoom))
  }

  function Packets(received: seq<Delivered>): seq<Command> {
    seq(|received|, i requires 0 <= i < |received| => received[i].cmd)
  }

  /** What came through the room's broadcasts. */
  function FromRoom(received: seq<Delivered>): seq<Command> {
    if received == [] then []
    else
      var before, d := FromRoom(received[..|received| - 1]), received[|received| - 1];
      if d.fromRoom then before + [d.cmd] else before
  }

  /** The packets a step of the outbound loop put on the wire. */
  function NewlySent(before: Task, after: Task): seq<Command> {
    if |after.wire.sent| < |before.wire.sent| then [] else Sent(after.wire.sent[|before.wire.sent|..])
  }

  predicate CarriesBroadcasts(item: Item) { item.Packet? || item == Activate }

  ghost predicate Enabled<S>(neutral: Neutrality, s: Sys<S>, a: Act) {
    match a
    case RoomChange(cmds) =>
      forall c :: c in cmds ==> Classify(c.kind) == SnapshotCovered || neutral(c)
    case Note(c, _) => neutral(c)
    case TakeSnapshot => s.snapshot.None?
    case SetCutover => s.snapshot.Some?
    case RequestActivation => s.cutoverDone
    case ConsumeNext => s.queue != []
    case _ => true
  }

  /** The head of the queue leaves it; `added` goes on the wire. */
  function Pop<S>(s: Sys<S>, task: Task, added: seq<Command>): Sys<S>
    requires s.queue != []
  {
    s.(queue := s.queue[1..], task := task, received := s.received + Tagged(added, CarriesBroadcasts(s.queue[0])))
  }

  ghost function Change<S(!new)>(apply: Apply<S>, neutral: Neutrality, s: Sys<S>, cmds: seq<Command>): Sys<S> {
    var changed := s.(room := Fold(apply, s.room, cmds), roomSeq := s.roomSeq + 1,
                      deltas := if s.snapshot.Some? then s.deltas + Changes(neutral, cmds) else s.deltas);
    if s.subscribed then changed.(queue := s.queue + Stamped(cmds, s.roomSeq + 1))
    else if s.snapshot.Some? then changed.(missed := s.missed + Changes(neutral, cmds))
    else changed
  }

  ghost function Do<S(!new)>(apply: Apply<S>, neutral: Neutrality, limits: Limits, s: Sys<S>, a: Act): Sys<S> {
    if !Enabled(neutral, s, a) then s
    else match a
      case RoomChange(cmds) => Change(apply, neutral, s, cmds)
      case Note(c, stamped) =>
        if stamped && !s.subscribed then s
        else s.(queue := s.queue + [Packet(Push(c, if stamped then Some(s.roomSeq) else None))])
      case Subscribe => s.(subscribed := true)
      case TakeSnapshot => s.(snapshot := Some((s.roomSeq, s.room)))
      case SetCutover =>
        s.(cutoverDone := true, task := Step(limits, map[], s.task, BeginCutover(s.snapshot.value.0)))
      case Respond(c) => s.(queue := s.queue + [Critical(c)])
      case Compensate(batch) => s.(queue := s.queue + [PostResponse(batch)])
      case RequestActivation => s.(queue := s.queue + [Activate])
      case MakeReady => s.(task := Step(limits, map[], s.task, SenderReady))
      case ConsumeNext =>
        var item := s.queue[0];
        var task := Handle(limits, map[], s.task, item);
        Pop(s, task, NewlySent(s.task, task)).(
          lossy := s.lossy || (item.Packet? && !s.task.active
            && !Fits(limits, s.task.gate.events + [EntryOf(item.p, s.task.gate.nextSeq)])))
  }

  ghost function RunSys<S(!new)>(apply: Apply<S>, neutral: Neutrality, limits: Limits, room: S, acts: seq<Act>): Sys<S>
  {
    if acts == [] then Start(room)
    else Do(apply, neutral, limits, RunSys(apply, neutral, limits, room, acts[..|acts| - 1]), acts[|acts| - 1])
  }

  // ---- What the client still has to receive ----

  /** The queued packets a cutover at `n` would keep. */
  function Queued(queue: seq<Item>, n: nat): seq<Command> {
    if queue == [] then []
    else
      (if queue[0].Packet? && !Covered(EntryOf(queue[0].p, 0), n) then [queue[0].p.cmd] else [])
      + Queued(queue[1..], n)
  }

  /** The broadcasts the client has received or, nothing being dropped, still will. */
  function Outcome<S>(s: Sys<S>, n: nat): seq<Command> {
    FromRoom(s.received) + Contents(Kept(s.task.gate.events, n)) + Queued(s.queue, n)
  }

  ghost function Due<S>(neutral: Neutrality, s: Sys<S>, n: nat): seq<Command> {
    Changes(neutral, FromRoom(s.received)) + Changes(neutral, Contents(Kept(s.task.gate.events, n)))
    + Changes(neutral, Queued(s.queue, n))
  }

  lemma DueIsOutcome<S>(neutral: Neutrality, s: Sys<S>, n: nat)
    ensures Changes(neutral, Outcome(s, n)) == Due(neutral, s, n)
  {
    var wire, kept := FromRoom(s.received), Contents(Kept(s.task.gate.events, n));
    ChangesConcat(neutral, wire + kept, Queued(s.queue, n));
    ChangesConcat(neutral, wire, kept);
  }

  lemma {:induction false} QueuedAppend(a: seq<Item>, b: seq<Item>, n: nat)
    ensures Queued(a + b, n) == Queued(a, n) + Queued(b, n)
  {
    if a == [] {
      assert a + b == b;
    } else {
      assert (a + b)[1..] == a[1..] + b;
      QueuedAppend(a[1..], b, n);
    }
  }

  lemma QueuedConcat(neutral: Neutrality, a: seq<Item>, b: seq<Item>, n: nat)
    ensures Changes(neutral, Queued(a + b, n)) == Changes(neutral, Queued(a, n)) + Changes(neutral, Queued(b, n))
  {
    QueuedAppend(a, b, n);
    ChangesConcat(neutral, Queued(a, n), Queued(b, n));
  }

  // ---- The invariant ----

  /** A packet that changes state carries the number of a room change no later than `upTo`. */
  ghost predicate Dated(neutral: Neutrality, e: Entry, upTo: nat) {
    neutral(e.cmd) || (e.cls == SnapshotCovered && e.roomSeq.Some? && e.roomSeq.value <= upTo)
  }

  ghost predicate ItemOk(neutral: Neutrality, item: Item, upTo: nat) {
    item.Packet? ==> Dated(neutral, EntryOf(item.p, 0), upTo)
  }

  ghost predicate AllDated<S>(neutral: Neutrality, s: Sys<S>) {
    && (forall item :: item in s.queue ==> ItemOk(neutral, item, s.roomSeq))
    && (forall e :: e in s.task.gate.events ==> Dated(neutral, e, s.roomSeq))
  }

  ghost predicate Beyond(neutral: Neutrality, item: Item, n: nat) {
    item.Packet? ==> neutral(item.p.cmd) || !Covered(EntryOf(item.p, 0), n)
  }

  /** Behind an activation, queued or already handled, no change that the snapshot covers is left. */
  ghost predicate Fenced(neutral: Neutrality, queue: seq<Item>, open: bool, n: nat) {
    queue == [] ||
    ((open ==> Beyond(neutral, queue[0], n)) && Fenced(neutral, queue[1..], open || queue[0] == Activate, n))
  }

  /** Where packets may be: dated, fenced behind activations, the cutover set before any activation. */
  ghost predicate Ordered<S>(neutral: Neutrality, s: Sys<S>) {
    && Barrier(s.task) && !s.task.gate.overflowed && AllDated(neutral, s)
    && (s.cutoverDone ==> s.snapshot.Some? && s.task.gate.cutover == s.snapshot.value.0)
    && (s.task.active || Activate in s.queue ==> s.cutoverDone)
    && (s.snapshot.Some? ==> s.snapshot.value.0 <= s.roomSeq)
    && (s.snapshot.Some? ==> Fenced(neutral, s.queue, s.task.active, s.snapshot.value.0))
    && Packets(s.received) == Sent(s.task.wire.sent)
  }

  /** Before the session is handed broadcasts, no change is on its way to it. */
  ghost predicate Silent<S>(neutral: Neutrality, s: Sys<S>) {
    && (forall item :: item in s.queue && item.Packet? ==> neutral(item.p.cmd))
    && (forall e :: e in s.task.gate.events ==> neutral(e.cmd))
    && Changes(neutral, FromRoom(s.received)) == []
  }

  /** What the client is due is what the room has changed since the snapshot, but for what it missed. */
  ghost predicate Balanced<S(!new)>(apply: Apply<S>, neutral: Neutrality, s: Sys<S>) {
    && (!s.subscribed ==> Silent(neutral, s))
    && (s.snapshot.None? ==> s.deltas == [] && s.missed == [] && Changes(neutral, FromRoom(s.received)) == [])
    && (s.snapshot.Some? ==>
          && s.missed + Due(neutral, s, s.snapshot.value.0) == s.deltas
          && s.room == Fold(apply, s.snapshot.value.1, s.deltas))
  }

  ghost predicate Shape<S(!new)>(apply: Apply<S>, neutral: Neutrality, s: Sys<S>) {
    Ordered(neutral, s) && Balanced(apply, neutral, s)
  }

  lemma {:induction false} FencedAppend(neutral: Neutrality, queue: seq<Item>, items: seq<Item>, open: bool, n: nat)
    requires Fenced(neutral, queue, open, n)
    requires forall item :: item in items ==> Beyond(neutral, item, n)
    ensures Fenced(neutral, queue + items, open, n)
    decreases |queue| + |items|
  {
    if queue != [] {
      assert (queue + items)[1..] == queue[1..] + items;
      FencedAppend(neutral, queue[1..], items, open || queue[0] == Activate, n);
    } else if items != [] {
      assert queue + items == items && [] + items[1..] == items[1..];
      FencedAppend(neutral, [], items[1..], open || items[0] == Activate, n);
    }
  }

  lemma {:induction false} FencedWeaken(neutral: Neutrality, queue: seq<Item>, n: nat)
    requires Fenced(neutral, queue, true, n)
    ensures Fenced(neutral, queue, false, n)
  {
    if queue != [] && queue[0] != Activate { FencedWeaken(neutral, queue[1..], n); }
  }

  lemma {:induction false} UnfencedUntilActivation(neutral: Neutrality, queue: seq<Item>, n: nat)
    requires Activate !in queue
    ensures Fenced(neutral, queue, false, n)
  {
    if queue != [] { UnfencedUntilActivation(neutral, queue[1..], n); }
  }

  lemma {:induction false} QueuedStamped(neutral: Neutrality, cmds: seq<Command>, r: nat, n: nat)
    requires n < r || forall c :: c in cmds ==> neutral(c)
    ensures Changes(neutral, Queued(Stamped(cmds, r), n)) == Changes(neutral, cmds)
    ensures forall item :: item in Stamped(cmds, r) ==> Beyond(neutral, item, n)
  {
    if cmds != [] {
      var items := Stamped(cmds, r);
      assert items[1..] == Stamped(cmds[1..], r);
      QueuedStamped(neutral, cmds[1..], r, n);
      assert cmds == [cmds[0]] + cmds[1..] && items == [items[0]] + items[1..];
      ChangesConcat(neutral, [cmds[0]], cmds[1..]);
      var head := if Covered(EntryOf(items[0].p, 0), n) then [] else [cmds[0]];
      ChangesConcat(neutral, head, Queued(items[1..], n));
      ChangesOne(neutral, cmds[0]);
    }
  }

  lemma ChangesOne(neutral: Neutrality, c: Command)
    ensures Changes(neutral, [c]) == if neutral(c) then [] else [c]
  {
    assert Changes(neutral, [c][..0]) == [];
  }

  lemma {:induction false} CoveredQueueHasNoChanges(neutral: Neutrality, queue: seq<Item>, n: nat)
    requires forall item :: item in queue ==> ItemOk(neutral, item, n)
    ensures Changes(neutral, Queued(queue, n)) == []
  {
    if queue != [] {
      CoveredQueueHasNoChanges(neutral, queue[1..], n);
      assert ItemOk(neutral, queue[0], n) && queue == [queue[0]] + queue[1..];
      QueuedConcat(neutral, [queue[0]], queue[1..], n);
      if queue[0].Packet? { QueuedOne(neutral, queue[0].p, n); }
    }
  }

  lemma QueuedOne(neutral: Neutrality, p: Push, n: nat)
    ensures Queued([Packet(p)], n) == if Covered(EntryOf(p, 0), n) then [] else [p.cmd]
    ensures Changes(neutral, Queued([Packet(p)], n)) ==
      if Covered(EntryOf(p, 0), n) || neutral(p.cmd) then [] else [p.cmd]
  {
    assert Queued([Packet(p)][1..], n) == [];
    ChangesOne(neutral, p.cmd);
  }

  lemma CoveredEntriesHaveNoChanges(neutral: Neutrality, es: seq<Entry>, n: nat)
    requires forall e :: e in es ==> Dated(neutral, e, n)
    ensures Changes(neutral, Contents(Kept(es, n))) == []
  {
    KeptIsUncovered(es, n);
    var kept := Kept(es, n);
    forall c | c in Contents(kept) ensures neutral(c) {
      var i :| 0 <= i < |kept| && kept[i].cmd == c;
      assert kept[i] in kept;
    }
    NeutralHasNoChanges(neutral, Contents(kept));
  }

  // ---- One step at a time ----

  /** `head` leaves the queue; with `added` now received and `kept'` now buffered the whole is the same. */
  lemma Handover<T>(received: seq<T>, kept: seq<T>, head: seq<T>, tail: seq<T>, added: seq<T>, kept': seq<T>)
    requires received + added + kept' == received + kept + head
    ensures received + added + kept' + tail == received + kept + (head + tail)
  {
    assert received + kept + (head + tail) == received + kept + head + tail;
  }

  lemma Arrival<T>(missed: seq<T>, received: seq<T>, kept: seq<T>, queued: seq<T>, added: seq<T>)
    ensures missed + (received + kept + (queued + added)) == missed + (received + kept + queued) + added
  {
  }

  /** Items join the queue: directly, or as the packets of the room change that just happened. */
  lemma EnqueueOrdered<S>(neutral: Neutrality, s: Sys<S>, items: seq<Item>, s': Sys<S>)
    requires Ordered(neutral, s) && s'.roomSeq >= s.roomSeq
    requires s' == s.(queue := s.queue + items, room := s'.room, roomSeq := s'.roomSeq,
                      deltas := s'.deltas, missed := s'.missed)
    requires Activate in items ==> s.cutoverDone
    requires forall item :: item in items ==> ItemOk(neutral, item, s'.roomSeq)
    requires s.snapshot.Some? ==> forall item :: item in items ==> Beyond(neutral, item, s.snapshot.value.0)
    ensures Ordered(neutral, s')
  {
    if s.snapshot.Some? { FencedAppend(neutral, s.queue, items, s.task.active, s.snapshot.value.0); }
  }

  lemma EnqueueBalanced<S(!new)>(apply: Apply<S>, neutral: Neutrality, s: Sys<S>,
                                 items: seq<Item>, added: seq<Command>, s': Sys<S>)
    requires Balanced(apply, neutral, s)
    requires s' == s.(queue := s.queue + items, room := s'.room, roomSeq := s'.roomSeq, deltas := s'.deltas)
    requires s.snapshot.None? ==> s'.deltas == []
    requires s.snapshot.Some? ==> Changes(neutral, Queued(items, s.snapshot.value.0)) == added
    requires s.snapshot.Some? ==> s'.deltas == s.deltas + added && s'.room == Fold(apply, s.room, added)
    requires !s.subscribed ==> forall item :: item in items && item.Packet? ==> neutral(item.p.cmd)
    ensures Balanced(apply, neutral, s')
  {
    if s.snapshot.Some? {
      var (n, snap) := s.snapshot.value;
      QueuedConcat(neutral, s.queue, items, n);
      Arrival(s.missed, Changes(neutral, FromRoom(s.received)), Changes(neutral, Contents(Kept(s.task.gate.events, n))),
              Changes(neutral, Queued(s.queue, n)), added);
      FoldConcat(apply, snap, s.deltas, added);
    }
  }

  lemma SnapshotKeeps<S(!new)>(apply: Apply<S>, neutral: Neutrality, s: Sys<S>)
    requires Shape(apply, neutral, s) && s.snapshot.None?
    ensures Shape(apply, neutral, s.(snapshot := Some((s.roomSeq, s.room))))
  {
    CoveredQueueHasNoChanges(neutral, s.queue, s.roomSeq);
    CoveredEntriesHaveNoChanges(neutral, s.task.gate.events, s.roomSeq);
    UnfencedUntilActivation(neutral, s.queue, s.roomSeq);
  }

  lemma {:induction false} FromRoomConcat(a: seq<Delivered>, b: seq<Delivered>)
    ensures FromRoom(a + b) == FromRoom(a) + FromRoom(b)
  {
    if b == [] {
      assert a + b == a;
    } else {
      assert (a + b)[..|a + b| - 1] == a + b[..|b| - 1];
      FromRoomConcat(a, b[..|b| - 1]);
    }
  }

  lemma {:induction false} FromRoomTagged(added: seq<Command>, fromRoom: bool)
    ensures FromRoom(Tagged(added, fromRoom)) == if fromRoom then added else []
  {
    if added != [] {
      var n := |added| - 1;
      assert Tagged(added, fromRoom)[..n] == Tagged(added[..n], fromRoom);
      FromRoomTagged(added[..n], fromRoom);
    }
  }

  lemma TaggedPackets(received: seq<Delivered>, added: seq<Command>, fromRoom: bool)
    ensures Packets(received + Tagged(added, fromRoom)) == Packets(received) + added
  {
  }

  lemma PopOrdered<S>(neutral: Neutrality, s: Sys<S>, task: Task, added: seq<Command>)
    requires Ordered(neutral, s) && s.queue != [] && Barrier(task) && !task.gate.overflowed
    requires task.gate.cutover == s.task.gate.cutover
    requires task.active ==> s.task.active || s.queue[0] == Activate
    requires s.task.active ==> task.active
    requires forall e :: e in task.gate.events ==> Dated(neutral, e, s.roomSeq)
    requires Sent(task.wire.sent) == Sent(s.task.wire.sent) + added
    ensures Ordered(neutral, Pop(s, task, added))
  {
    TaggedPackets(s.received, added, CarriesBroadcasts(s.queue[0]));
    if s.snapshot.Some? && s.queue[0] == Activate && !task.active {
      FencedWeaken(neutral, s.queue[1..], s.snapshot.value.0);
    }
  }

  /** The changes among `added`, if the head of the queue brings broadcasts. */
  ghost function AddedChanges<S>(neutral: Neutrality, s: Sys<S>, added: seq<Command>): seq<Command>
    requires s.queue != []
  {
    if CarriesBroadcasts(s.queue[0]) then Changes(neutral, added) else []
  }

  lemma PopReceived(neutral: Neutrality, received: seq<Delivered>, added: seq<Command>, fromRoom: bool)
    ensures Changes(neutral, FromRoom(received + Tagged(added, fromRoom))) ==
      Changes(neutral, FromRoom(received)) + if fromRoom then Changes(neutral, added) else []
  {
    FromRoomConcat(received, Tagged(added, fromRoom));
    FromRoomTagged(added, fromRoom);
    ChangesConcat(neutral, FromRoom(received), if fromRoom then added else []);
  }

  /** What the head of the queue was due to contribute has moved to the gate or the wire. */
  lemma PopBalanced<S(!new)>(apply: Apply<S>, neutral: Neutrality, s: Sys<S>, task: Task, added: seq<Command>)
    requires Balanced(apply, neutral, s) && s.queue != []
    requires s.snapshot.None? || !s.subscribed ==> AddedChanges(neutral, s, added) == []
    requires !s.subscribed ==> forall e :: e in task.gate.events ==> neutral(e.cmd)
    requires s.snapshot.Some? ==>
      var n := s.snapshot.value.0;
      Changes(neutral, FromRoom(s.received)) + AddedChanges(neutral, s, added)
      + Changes(neutral, Contents(Kept(task.gate.events, n)))
      == Changes(neutral, FromRoom(s.received)) + Changes(neutral, Contents(Kept(s.task.gate.events, n)))
         + Changes(neutral, Queued([s.queue[0]], n))
    ensures Balanced(apply, neutral, Pop(s, task, added))
  {
    PopReceived(neutral, s.received, added, CarriesBroadcasts(s.queue[0]));
    if s.snapshot.Some? {
      PopDue(neutral, s, task, added, s.snapshot.value.0);
    }
  }

  lemma PopDue<S>(neutral: Neutrality, s: Sys<S>, task: Task, added: seq<Command>, n: nat)
    requires s.queue != []
    requires Changes(neutral, FromRoom(s.received)) + AddedChanges(neutral, s, added)
      + Changes(neutral, Contents(Kept(task.gate.events, n)))
      == Changes(neutral, FromRoom(s.received)) + Changes(neutral, Contents(Kept(s.task.gate.events, n)))
         + Changes(neutral, Queued([s.queue[0]], n))
    ensures Due(neutral, Pop(s, task, added), n) == Due(neutral, s, n)
  {
    PopReceived(neutral, s.received, added, CarriesBroadcasts(s.queue[0]));
    assert s.queue == [s.queue[0]] + s.queue[1..];
    QueuedConcat(neutral, [s.queue[0]], s.queue[1..], n);
    Handover(Changes(neutral, FromRoom(s.received)), Changes(neutral, Contents(Kept(s.task.gate.events, n))),
             Changes(neutral, Queued([s.queue[0]], n)), Changes(neutral, Queued(s.queue[1..], n)),
             AddedChanges(neutral, s, added), Changes(neutral, Contents(Kept(task.gate.events, n))));
  }

  lemma KeptOne(neutral: Neutrality, es: seq<Entry>, e: Entry, n: nat)
    ensures Changes(neutral, Contents(Kept(es + [e], n))) == Changes(neutral, Contents(Kept(es, n)))
      + if Covered(e, n) || neutral(e.cmd) then [] else [e.cmd]
  {
    KeptConcat(es, [e], n);
    assert Kept([e], n) == (if Covered(e, n) then [] else [e]) by { assert [e][1..] == []; }
    assert Contents(Kept(es + [e], n)) == Contents(Kept(es, n)) + Contents(Kept([e], n));
    ChangesConcat(neutral, Contents(Kept(es, n)), Contents(Kept([e], n)));
    assert Contents([e]) == [e.cmd] && Contents([]) == [];
    ChangesOne(neutral, e.cmd);
  }

  lemma FitsNotOversized(limits: Limits, es: seq<Entry>, p: Push, seqNo: nat)
    requires Fits(limits, es + [EntryOf(p, seqNo)])
    ensures !Oversized(limits, p)
  {
    BytesConcat(es, [EntryOf(p, seqNo)]);
    BytesOne(EntryOf(p, seqNo));
  }

  lemma Moved<T>(received: seq<T>, kept: seq<T>, head: seq<T>)
    ensures received + [] + (kept + head) == received + kept + head
  {
  }

  lemma BufferTakes(limits: Limits, t: Task, p: Push)
    requires !t.active && Barrier(t) && Fits(limits, t.gate.events + [EntryOf(p, t.gate.nextSeq)])
    requires !t.gate.overflowed
    ensures var task := Handle(limits, map[], t, Packet(p));
      && task.gate.events == t.gate.events + [EntryOf(p, t.gate.nextSeq)] && task.wire == t.wire && !task.active
      && Barrier(task) && !task.gate.overflowed && task.gate.cutover == t.gate.cutover
  {
    FitsNotOversized(limits, t.gate.events, p, t.gate.nextSeq);
    HandleKeepsBarrier(limits, map[], t, Packet(p));
  }

  lemma BufferMoves(neutral: Neutrality, received: seq<Command>, es: seq<Entry>, p: Push, seqNo: nat, n: nat)
    ensures received + [] + Changes(neutral, Contents(Kept(es + [EntryOf(p, seqNo)], n))) ==
      received + Changes(neutral, Contents(Kept(es, n))) + Changes(neutral, Queued([Packet(p)], n))
  {
    QueuedOne(neutral, p, n);
    KeptOne(neutral, es, EntryOf(p, seqNo), n);
    Moved(received, Changes(neutral, Contents(Kept(es, n))), Changes(neutral, Queued([Packet(p)], n)));
  }

  /** Before activation a packet moves from the queue to the gate. */
  lemma BufferKeeps<S(!new)>(apply: Apply<S>, neutral: Neutrality, limits: Limits, s: Sys<S>, p: Push)
    requires Shape(apply, neutral, s) && s.queue != [] && s.queue[0] == Packet(p) && !s.task.active
    requires Fits(limits, s.task.gate.events + [EntryOf(p, s.task.gate.nextSeq)])
    ensures Shape(apply, neutral, Pop(s, Handle(limits, map[], s.task, Packet(p)), []))
  {
    var es := s.task.gate.events;
    var task := Handle(limits, map[], s.task, Packet(p));
    BufferTakes(limits, s.task, p);
    assert s.queue[0] in s.queue && ItemOk(neutral, s.queue[0], s.roomSeq);
    PopOrdered(neutral, s, task, []);
    if s.snapshot.Some? {
      BufferMoves(neutral, Changes(neutral, FromRoom(s.received)), es, p, s.task.gate.nextSeq, s.snapshot.value.0);
    }
    assert AddedChanges(neutral, s, []) == [];
    PopBalanced(apply, neutral, s, task, []);
  }

  lemma PassSends(limits: Limits, t: Task, p: Push)
    requires t.active && t.ready
    ensures var task := Handle(limits, map[], t, Packet(p));
      && Sent(task.wire.sent) == Sent(t.wire.sent) + [p.cmd]
      && task.gate == t.gate && task.active && task.ready
  {
  }

  /** An open gate lets a packet straight through. */
  lemma PassKeeps<S(!new)>(apply: Apply<S>, neutral: Neutrality, limits: Limits, s: Sys<S>, p: Push)
    requires Shape(apply, neutral, s) && s.queue != [] && s.queue[0] == Packet(p) && s.task.active
    ensures Shape(apply, neutral, Pop(s, Handle(limits, map[], s.task, Packet(p)), [p.cmd]))
  {
    var task := Handle(limits, map[], s.task, Packet(p));
    var n := s.snapshot.value.0;
    PassSends(limits, s.task, p);
    PopOrdered(neutral, s, task, [p.cmd]);
    assert Beyond(neutral, s.queue[0], n) && s.queue[0] in s.queue;
    PassMoves(neutral, p, n);
    assert Changes(neutral, Contents(Kept(s.task.gate.events, n))) == [];
    PopBalanced(apply, neutral, s, task, [p.cmd]);
  }

  lemma PassMoves(neutral: Neutrality, p: Push, n: nat)
    requires Beyond(neutral, Packet(p), n)
    ensures Changes(neutral, Queued([Packet(p)], n)) == Changes(neutral, [p.cmd])
    ensures neutral(p.cmd) ==> Changes(neutral, [p.cmd]) == []
  {
    QueuedOne(neutral, p, n);
    ChangesOne(neutral, p.cmd);
  }

  lemma ActivationSends(limits: Limits, t: Task)
    requires t.ready && !t.gate.overflowed
    ensures var task := Handle(limits, map[], t, Activate);
      && Open(task) && task.gate.events == [] && task.gate.cutover == t.gate.cutover
      && Sent(task.wire.sent) == Sent(t.wire.sent) + Contents(Kept(t.gate.events, t.gate.cutover))
  {
    ActivationDrains(limits, t);
  }

  /** Opening the gate puts exactly the kept buffer on the wire. */
  lemma ActivationKeeps<S(!new)>(apply: Apply<S>, neutral: Neutrality, limits: Limits, s: Sys<S>)
    requires Shape(apply, neutral, s) && s.queue != [] && s.queue[0] == Activate && s.task.ready
    ensures Shape(apply, neutral, Pop(s, Handle(limits, map[], s.task, Activate),
                                      Contents(Kept(s.task.gate.events, s.task.gate.cutover))))
  {
    var task := Handle(limits, map[], s.task, Activate);
    var n, es := s.snapshot.value.0, s.task.gate.events;
    var kept := Contents(Kept(es, n));
    HandleKeepsBarrier(limits, map[], s.task, Activate);
    ActivationSends(limits, s.task);
    PopOrdered(neutral, s, task, kept);
    assert Changes(neutral, Contents(Kept(task.gate.events, n))) == [];
    DirectMovesNothing(neutral, Activate, n);
    assert AddedChanges(neutral, s, kept) == Changes(neutral, kept);
    if !s.subscribed { SilentEntries(neutral, es, n); }
    PopBalanced(apply, neutral, s, task, kept);
  }

  lemma SilentEntries(neutral: Neutrality, es: seq<Entry>, n: nat)
    requires forall e :: e in es ==> neutral(e.cmd)
    ensures Changes(neutral, Contents(Kept(es, n))) == []
  {
    CoveredEntriesHaveNoChanges(neutral, es, n);
  }

  /** What a response or a batch of compensations puts on the wire. */
  function Direct(t: Task, item: Item): seq<Command> {
    if !t.ready then [] else match item
      case Critical(c) => [c]
      case PostResponse(batch) => Sent(BatchFrames(batch))
      case _ => []
  }

  lemma DirectSends(limits: Limits, t: Task, item: Item)
    requires !item.Packet? && (item == Activate ==> !t.ready)
    ensures var task := Handle(limits, map[], t, item);
      && Sent(task.wire.sent) == Sent(t.wire.sent) + Direct(t, item)
      && task.gate == t.gate && task.active == t.active && (Barrier(t) ==> Barrier(task))
  {
    if Barrier(t) { HandleKeepsBarrier(limits, map[], t, item); }
    if item.PostResponse? { DeliverWithoutFaults(InOrder(item.batch), t.wire); }
  }

  lemma Idle<T>(received: seq<T>, kept: seq<T>)
    ensures received + [] + kept == received + kept + []
  {
  }

  lemma DirectMovesNothing(neutral: Neutrality, item: Item, n: nat)
    requires !item.Packet?
    ensures Changes(neutral, Queued([item], n)) == []
  {
    assert Queued([item][1..], n) == [];
  }

  /** Whatever responses and compensations say, the broadcasts are none the wiser. */
  lemma DirectKeeps<S(!new)>(apply: Apply<S>, neutral: Neutrality, limits: Limits, s: Sys<S>)
    requires Shape(apply, neutral, s) && s.queue != [] && !s.queue[0].Packet?
    requires s.queue[0] == Activate ==> !s.task.ready
    ensures Shape(apply, neutral, Pop(s, Handle(limits, map[], s.task, s.queue[0]), Direct(s.task, s.queue[0])))
  {
    var item, added := s.queue[0], Direct(s.task, s.queue[0]);
    var task := Handle(limits, map[], s.task, item);
    DirectSends(limits, s.task, item);
    PopOrdered(neutral, s, task, added);
    assert AddedChanges(neutral, s, added) == [];
    if s.snapshot.Some? {
      var n := s.snapshot.value.0;
      DirectMovesNothing(neutral, item, n);
      Idle(Changes(neutral, FromRoom(s.received)), Changes(neutral, Contents(Kept(s.task.gate.events, n))));
    }
    PopBalanced(apply, neutral, s, task, added);
  }

  lemma NewlySentIs(before: Task, after: Task, added: seq<Command>)
    requires Sent(after.wire.sent) == Sent(before.wire.sent) + added
    ensures NewlySent(before, after) == added
  {
    assert |after.wire.sent| == |before.wire.sent| + |added|;
    forall i | 0 <= i < |added| ensures NewlySent(before, after)[i] == added[i] {
      assert Sent(after.wire.sent)[|before.wire.sent| + i] == added[i];
    }
  }

  lemma ConsumeKeeps<S(!new)>(apply: Apply<S>, neutral: Neutrality, limits: Limits, s: Sys<S>)
    requires Shape(apply, neutral, s) && s.queue != []
    requires !Do(apply, neutral, limits, s, ConsumeNext).lossy
    ensures var task := Handle(limits, map[], s.task, s.queue[0]);
      Shape(apply, neutral, Pop(s, task, NewlySent(s.task, task)))
  {
    var item := s.queue[0];
    var task := Handle(limits, map[], s.task, item);
    var added := if item.Packet? then (if s.task.active then [item.p.cmd] else [])
                 else if item == Activate && s.task.ready then Contents(Kept(s.task.gate.events, s.task.gate.cutover))
                 else Direct(s.task, item);
    if item.Packet? && s.task.active {
      PassKeeps(apply, neutral, limits, s, item.p);
    } else if item.Packet? {
      BufferKeeps(apply, neutral, limits, s, item.p);
    } else if item == Activate && s.task.ready {
      ActivationKeeps(apply, neutral, limits, s);
    } else {
      DirectKeeps(apply, neutral, limits, s);
    }
    PoppedIsNewlySent(neutral, s, task, added);
  }

  lemma PoppedIsNewlySent<S>(neutral: Neutrality, s: Sys<S>, task: Task, added: seq<Command>)
    requires s.queue != [] && Ordered(neutral, s) && Ordered(neutral, Pop(s, task, added))
    ensures NewlySent(s.task, task) == added
  {
    TaggedPackets(s.received, added, CarriesBroadcasts(s.queue[0]));
    NewlySentIs(s.task, task, added);
  }

  lemma StampedOk(neutral: Neutrality, cmds: seq<Command>, r: nat)
    requires forall c :: c in cmds ==> Classify(c.kind) == SnapshotCovered || neutral(c)
    ensures forall item :: item in Stamped(cmds, r) ==> ItemOk(neutral, item, r)
    ensures Activate !in Stamped(cmds, r)
  {
    forall item | item in Stamped(cmds, r) ensures ItemOk(neutral, item, r) {
      var i :| 0 <= i < |cmds| && item == Packet(Push(cmds[i], Some(r)));
    }
  }

  lemma RoomChangeOrdered<S(!new)>(apply: Apply<S>, neutral: Neutrality, s: Sys<S>, cmds: seq<Command>)
    requires Ordered(neutral, s) && Enabled(neutral, s, RoomChange(cmds)) && s.subscribed
    ensures Ordered(neutral, Change(apply, neutral, s, cmds))
  {
    StampedOk(neutral, cmds, s.roomSeq + 1);
    if s.snapshot.Some? { QueuedStamped(neutral, cmds, s.roomSeq + 1, s.snapshot.value.0); }
    EnqueueOrdered(neutral, s, Stamped(cmds, s.roomSeq + 1), Change(apply, neutral, s, cmds));
  }

  lemma RoomChangeKeeps<S(!new)>(apply: Apply<S>, neutral: Neutrality, s: Sys<S>, cmds: seq<Command>)
    requires Sound(apply, neutral) && Shape(apply, neutral, s) && Enabled(neutral, s, RoomChange(cmds)) && s.subscribed
    ensures Shape(apply, neutral, Change(apply, neutral, s, cmds))
  {
    RoomChangeOrdered(apply, neutral, s, cmds);
    if s.snapshot.Some? { QueuedStamped(neutral, cmds, s.roomSeq + 1, s.snapshot.value.0); }
    FoldChanges(apply, neutral, s.room, cmds);
    EnqueueBalanced(apply, neutral, s, Stamped(cmds, s.roomSeq + 1), Changes(neutral, cmds),
                    Change(apply, neutral, s, cmds));
  }

  /** A change made before the session is handed broadcasts is missed. */
  lemma MissedChangeKeeps<S(!new)>(apply: Apply<S>, neutral: Neutrality, s: Sys<S>, cmds: seq<Command>)
    requires Sound(apply, neutral) && Shape(apply, neutral, s) && !s.subscribed
    ensures Shape(apply, neutral, Change(apply, neutral, s, cmds))
  {
    var s' := Change(apply, neutral, s, cmds);
    assert s'.queue == s.queue + [];
    EnqueueOrdered(neutral, s, [], s');
    FoldChanges(apply, neutral, s.room, cmds);
    if s.snapshot.Some? {
      var (n, snap) := s.snapshot.value;
      SilentIsNotDue(neutral, s, n);
      assert Due(neutral, s', n) == Due(neutral, s, n);
      FoldConcat(apply, snap, s.deltas, Changes(neutral, cmds));
      assert s.missed + [] == s.missed && s'.missed + [] == s'.missed;
    }
  }

  lemma SilentIsNotDue<S>(neutral: Neutrality, s: Sys<S>, n: nat)
    requires Silent(neutral, s)
    ensures Due(neutral, s, n) == []
  {
    SilentEntries(neutral, s.task.gate.events, n);
    CoveredQueueHasNoChanges(neutral, s.queue, n);
  }

  lemma NoteKeeps<S(!new)>(apply: Apply<S>, neutral: Neutrality, s: Sys<S>, p: Push)
    requires Shape(apply, neutral, s) && neutral(p.cmd)
    ensures Shape(apply, neutral, s.(queue := s.queue + [Packet(p)]))
  {
    var s' := s.(queue := s.queue + [Packet(p)]);
    if s.snapshot.Some? { QueuedOne(neutral, p, s.snapshot.value.0); }
    EnqueueOrdered(neutral, s, [Packet(p)], s');
    EnqueueBalanced(apply, neutral, s, [Packet(p)], [], s');
  }

  lemma QueueDirect<S(!new)>(apply: Apply<S>, neutral: Neutrality, s: Sys<S>, item: Item)
    requires Shape(apply, neutral, s) && !item.Packet? && (item == Activate ==> s.cutoverDone)
    ensures Shape(apply, neutral, s.(queue := s.queue + [item]))
  {
    if s.snapshot.Some? { DirectMovesNothing(neutral, item, s.snapshot.value.0); }
    EnqueueOrdered(neutral, s, [item], s.(queue := s.queue + [item]));
    EnqueueBalanced(apply, neutral, s, [item], [], s.(queue := s.queue + [item]));
  }

  lemma TaskStepKeeps<S(!new)>(apply: Apply<S>, neutral: Neutrality, s: Sys<S>)
    requires Shape(apply, neutral, s)
    ensures Shape(apply, neutral, s.(task := s.task.(ready := true)))
    ensures s.snapshot.Some? ==>
      var gate := s.task.gate.(cutover := s.snapshot.value.0);
      Shape(apply, neutral, s.(cutoverDone := true, task := s.task.(gate := gate)))
  {
  }

  lemma DoKeeps<S(!new)>(apply: Apply<S>, neutral: Neutrality, limits: Limits, s: Sys<S>, a: Act)
    requires Sound(apply, neutral) && Shape(apply, neutral, s) && Enabled(neutral, s, a)
    requires !s.lossy && !Do(apply, neutral, limits, s, a).lossy
    ensures Shape(apply, neutral, Do(apply, neutral, limits, s, a))
  {
    match a {
      case RoomChange(cmds) =>
        if s.subscribed { RoomChangeKeeps(apply, neutral, s, cmds); }
        else { MissedChangeKeeps(apply, neutral, s, cmds); }
      case Note(c, stamped) => NoteKeeps(apply, neutral, s, Push(c, if stamped then Some(s.roomSeq) else None));
      case Subscribe =>
      case TakeSnapshot => SnapshotKeeps(apply, neutral, s);
      case Respond(c) => QueueDirect(apply, neutral, s, Critical(c));
      case Compensate(batch) => QueueDirect(apply, neutral, s, PostResponse(batch));
      case RequestActivation => QueueDirect(apply, neutral, s, Activate);
      case ConsumeNext => ConsumeKeeps(apply, neutral, limits, s);
      case _ => TaskStepKeeps(apply, neutral, s);
    }
  }

  lemma {:induction false} EveryRunKeepsShape<S(!new)>(apply: Apply<S>, neutral: Neutrality, limits: Limits,
                                                       room: S, acts: seq<Act>)
    requires Sound(apply, neutral)
    ensures var s := RunSys(apply, neutral, limits, room, acts); !s.lossy ==> Shape(apply, neutral, s)
  {
    if acts != [] {
      var n := |acts| - 1;
      EveryRunKeepsShape(apply, neutral, limits, room, acts[..n]);
      var s := RunSys(apply, neutral, limits, room, acts[..n]);
      if Enabled(neutral, s, acts[n]) && !Do(apply, neutral, limits, s, acts[n]).lossy {
        DoKeeps(apply, neutral, limits, s, acts[n]);
      }
    }
  }

  // ---- Main results ----

  /** In every run that never had to drop a packet, whatever the responses and compensations, at every point
      after the snapshot: the changes the client missed and then those among the broadcasts it received or
      will receive are exactly the room's changes since the snapshot, each once and in order, and lead from
      the snapshot to the room's state. So the stream is complete exactly when nothing was missed. */
  lemma BroadcastsAreTheChanges<S(!new)>(apply: Apply<S>, neutral: Neutrality, limits: Limits, room: S, acts: seq<Act>)
    requires Sound(apply, neutral)
    ensures var s := RunSys(apply, neutral, limits, room, acts);
      !s.lossy && s.snapshot.Some? ==>
        var (n, snap) := s.snapshot.value;
        && s.missed + Changes(neutral, Outcome(s, n)) == s.deltas
        && Fold(apply, snap, s.deltas) == s.room
        && (Changes(neutral, Outcome(s, n)) == s.deltas <==> s.missed == [])
        && Packets(s.received) == Sent(s.task.wire.sent)
        && (s.task.active && s.queue == [] ==> Outcome(s, n) == FromRoom(s.received))
  {
    var s := RunSys(apply, neutral, limits, room, acts);
    EveryRunKeepsShape(apply, neutral, limits, room, acts);
    if !s.lossy && s.snapshot.Some? {
      DueIsOutcome(neutral, s, s.snapshot.value.0);
      assert |s.missed| + |Changes(neutral, Outcome(s, s.snapshot.value.0))| == |s.deltas|;
    }
  }

  /** Snapshot plus delta converges: if nothing was missed, installing the snapshot and applying the broadcasts
      received or still on their way gives the room's state. */
  lemma SnapshotPlusDeltaConverges<S(!new)>(apply: Apply<S>, neutral: Neutrality, limits: Limits,
                                            room: S, acts: seq<Act>)
    requires Sound(apply, neutral)
    ensures var s := RunSys(apply, neutral, limits, room, acts);
      !s.lossy && s.snapshot.Some? && s.missed == [] ==>
        Fold(apply, s.snapshot.value.1, Outcome(s, s.snapshot.value.0)) == s.room
  {
    var s := RunSys(apply, neutral, limits, room, acts);
    BroadcastsAreTheChanges(apply, neutral, limits, room, acts);
    if !s.lossy && s.snapshot.Some? { FoldChanges(apply, neutral, s.snapshot.value.1, Outcome(s, s.snapshot.value.0)); }
  }

  /** A direct packet that, at its place on the wire, leaves the state reached there unchanged. */
  predicate Harmless<S(==,!new)>(apply: Apply<S>, start: S, received: seq<Delivered>, i: nat)
    requires i < |received|
  {
    var reached := Fold(apply, start, Packets(received[..i]));
    received[i].fromRoom || apply(reached, received[i].cmd) == reached
  }

  predicate AllHarmless<S(==,!new)>(apply: Apply<S>, start: S, received: seq<Delivered>) {
    forall i :: 0 <= i < |received| ==> Harmless(apply, start, received, i)
  }

  lemma {:induction false} HarmlessFold<S(!new)>(apply: Apply<S>, start: S, received: seq<Delivered>)
    requires AllHarmless(apply, start, received)
    ensures Fold(apply, start, Packets(received)) == Fold(apply, start, FromRoom(received))
  {
    if received != [] {
      var n := |received| - 1;
      var init, d := received[..n], received[n];
      forall i | 0 <= i < n ensures Harmless(apply, start, init, i) {
        assert init[..i] == received[..i] && Harmless(apply, start, received, i);
      }
      HarmlessFold(apply, start, init);
      assert Harmless(apply, start, received, n);
      assert Packets(received)[..n] == Packets(init);
      if d.fromRoom { assert (FromRoom(init) + [d.cmd])[..|FromRoom(init)|] == FromRoom(init); }
    }
  }

  /** Has the client's session caught up: gate open, queue drained, nothing dropped, nothing missed? */
  predicate CaughtUp<S>(s: Sys<S>) {
    s.task.active && s.queue == [] && !s.lossy && s.snapshot.Some? && s.missed == []
  }

  /** The whole stream, responses and compensations included, converges if each of them, at its place on the
      wire, leaves the state reached there unchanged. */
  lemma WholeStreamConverges<S(!new)>(apply: Apply<S>, neutral: Neutrality, limits: Limits, room: S, acts: seq<Act>)
    requires Sound(apply, neutral)
    requires var s := RunSys(apply, neutral, limits, room, acts);
      CaughtUp(s) && AllHarmless(apply, s.snapshot.value.1, s.received)
    ensures var s := RunSys(apply, neutral, limits, room, acts);
      Fold(apply, s.snapshot.value.1, Sent(s.task.wire.sent)) == s.room
  {
    var s := RunSys(apply, neutral, limits, room, acts);
    BroadcastsAreTheChanges(apply, neutral, limits, room, acts);
    SnapshotPlusDeltaConverges(apply, neutral, limits, room, acts);
    HarmlessFold(apply, s.snapshot.value.1, s.received);
  }

  /** `fix` hides that `installed` was installed in place of `snap`, whatever was applied in between. */
  ghost predicate Restores<S(!new)>(apply: Apply<S>, installed: S, snap: S, fix: Command) {
    forall cmds :: RestoresAfter(apply, installed, snap, fix, cmds)
  }

  predicate RestoresAfter<S(==,!new)>(apply: Apply<S>, installed: S, snap: S, fix: Command, cmds: seq<Command>) {
    apply(Fold(apply, installed, cmds), fix) == apply(Fold(apply, snap, cmds), fix)
  }

  /** A client that installed an altered snapshot agrees, from the fix on, with one that installed it as is. */
  lemma FixCatchesUp<S(!new)>(apply: Apply<S>, installed: S, snap: S,
                              before: seq<Command>, fix: Command, after: seq<Command>)
    requires Restores(apply, installed, snap, fix)
    ensures Fold(apply, installed, before + [fix] + after) == Fold(apply, snap, before + [fix] + after)
  {
    var upTo := before + [fix];
    assert upTo[..|before|] == before && RestoresAfter(apply, installed, snap, fix, before);
    FoldConcat(apply, installed, upTo, after);
    FoldConcat(apply, snap, upTo, after);
  }

  lemma RepairedFold<S(!new)>(apply: Apply<S>, installed: S, snap: S, cmds: seq<Command>, i: nat)
    requires i < |cmds| && Restores(apply, installed, snap, cmds[i])
    ensures Fold(apply, installed, cmds) == Fold(apply, snap, cmds)
  {
    assert cmds == cmds[..i] + [cmds[i]] + cmds[i + 1..];
    FixCatchesUp(apply, installed, snap, cmds[..i], cmds[i], cmds[i + 1..]);
  }

  /** The wait-for-ready repair: the client installs `installed` and later receives a fix that restores the
      snapshot. If the fix and every other direct packet leave the state reached at their place unchanged,
      the client ends in the room's state. */
  lemma RepairConverges<S(!new)>(apply: Apply<S>, neutral: Neutrality, limits: Limits, room: S, acts: seq<Act>,
                                 installed: S, i: nat)
    requires Sound(apply, neutral)
    requires var s := RunSys(apply, neutral, limits, room, acts);
      && CaughtUp(s) && AllHarmless(apply, s.snapshot.value.1, s.received)
      && i < |s.received| && Restores(apply, installed, s.snapshot.value.1, s.received[i].cmd)
    ensures var s := RunSys(apply, neutral, limits, room, acts);
      Fold(apply, installed, Sent(s.task.wire.sent)) == s.room
  {
    var s := RunSys(apply, neutral, limits, room, acts);
    BroadcastsAreTheChanges(apply, neutral, limits, room, acts);
    WholeStreamConverges(apply, neutral, limits, room, acts);
    RepairedFold(apply, installed, s.snapshot.value.1, Packets(s.received), i);
  }

  /** A stream whose last packet is a fix, all direct packets before it harmless. */
  ghost predicate EndsWithFix<S(!new)>(apply: Apply<S>, installed: S, snap: S, received: seq<Delivered>) {
    var n := |received| - 1;
    && received != [] && !received[n].fromRoom
    && AllHarmless(apply, snap, received[..n]) && Restores(apply, installed, snap, received[n].cmd)
  }

  lemma LastFixFold<S(!new)>(apply: Apply<S>, installed: S, snap: S, received: seq<Delivered>)
    requires EndsWithFix(apply, installed, snap, received)
    ensures Fold(apply, installed, Packets(received)) ==
      apply(Fold(apply, snap, FromRoom(received)), received[|received| - 1].cmd)
  {
    var n := |received| - 1;
    HarmlessFold(apply, snap, received[..n]);
    RepairedFold(apply, installed, snap, Packets(received), n);
    assert Packets(received)[..n] == Packets(received[..n]);
  }

  /** Exactly when a client whose last packet is the fix ends in the room's state: when applying the fix to the
      room's state changes nothing, as when the room is still in the state the fix restores. */
  lemma LastFixDecides<S(!new)>(apply: Apply<S>, neutral: Neutrality, limits: Limits, room: S, acts: seq<Act>,
                                installed: S)
    requires Sound(apply, neutral)
    requires var s := RunSys(apply, neutral, limits, room, acts);
      CaughtUp(s) && EndsWithFix(apply, installed, s.snapshot.value.1, s.received)
    ensures var s := RunSys(apply, neutral, limits, room, acts);
      Fold(apply, installed, Sent(s.task.wire.sent)) == s.room <==>
        apply(s.room, s.received[|s.received| - 1].cmd) == s.room
  {
    var s := RunSys(apply, neutral, limits, room, acts);
    BroadcastsAreTheChanges(apply, neutral, limits, room, acts);
    SnapshotPlusDeltaConverges(apply, neutral, limits, room, acts);
    LastFixFold(apply, installed, s.snapshot.value.1, s.received);
  }

  // ---- When something is missed ----

  /** A change of the room after the snapshot and before the session is handed broadcasts. */
  ghost predicate Misses<S>(neutral: Neutrality, s: Sys<S>, a: Act) {
    a.RoomChange? && Enabled(neutral, s, a) && s.snapshot.Some? && !s.subscribed && Changes(neutral, a.cmds) != []
  }

  ghost predicate MissesAt<S(!new)>(apply: Apply<S>, neutral: Neutrality, limits: Limits, room: S,
                                    acts: seq<Act>, i: nat)
    requires i < |acts|
  {
    Misses(neutral, RunSys(apply, neutral, limits, room, acts[..i]), acts[i])
  }

  /** Something is missed exactly when the room changes state inside that window. */
  lemma {:induction false} MissedIff<S(!new)>(apply: Apply<S>, neutral: Neutrality, limits: Limits,
                                              room: S, acts: seq<Act>)
    ensures RunSys(apply, neutral, limits, room, acts).missed != [] <==>
      exists i :: 0 <= i < |acts| && MissesAt(apply, neutral, limits, room, acts, i)
  {
    if acts != [] {
      var n := |acts| - 1;
      var init := acts[..n];
      MissedIff(apply, neutral, limits, room, init);
      MissedStep(apply, neutral, limits, RunSys(apply, neutral, limits, room, init), acts[n]);
      assert MissesAt(apply, neutral, limits, room, acts, n) ==
        Misses(neutral, RunSys(apply, neutral, limits, room, init), acts[n]);
      forall i | 0 <= i < n
        ensures MissesAt(apply, neutral, limits, room, acts, i) == MissesAt(apply, neutral, limits, room, init, i)
      {
        MissesAtPrefix(apply, neutral, limits, room, acts, n, i);
      }
    }
  }

  lemma MissesAtPrefix<S(!new)>(apply: Apply<S>, neutral: Neutrality, limits: Limits, room: S,
                                acts: seq<Act>, n: nat, i: nat)
    requires i < n <= |acts|
    ensures MissesAt(apply, neutral, limits, room, acts[..n], i) == MissesAt(apply, neutral, limits, room, acts, i)
  {
    assert acts[..n][..i] == acts[..i];
  }

  lemma MissedStep<S(!new)>(apply: Apply<S>, neutral: Neutrality, limits: Limits, s: Sys<S>, a: Act)
    ensures Do(apply, neutral, limits, s, a).missed == [] <==> s.missed == [] && !Misses(neutral, s, a)
  {
  }

  // ---- Two runs that diverge ----

  const SELECTING := 0
  const WAITING := 1
  const PLAYING := 2

  /** A room reduced to its phase, which only a change of state touches. */
  function PhaseAfter(phase: int, c: Command): int { if c.kind == ChangeState then c.body else phase }

  predicate KeepsPhase(c: Command) { c.kind != ChangeState }

  function ToPhase(phase: nat): Command { Command(ChangeState, phase, 0) }

  ghost function PhaseRun(limits: Limits, acts: seq<Act>): Sys<int> {
    RunSys(PhaseAfter, KeepsPhase, limits, WAITING, acts)
  }

  lemma StepsAppend(limits: Limits, acts: seq<Act>, a: Act) returns (more: seq<Act>)
    ensures more == acts + [a]
    ensures PhaseRun(limits, more) == Do(PhaseAfter, KeepsPhase, limits, PhaseRun(limits, acts), a)
  {
    more := acts + [a];
    assert more[..|acts|] == acts;
  }

  /** The first two steps of every authentication. */
  lemma CutOver(limits: Limits) returns (acts: seq<Act>)
    ensures PhaseRun(limits, acts) == Start(WAITING).(snapshot := Some((0, WAITING)), cutoverDone := true)
  {
    acts := StepsAppend(limits, [], TakeSnapshot);
    acts := StepsAppend(limits, acts, SetCutover);
  }

  /** What follows the cutover: binding, sender, activation. */
  lemma BindAndActivate(limits: Limits, before: seq<Act>) returns (acts: seq<Act>)
    requires var s := PhaseRun(limits, before);
      && s.cutoverDone && s.queue == [] && s.received == [] && !s.lossy
      && s.task.gate.events == [] && !s.task.gate.overflowed && s.task.wire.sent == []
    ensures var s, s' := PhaseRun(limits, before), PhaseRun(limits, acts);
      s' == s.(subscribed := true, task := s'.task) && Open(s'.task) && s'.task.wire.sent == []
  {
    acts := StepsAppend(limits, before, Subscribe);
    acts := StepsAppend(limits, acts, MakeReady);
    acts := StepsAppend(limits, acts, RequestActivation);
    var s := PhaseRun(limits, acts);
    acts := StepsAppend(limits, acts, ConsumeNext);
    ActivationSends(limits, s.task);
    NewlySentIs(s.task, PhaseRun(limits, acts).task, []);
  }

  lemma GameStarts()
    ensures Fold(PhaseAfter, WAITING, [ToPhase(PLAYING)]) == PLAYING
    ensures Changes(KeepsPhase, [ToPhase(PLAYING)]) == [ToPhase(PLAYING)]
    ensures Enabled(KeepsPhase, Start(WAITING), RoomChange([ToPhase(PLAYING)]))
    ensures Stamped([ToPhase(PLAYING)], 1) == [Packet(Push(ToPhase(PLAYING), Some(1)))]
  {
    var start := ToPhase(PLAYING);
    ChangesOne(KeepsPhase, start);
    assert [start][..0] == [] && Fold(PhaseAfter, WAITING, [start][..0]) == WAITING;
  }

  /** The room changes between its snapshot and the binding of the session: the client never learns of it. */
  lemma ChangeBeforeBindingIsMissed(limits: Limits) returns (acts: seq<Act>)
    ensures var s := PhaseRun(limits, acts);
      && s.task.active && s.queue == [] && !s.lossy && s.snapshot == Some((0, WAITING)) && s.missed != []
      && s.room == PLAYING && Fold(PhaseAfter, WAITING, Sent(s.task.wire.sent)) == WAITING
  {
    acts := CutOver(limits);
    GameStarts();
    acts := StepsAppend(limits, acts, RoomChange([ToPhase(PLAYING)]));
    acts := BindAndActivate(limits, acts);
  }

  /** A session that reconnects to a quiet room. */
  lemma Reconnected(limits: Limits) returns (acts: seq<Act>)
    ensures var s := PhaseRun(limits, acts);
      && s.room == WAITING && s.roomSeq == 0 && s.snapshot == Some((0, WAITING)) && s.subscribed && s.missed == []
      && s.queue == [] && s.received == [] && !s.lossy && Open(s.task) && s.task.wire.sent == []
  {
    acts := CutOver(limits);
    acts := BindAndActivate(limits, acts);
  }

  lemma StartQueued(limits: Limits) returns (acts: seq<Act>)
    ensures var s := PhaseRun(limits, acts);
      && s.room == PLAYING && s.snapshot == Some((0, WAITING)) && s.missed == [] && !s.lossy && Open(s.task)
      && s.queue == [Packet(Push(ToPhase(PLAYING), Some(1))),
                     PostResponse([Compensation(StateFix, ToPhase(WAITING), true)])]
      && s.received == [] && s.task.wire.sent == []
  {
    acts := Reconnected(limits);
    var s, start, fix := PhaseRun(limits, acts), ToPhase(PLAYING), Compensation(StateFix, ToPhase(WAITING), true);
    GameStarts();
    acts := StepsAppend(limits, acts, RoomChange([start]));
    assert PhaseRun(limits, acts) == Change(PhaseAfter, KeepsPhase, s, [start]);
    assert PhaseRun(limits, acts).queue == [Packet(Push(start, Some(1)))];
    acts := StepsAppend(limits, acts, Compensate([fix]));
  }

  /** The start of the game is delivered; the repair, queued behind it, is not yet. */
  lemma StartDelivered(limits: Limits) returns (acts: seq<Act>)
    ensures var s := PhaseRun(limits, acts);
      && s.room == PLAYING && s.snapshot == Some((0, WAITING)) && s.missed == [] && !s.lossy && Open(s.task)
      && s.queue == [PostResponse([Compensation(StateFix, ToPhase(WAITING), true)])]
      && s.received == [Delivered(ToPhase(PLAYING), true)] && Sent(s.task.wire.sent) == [ToPhase(PLAYING)]
  {
    acts := StartQueued(limits);
    var s, start := PhaseRun(limits, acts), ToPhase(PLAYING);
    acts := StepsAppend(limits, acts, ConsumeNext);
    PassSends(limits, s.task, Push(start, Some(1)));
    NewlySentIs(s.task, PhaseRun(limits, acts).task, [start]);
    assert Tagged([start], true) == [Delivered(start, true)];
  }

  lemma BatchOfOne(c: Compensation)
    ensures Sent(BatchFrames([c])) == if c.current then [c.cmd] else []
  {
    var batch := [c];
    assert batch[..0] == [] && batch[1..] == [];
    assert Sort(KindRank, batch[..0]) == [] && InOrder(batch) == [c];
    assert FramesOf(batch[1..]) == [];
  }

  lemma StartThenRepair()
    ensures var start, repair := ToPhase(PLAYING), ToPhase(WAITING);
      && EndsWithFix(PhaseAfter, SELECTING, WAITING, [Delivered(start, true), Delivered(repair, false)])
      && Fold(PhaseAfter, SELECTING, [start, repair]) == WAITING
  {
    var start, repair := ToPhase(PLAYING), ToPhase(WAITING);
    var received := [Delivered(start, true), Delivered(repair, false)];
    assert received[..1] == [Delivered(start, true)];
    forall cmds ensures RestoresAfter(PhaseAfter, SELECTING, WAITING, repair, cmds) {}
    assert [start, repair][..1] == [start];
  }

  /** The client was shown chart selection instead of waiting; the start of the game and then the repair are
      queued for it. The repair is harmless where it was captured but not where it arrives: the client ends
      waiting in a room that is playing. */
  lemma StaleFixDiverges(limits: Limits) returns (acts: seq<Act>)
    ensures var s := PhaseRun(limits, acts);
      && CaughtUp(s) && EndsWithFix(PhaseAfter, SELECTING, WAITING, s.received)
      && s.room == PLAYING && Fold(PhaseAfter, SELECTING, Sent(s.task.wire.sent)) == WAITING
  {
    acts := StartDelivered(limits);
    var s, repair := PhaseRun(limits, acts), ToPhase(WAITING);
    acts := StepsAppend(limits, acts, ConsumeNext);
    DirectSends(limits, s.task, s.queue[0]);
    BatchOfOne(Compensation(StateFix, repair, true));
    NewlySentIs(s.task, PhaseRun(limits, acts).task, [repair]);
    StartThenRepair();
    assert Tagged([repair], false) == [Delivered(repair, false)];
    assert PhaseRun(limits, acts).received == s.received + [Delivered(repair, false)];
  }
}
