/** A session's mailbox: clients enqueue commands under a deadline, one worker checks each origin, refuses
    late commands and runs the handlers, and every route ends as not enqueued, completed or uncertain. */
module Mailbox {
  import opened Options

  const CAPACITY := 64

  type CommandId = nat
  type Instant = nat

  datatype Response = Success(value: nat) | Error(reason: string)
  type Reply = Option<Response>

  const TIMED_OUT: Reply := Some(Error("session command timed out"))
  const NOT_ENQUEUED: Reply := Some(Error("session command could not be enqueued"))
  const UNCERTAIN: Reply := Some(Error("session command outcome uncertain"))

  datatype RouteResult = NotEnqueued | Completed(reply: Reply) | Uncertain

  function ClassifyMailboxFailure(enqueued: bool, replyOk: bool): RouteResult {
    if !enqueued then NotEnqueued else if replyOk then Completed(None) else Uncertain
  }

  /** What the client is answered; nothing when the command never got in and its session was replaced. */
  function TranslateRouteResult(originCurrent: bool, result: RouteResult): Reply {
    match result
    case Completed(reply) => reply
    case NotEnqueued => if originCurrent then NOT_ENQUEUED else None
    case Uncertain => UNCERTAIN
  }

  datatype Phase = Enqueueing | Awaiting | Routed(result: RouteResult) | Answered(result: RouteResult, answer: Reply)

  /** The one-shot reply channel. */
  datatype Slot = Empty | Full(reply: Reply) | Dropped

  /** `checked`, `startedAt`, `finished` and `aborted` record the origin check, the handler's start, its
      result, and whether the response deadline cut it off. */
  datatype Job = Job(
    deadline: Instant, commit: Instant, phase: Phase, slot: Slot,
    checked: bool, startedAt: Option<Instant>, finished: Option<Reply>, aborted: bool)

  datatype Worker =
    | Idle
    | Popped(c: CommandId)
    | Checked(c: CommandId)
    | Running(c: CommandId)
    | Closing(c: CommandId)
    | Stopped

  /** `current`: the origin still is its user's bound session. `alive`: its session object exists.
      `enqueued`, `taken` and `starts` record the enqueue order, how many the worker took, and the starts. */
  datatype Sys = Sys(
    now: Instant, current: bool, alive: bool, closed: bool, worker: Worker, queue: seq<CommandId>,
    jobs: map<CommandId, Job>, enqueued: seq<CommandId>, taken: nat, starts: seq<CommandId>)

  const INITIAL := Sys(0, true, true, false, Idle, [], map[], [], 0, [])

  datatype Act =
    | Tick(elapsed: nat)
    | ChangeCurrent(current: bool)
    | DropSession
    | Issue(c: CommandId, deadline: Instant, commit: Instant, hasMailbox: bool)
    | Send(c: CommandId)
    | SendFails(c: CommandId)
    | Receive(c: CommandId)
    | ReplyLost(c: CommandId)
    | ReplyTimesOut(c: CommandId)
    | Answer(c: CommandId)
    | Take
    | CheckOrigin
    | Start
    | Finish(result: Reply)
    | Expire
    | ReplyExpired

  predicate InPhase(sys: Sys, c: CommandId, phase: Phase) { c in sys.jobs && sys.jobs[c].phase == phase }

  predicate Enabled(sys: Sys, a: Act) {
    match a
    case Tick(_) => true
    case ChangeCurrent(_) => true
    case DropSession => true
    case Issue(c, _, _, _) => c !in sys.jobs
    case Send(c) => InPhase(sys, c, Enqueueing) && sys.worker != Stopped && |sys.queue| < CAPACITY
    case SendFails(c) => InPhase(sys, c, Enqueueing) && (sys.worker == Stopped || sys.now >= sys.jobs[c].deadline)
    case Receive(c) => InPhase(sys, c, Awaiting) && sys.jobs[c].slot.Full?
    case ReplyLost(c) => InPhase(sys, c, Awaiting) && sys.jobs[c].slot.Dropped?
    case ReplyTimesOut(c) => InPhase(sys, c, Awaiting) && sys.now >= sys.jobs[c].deadline
    case Answer(c) => c in sys.jobs && sys.jobs[c].phase.Routed?
    case Take => sys.worker == Idle && sys.queue != []
    case CheckOrigin => sys.worker.Popped? && sys.worker.c in sys.jobs
    case Start => sys.worker.Checked? && sys.worker.c in sys.jobs
    case Finish(_) => sys.worker.Running? && sys.worker.c in sys.jobs
    case Expire => sys.worker.Running? && sys.worker.c in sys.jobs && sys.now >= sys.jobs[sys.worker.c].deadline
    case ReplyExpired => sys.worker.Closing? && sys.worker.c in sys.jobs
  }

  function Put(sys: Sys, c: CommandId, r: Job): Sys { sys.(jobs := sys.jobs[c := r]) }

  function SetPhase(sys: Sys, c: CommandId, phase: Phase): Sys
    requires c in sys.jobs
  {
    Put(sys, c, sys.jobs[c].(phase := phase))
  }

  /** Dropping the receiver drops every queued command and with it that command's reply sender. */
  function DropReplies(jobs: map<CommandId, Job>, ids: seq<CommandId>): map<CommandId, Job> {
    map c | c in jobs :: if c in ids then jobs[c].(slot := Dropped) else jobs[c]
  }

  /** A dropped session has no transport left to close. */
  function CloseUncertain(sys: Sys): Sys { sys.(closed := sys.closed || sys.alive) }

  function Stop(sys: Sys, c: CommandId): Sys {
    sys.(worker := Stopped, queue := [], jobs := DropReplies(sys.jobs, [c] + sys.queue))
  }

  function Pop(sys: Sys): Sys
    requires sys.queue != []
  {
    sys.(worker := Popped(sys.queue[0]), queue := sys.queue[1..], taken := sys.taken + 1)
  }

  function CheckOrStop(sys: Sys, c: CommandId): Sys
    requires c in sys.jobs
  {
    if sys.alive && sys.current then sys.(jobs := sys.jobs[c := sys.jobs[c].(checked := true)], worker := Checked(c))
    else Stop(sys, c)
  }

  function StartOrRefuse(sys: Sys, c: CommandId): Sys
    requires c in sys.jobs
  {
    var r := sys.jobs[c];
    if sys.now > r.commit then ReplyTimedOut(sys, c)
    else sys.(jobs := sys.jobs[c := r.(startedAt := Some(sys.now))], worker := Running(c), starts := sys.starts + [c])
  }

  function FinishWith(sys: Sys, c: CommandId, result: Reply): Sys
    requires c in sys.jobs
  {
    sys.(jobs := sys.jobs[c := sys.jobs[c].(slot := Full(result), finished := Some(result))], worker := Idle)
  }

  function AbortHandler(sys: Sys, c: CommandId): Sys
    requires c in sys.jobs
  {
    sys.(jobs := sys.jobs[c := sys.jobs[c].(aborted := true)], worker := Closing(c), closed := sys.closed || sys.alive)
  }

  function ReplyTimedOut(sys: Sys, c: CommandId): Sys
    requires c in sys.jobs
  {
    sys.(jobs := sys.jobs[c := sys.jobs[c].(slot := Full(TIMED_OUT))], worker := Idle)
  }

  function Do(sys: Sys, a: Act): Sys {
    if !Enabled(sys, a) then sys else
    match a
    case Tick(elapsed) => Later(sys, elapsed)
    case ChangeCurrent(current) => sys.(current := current)
    case DropSession => sys.(alive := false, closed := true)
    case Issue(c, deadline, commit, hasMailbox) =>
      var phase := if sys.alive && hasMailbox then Enqueueing else Routed(ClassifyMailboxFailure(false, false));
      Put(sys, c, Job(deadline, commit, phase, Empty, false, None, None, false))
    case Send(c) => SetPhase(sys, c, Awaiting).(queue := sys.queue + [c], enqueued := sys.enqueued + [c])
    case SendFails(c) => SetPhase(sys, c, Routed(ClassifyMailboxFailure(false, false)))
    case Receive(c) => SetPhase(sys, c, Routed(Completed(sys.jobs[c].slot.reply)))
    case ReplyLost(c) => SetPhase(CloseUncertain(sys), c, Routed(ClassifyMailboxFailure(true, false)))
    case ReplyTimesOut(c) => SetPhase(CloseUncertain(sys), c, Routed(ClassifyMailboxFailure(true, false)))
    case Answer(c) =>
      var result := sys.jobs[c].phase.result;
      SetPhase(sys, c, Answered(result, TranslateRouteResult(sys.current, result)))
    case Take => Pop(sys)
    case CheckOrigin => CheckOrStop(sys, sys.worker.c)
    case Start => StartOrRefuse(sys, sys.worker.c)
    case Finish(result) => FinishWith(sys, sys.worker.c, result)
    case Expire => AbortHandler(sys, sys.worker.c)
    case ReplyExpired => ReplyTimedOut(sys, sys.worker.c)
  }

  function Steps(sys: Sys, acts: seq<Act>): Sys {
    if acts == [] then sys else Do(Steps(sys, acts[..|acts| - 1]), acts[|acts| - 1])
  }

  // ---- what holds of each command -------------------------------------------------------------------

  /** Taken by the worker and not yet decided: neither started nor answered. */
  predicate InHand(w: Worker, c: CommandId) { w == Popped(c) || w == Checked(c) }

  predicate Waiting(sys: Sys, c: CommandId) { c in sys.queue || InHand(sys.worker, c) }

  predicate Executing(w: Worker, c: CommandId) { w == Running(c) }

  /** The handler never ran, or it ran to completion and this is what it returned. */
  predicate Honest(r: Job, reply: Reply) {
    || (r.startedAt.None? && reply == TIMED_OUT)
    || (r.startedAt.Some? && r.finished == Some(reply))
  }

  predicate GotIn(r: Job) {
    match r.phase
    case Enqueueing => false
    case Awaiting => true
    case Routed(result) => result != NotEnqueued
    case Answered(result, _) => result != NotEnqueued
  }

  predicate ResultOk(sys: Sys, r: Job, result: RouteResult) {
    match result
    case NotEnqueued => true
    case Completed(reply) => r.slot == Full(reply)
    case Uncertain => sys.closed
  }

  predicate PhaseOk(sys: Sys, r: Job) {
    match r.phase
    case Enqueueing => r.slot == Empty
    case Awaiting => true
    case Routed(result) => ResultOk(sys, r, result)
    case Answered(result, answer) =>
      && ResultOk(sys, r, result)
      && ((answer == None && result == NotEnqueued) || answer == TranslateRouteResult(true, result))
  }

  predicate ProgressOk(sys: Sys, c: CommandId, r: Job) {
    && (r.startedAt.Some? ==> r.checked && r.startedAt.value <= r.commit && c in sys.enqueued && !Waiting(sys, c))
    && (r.finished.Some? ==> r.startedAt.Some?)
    && (r.startedAt.Some? && r.finished.None? ==> Executing(sys.worker, c) || r.aborted)
    && (r.aborted ==> sys.closed && r.startedAt.Some? && r.finished.None?)
    && (Executing(sys.worker, c) ==> r.startedAt.Some? && r.finished.None? && !r.aborted && r.slot == Empty)
    && (sys.worker == Closing(c) ==> r.aborted && r.slot == Empty)
    && (sys.worker == Checked(c) ==> r.checked)
  }

  predicate SlotOk(sys: Sys, c: CommandId, r: Job) {
    && (Waiting(sys, c) ==> r.slot == Empty)
    && (r.slot.Full? ==> sys.closed || Honest(r, r.slot.reply))
    && (r.slot != Empty ==> c in sys.enqueued)
  }

  predicate JobOk(sys: Sys, c: CommandId, r: Job) {
    && (c in sys.enqueued <==> GotIn(r))
    && PhaseOk(sys, r)
    && ProgressOk(sys, c, r)
    && SlotOk(sys, c, r)
  }

  // ---- what holds of the queue and the worker -------------------------------------------------------

  predicate NoDuplicates(s: seq<CommandId>) {
    forall i, j :: 0 <= i < j < |s| ==> s[i] != s[j]
  }

  /** The queue is the part of the enqueue order the worker has not taken. */
  predicate QueueOk(sys: Sys) {
    && NoDuplicates(sys.enqueued)
    && sys.taken <= |sys.enqueued|
    && (if sys.worker == Stopped then sys.queue == [] else sys.queue == sys.enqueued[sys.taken..])
    && (sys.worker != Idle && sys.worker != Stopped ==> sys.taken > 0 && sys.worker.c == sys.enqueued[sys.taken - 1])
    && (!sys.alive ==> sys.closed)
    && forall c :: c in sys.enqueued ==> c in sys.jobs
  }

  predicate JobsOk(sys: Sys) { forall c :: c in sys.jobs ==> JobOk(sys, c, sys.jobs[c]) }

  predicate Ok(sys: Sys) { QueueOk(sys) && JobsOk(sys) }

  lemma SendKeepsQueueOk(sys: Sys, c: CommandId)
    requires Ok(sys) && Enabled(sys, Send(c))
    ensures QueueOk(Do(sys, Send(c)))
  {
    assert c !in sys.enqueued;
  }

  lemma TakeKeepsQueueOk(sys: Sys)
    requires QueueOk(sys) && Enabled(sys, Take)
    ensures QueueOk(Do(sys, Take))
  {}

  lemma DoKeepsQueueOk(sys: Sys, a: Act)
    requires Ok(sys)
    ensures QueueOk(Do(sys, a))
  {
    if a.Send? && Enabled(sys, a) { SendKeepsQueueOk(sys, a.c); }
    if a.Take? && Enabled(sys, a) { TakeKeepsQueueOk(sys); }
  }

  /** What the worker holds was enqueued and is no longer queued. */
  predicate HeldOk(sys: Sys) {
    sys.worker != Idle && sys.worker != Stopped ==> sys.worker.c in sys.enqueued && sys.worker.c !in sys.queue
  }

  lemma QueueOkHeldOk(sys: Sys)
    requires QueueOk(sys)
    ensures HeldOk(sys)
    ensures forall c :: c in sys.queue ==> c in sys.enqueued
    ensures sys.queue != [] && sys.worker != Stopped ==> sys.queue[0] !in sys.queue[1..]
  {}

  lemma RouteStepKeepsJobOk(sys: Sys, a: Act, c: CommandId)
    requires Ok(sys) && c in Do(sys, a).jobs
    requires a.Issue? || a.Send? || a.SendFails? || a.Receive?
    ensures JobOk(Do(sys, a), c, Do(sys, a).jobs[c])
  {
    if c in sys.jobs { assert JobOk(sys, c, sys.jobs[c]); }
  }

  lemma CloseStepKeepsJobOk(sys: Sys, a: Act, c: CommandId)
    requires c in sys.jobs && JobOk(sys, c, sys.jobs[c]) && (!sys.alive ==> sys.closed)
    requires a.Tick? || a.ChangeCurrent? || a.DropSession? || a.ReplyLost? || a.ReplyTimesOut? || a.Answer?
    ensures JobOk(Do(sys, a), c, Do(sys, a).jobs[c])
  {}

  lemma TakeKeepsJobOk(sys: Sys, c: CommandId)
    requires c in sys.jobs && JobOk(sys, c, sys.jobs[c]) && Enabled(sys, Take)
    requires sys.queue[0] !in sys.queue[1..] && sys.queue[0] in sys.enqueued
    ensures JobOk(Do(sys, Take), c, Do(sys, Take).jobs[c])
  {
    assert c in sys.queue <==> c == sys.queue[0] || c in sys.queue[1..];
  }

  lemma CheckKeepsJobOk(sys: Sys, c: CommandId)
    requires c in sys.jobs && JobOk(sys, c, sys.jobs[c]) && HeldOk(sys)
    requires forall d :: d in sys.queue ==> d in sys.enqueued
    ensures JobOk(Do(sys, CheckOrigin), c, Do(sys, CheckOrigin).jobs[c])
  {}

  predicate Holds(w: Worker, c: CommandId) { w != Idle && w != Stopped && w.c == c }

  lemma UntouchedJobOk(sys: Sys, next: Sys, c: CommandId, r: Job)
    requires JobOk(sys, c, r) && !Holds(sys.worker, c) && !Holds(next.worker, c)
    requires next.enqueued == sys.enqueued && next.queue == sys.queue && next.closed == sys.closed
    ensures JobOk(next, c, r)
  {}

  lemma StartKeepsJobOk(sys: Sys, c: CommandId)
    requires c in sys.jobs && JobOk(sys, c, sys.jobs[c]) && HeldOk(sys)
    ensures JobOk(Do(sys, Start), c, Do(sys, Start).jobs[c])
  {
    if Enabled(sys, Start) && c != sys.worker.c { UntouchedJobOk(sys, Do(sys, Start), c, sys.jobs[c]); }
  }

  lemma FinishKeepsJobOk(sys: Sys, a: Act, c: CommandId)
    requires c in sys.jobs && JobOk(sys, c, sys.jobs[c]) && HeldOk(sys)
    requires a.Finish? || a.ReplyExpired?
    ensures JobOk(Do(sys, a), c, Do(sys, a).jobs[c])
  {}

  lemma ExpireKeepsJobOk(sys: Sys, c: CommandId)
    requires c in sys.jobs && JobOk(sys, c, sys.jobs[c]) && HeldOk(sys) && (!sys.alive ==> sys.closed)
    ensures JobOk(Do(sys, Expire), c, Do(sys, Expire).jobs[c])
  {}

  lemma WorkerStepKeepsJobOk(sys: Sys, a: Act, c: CommandId)
    requires Ok(sys) && c in sys.jobs
    requires a.Take? || a.CheckOrigin? || a.Start? || a.Finish? || a.Expire? || a.ReplyExpired?
    ensures JobOk(Do(sys, a), c, Do(sys, a).jobs[c])
  {
    QueueOkHeldOk(sys);
    match a
    case Take => if Enabled(sys, a) { TakeKeepsJobOk(sys, c); }
    case CheckOrigin => CheckKeepsJobOk(sys, c);
    case Start => StartKeepsJobOk(sys, c);
    case Expire => ExpireKeepsJobOk(sys, c);
    case _ => FinishKeepsJobOk(sys, a, c);
  }

  lemma DoKeepsJobOk(sys: Sys, a: Act, c: CommandId)
    requires Ok(sys) && c in Do(sys, a).jobs
    ensures JobOk(Do(sys, a), c, Do(sys, a).jobs[c])
  {
    if a.Issue? || a.Send? || a.SendFails? || a.Receive? {
      RouteStepKeepsJobOk(sys, a, c);
    } else if a.Take? || a.CheckOrigin? || a.Start? || a.Finish? || a.Expire? || a.ReplyExpired? {
      WorkerStepKeepsJobOk(sys, a, c);
    } else {
      CloseStepKeepsJobOk(sys, a, c);
    }
  }

  lemma DoKeepsOk(sys: Sys, a: Act)
    requires Ok(sys)
    ensures Ok(Do(sys, a))
  {
    DoKeepsQueueOk(sys, a);
    forall c | c in Do(sys, a).jobs ensures JobOk(Do(sys, a), c, Do(sys, a).jobs[c]) {
      DoKeepsJobOk(sys, a, c);
    }
  }

  lemma {:induction false} StepsOk(acts: seq<Act>)
    ensures Ok(Steps(INITIAL, acts))
  {
    if acts != [] {
      var init := acts[..|acts| - 1];
      StepsOk(init);
      DoKeepsOk(Steps(INITIAL, init), acts[|acts| - 1]);
    }
  }

  // ---- starts follow the enqueue order --------------------------------------------------------------

  predicate HasStarted(jobs: map<CommandId, Job>, c: CommandId) { c in jobs && jobs[c].startedAt.Some? }

  function Started(jobs: map<CommandId, Job>, ids: seq<CommandId>): seq<CommandId> {
    if ids == [] then []
    else
      var rest := Started(jobs, ids[..|ids| - 1]);
      if HasStarted(jobs, ids[|ids| - 1]) then rest + [ids[|ids| - 1]] else rest
  }

  lemma {:induction false} StartedSame(before: map<CommandId, Job>, after: map<CommandId, Job>, ids: seq<CommandId>)
    requires forall c :: c in ids ==> HasStarted(before, c) == HasStarted(after, c)
    ensures Started(after, ids) == Started(before, ids)
  {
    if ids != [] { StartedSame(before, after, ids[..|ids| - 1]); }
  }

  lemma {:induction false} StartedNone(jobs: map<CommandId, Job>, ids: seq<CommandId>, more: seq<CommandId>)
    requires forall c :: c in more ==> !HasStarted(jobs, c)
    ensures Started(jobs, ids + more) == Started(jobs, ids)
  {
    if more == [] {
      assert ids + more == ids;
    } else {
      var init := more[..|more| - 1];
      StartedNone(jobs, ids, init);
      assert (ids + more)[..|ids + more| - 1] == ids + init;
    }
  }

  /** The next command to start comes after every started command in the enqueue order. */
  lemma StartedNext(before: map<CommandId, Job>, after: map<CommandId, Job>,
                    head: seq<CommandId>, c: CommandId, tail: seq<CommandId>)
    requires c !in head && c !in tail && !HasStarted(before, c) && HasStarted(after, c)
    requires forall d :: d in tail ==> !HasStarted(before, d)
    requires forall d :: d != c ==> HasStarted(after, d) == HasStarted(before, d)
    ensures Started(after, head + [c] + tail) == Started(before, head + [c] + tail) + [c]
  {
    StartedNone(after, head + [c], tail);
    StartedNone(before, head + [c], tail);
    StartedNone(before, head, [c]);
    StartedSame(before, after, head);
    assert (head + [c])[..|head|] == head;
  }

  lemma OtherStepsStartNothing(sys: Sys, a: Act, c: CommandId)
    requires !a.Start?
    ensures HasStarted(Do(sys, a).jobs, c) == HasStarted(sys.jobs, c)
  {}

  lemma OtherStepsKeepLogs(sys: Sys, a: Act)
    requires !a.Start? && !a.Send?
    ensures Do(sys, a).starts == sys.starts && Do(sys, a).enqueued == sys.enqueued
  {}

  lemma SendKeepsStartOrder(sys: Sys, c: CommandId)
    requires Ok(sys) && sys.starts == Started(sys.jobs, sys.enqueued) && Enabled(sys, Send(c))
    ensures Do(sys, Send(c)).starts == Started(Do(sys, Send(c)).jobs, Do(sys, Send(c)).enqueued)
  {
    assert JobOk(sys, c, sys.jobs[c]);
    var jobs := Do(sys, Send(c)).jobs;
    forall d | d in sys.enqueued ensures HasStarted(sys.jobs, d) == HasStarted(jobs, d) {
      OtherStepsStartNothing(sys, Send(c), d);
    }
    StartedSame(sys.jobs, jobs, sys.enqueued);
    StartedNone(jobs, sys.enqueued, [c]);
  }

  lemma SplitAtWorker(sys: Sys) returns (head: seq<CommandId>, tail: seq<CommandId>)
    requires Ok(sys) && sys.worker.Checked?
    ensures sys.enqueued == head + [sys.worker.c] + tail
    ensures sys.worker.c !in head && sys.worker.c !in tail && !HasStarted(sys.jobs, sys.worker.c)
    ensures forall d :: d in tail ==> !HasStarted(sys.jobs, d)
  {
    head, tail := sys.enqueued[..sys.taken - 1], sys.enqueued[sys.taken..];
    assert JobOk(sys, sys.worker.c, sys.jobs[sys.worker.c]);
    forall d | d in tail ensures !HasStarted(sys.jobs, d) {
      assert JobOk(sys, d, sys.jobs[d]);
    }
  }

  lemma StartSplitsInTwo(sys: Sys)
    requires Enabled(sys, Start)
    ensures var c, r, next := sys.worker.c, sys.jobs[sys.worker.c], Do(sys, Start);
      && next.enqueued == sys.enqueued
      && next.starts == (if sys.now > r.commit then sys.starts else sys.starts + [c])
      && (HasStarted(next.jobs, c) <==> sys.now <= r.commit || HasStarted(sys.jobs, c))
      && forall d :: d != c ==> HasStarted(next.jobs, d) == HasStarted(sys.jobs, d)
  {}

  lemma StartKeepsStartOrder(sys: Sys)
    requires Ok(sys) && sys.starts == Started(sys.jobs, sys.enqueued) && Enabled(sys, Start)
    ensures Do(sys, Start).starts == Started(Do(sys, Start).jobs, Do(sys, Start).enqueued)
  {
    var head, tail := SplitAtWorker(sys);
    StartSplitsInTwo(sys);
    if sys.now > sys.jobs[sys.worker.c].commit {
      StartedSame(sys.jobs, Do(sys, Start).jobs, sys.enqueued);
    } else {
      StartedNext(sys.jobs, Do(sys, Start).jobs, head, sys.worker.c, tail);
    }
  }

  lemma DoKeepsStartOrder(sys: Sys, a: Act)
    requires Ok(sys) && sys.starts == Started(sys.jobs, sys.enqueued)
    ensures Do(sys, a).starts == Started(Do(sys, a).jobs, Do(sys, a).enqueued)
  {
    if !Enabled(sys, a) {
    } else if a.Send? {
      SendKeepsStartOrder(sys, a.c);
    } else if a.Start? {
      StartKeepsStartOrder(sys);
    } else {
      OtherStepsKeepLogs(sys, a);
      forall c | c in sys.enqueued ensures HasStarted(sys.jobs, c) == HasStarted(Do(sys, a).jobs, c) {
        OtherStepsStartNothing(sys, a, c);
      }
      StartedSame(sys.jobs, Do(sys, a).jobs, sys.enqueued);
    }
  }

  lemma {:induction false} StartedHasNoDuplicates(jobs: map<CommandId, Job>, ids: seq<CommandId>)
    requires NoDuplicates(ids)
    ensures NoDuplicates(Started(jobs, ids))
    ensures forall c :: c in Started(jobs, ids) <==> c in ids && HasStarted(jobs, c)
  {
    if ids != [] {
      assert ids == ids[..|ids| - 1] + [ids[|ids| - 1]];
      StartedHasNoDuplicates(jobs, ids[..|ids| - 1]);
    }
  }

  /** In every run the handler starts are the enqueued commands in enqueue order, some left out and none
      repeated. */
  lemma {:induction false} StartsFollowEnqueueOrder(acts: seq<Act>)
    ensures var sys := Steps(INITIAL, acts);
      && sys.starts == Started(sys.jobs, sys.enqueued)
      && NoDuplicates(sys.starts)
      && NoDuplicates(sys.enqueued)
  {
    if acts != [] {
      var init := acts[..|acts| - 1];
      StartsFollowEnqueueOrder(init);
      StepsOk(init);
      DoKeepsStartOrder(Steps(INITIAL, init), acts[|acts| - 1]);
    }
    StepsOk(acts);
    StartedHasNoDuplicates(Steps(INITIAL, acts).jobs, Steps(INITIAL, acts).enqueued);
  }

  // ---- every start was earned -----------------------------------------------------------------------

  predicate PassesCheck(sys: Sys, a: Act, c: CommandId) {
    a == CheckOrigin && sys.worker == Popped(c) && sys.alive && sys.current
  }

  ghost predicate WasChecked(acts: seq<Act>, c: CommandId) {
    exists i :: 0 <= i < |acts| && PassesCheck(Steps(INITIAL, acts[..i]), acts[i], c)
  }

  lemma WasCheckedGrows(acts: seq<Act>, c: CommandId)
    requires acts != [] && WasChecked(acts[..|acts| - 1], c)
    ensures WasChecked(acts, c)
  {
    var init := acts[..|acts| - 1];
    var i :| 0 <= i < |init| && PassesCheck(Steps(INITIAL, init[..i]), init[i], c);
    assert acts[..i] == init[..i] && acts[i] == init[i];
  }

  lemma CheckedHere(sys: Sys, a: Act, c: CommandId)
    requires c in Do(sys, a).jobs && Do(sys, a).jobs[c].checked
    ensures (c in sys.jobs && sys.jobs[c].checked) || PassesCheck(sys, a, c)
  {}

  lemma {:induction false} CheckedMeansWasChecked(acts: seq<Act>, c: CommandId)
    requires c in Steps(INITIAL, acts).jobs && Steps(INITIAL, acts).jobs[c].checked
    ensures WasChecked(acts, c)
  {
    if acts != [] {
      var n := |acts| - 1;
      var sys := Steps(INITIAL, acts[..n]);
      CheckedHere(sys, acts[n], c);
      if c in sys.jobs && sys.jobs[c].checked {
        CheckedMeansWasChecked(acts[..n], c);
        WasCheckedGrows(acts, c);
      }
    }
  }

  /** No handler starts after its commit deadline, or before its origin was found alive and current. */
  lemma StartsAreEarned(acts: seq<Act>, c: CommandId)
    requires HasStarted(Steps(INITIAL, acts).jobs, c)
    ensures WasChecked(acts, c)
    ensures Steps(INITIAL, acts).jobs[c].startedAt.value <= Steps(INITIAL, acts).jobs[c].commit
  {
    StepsOk(acts);
    assert JobOk(Steps(INITIAL, acts), c, Steps(INITIAL, acts).jobs[c]);
    CheckedMeansWasChecked(acts, c);
  }

  predicate InProgress(jobs: map<CommandId, Job>, c: CommandId) {
    HasStarted(jobs, c) && jobs[c].finished.None? && !jobs[c].aborted
  }

  /** Never two handlers at once. */
  lemma OneHandlerAtATime(acts: seq<Act>, c: CommandId, d: CommandId)
    requires InProgress(Steps(INITIAL, acts).jobs, c) && InProgress(Steps(INITIAL, acts).jobs, d)
    ensures c == d
  {
    StepsOk(acts);
    var sys := Steps(INITIAL, acts);
    assert JobOk(sys, c, sys.jobs[c]) && JobOk(sys, d, sys.jobs[d]);
  }

  /** A failed origin check stops the worker for good: nothing starts after it. */
  lemma {:induction false} RefusalIsFinal(sys: Sys, more: seq<Act>)
    requires sys.worker == Stopped
    ensures Steps(sys, more).worker == Stopped && Steps(sys, more).starts == sys.starts
  {
    if more != [] {
      RefusalIsFinal(sys, more[..|more| - 1]);
      DoKeepsStopped(Steps(sys, more[..|more| - 1]), more[|more| - 1]);
    }
  }

  lemma DoKeepsStopped(sys: Sys, a: Act)
    requires sys.worker == Stopped
    ensures Do(sys, a).worker == Stopped && Do(sys, a).starts == sys.starts
  {}

  // ---- what a client may conclude -------------------------------------------------------------------

  /** Safe retry: whatever the client is answered while its transport is still open, either the handler
      never started, or it ran to completion and returned exactly that answer. */
  lemma AnswersAreHonest(acts: seq<Act>, c: CommandId)
    requires var sys := Steps(INITIAL, acts); c in sys.jobs && sys.jobs[c].phase.Answered? && !sys.closed
    ensures var r := Steps(INITIAL, acts).jobs[c]; r.startedAt.None? || r.finished == Some(r.phase.answer)
  {
    StepsOk(acts);
    assert JobOk(Steps(INITIAL, acts), c, Steps(INITIAL, acts).jobs[c]);
  }

  /** The route result says what became of the command: it never got into the queue, or its reply was read,
      or its fate is unknown and then the transport is closed. */
  lemma ResultsNameTheOutcome(acts: seq<Act>, c: CommandId)
    requires var sys := Steps(INITIAL, acts); c in sys.jobs && sys.jobs[c].phase.Answered?
    ensures var sys := Steps(INITIAL, acts);
      var result, answer := sys.jobs[c].phase.result, sys.jobs[c].phase.answer;
      && (result == NotEnqueued <==> c !in sys.enqueued)
      && (result == NotEnqueued ==> answer == NOT_ENQUEUED || answer == None)
      && (result.Completed? ==> answer == result.reply && sys.jobs[c].slot == Full(answer))
      && (result == Uncertain ==> sys.closed && answer == UNCERTAIN)
  {
    StepsOk(acts);
    assert JobOk(Steps(INITIAL, acts), c, Steps(INITIAL, acts).jobs[c]);
  }

  // ---- who gets in ----------------------------------------------------------------------------------

  /** This step puts `c` in the queue: the worker still receives and there is room. */
  predicate Enters(sys: Sys, a: Act, c: CommandId) {
    a == Send(c) && InPhase(sys, c, Enqueueing) && sys.worker != Stopped && |sys.queue| < 64
  }

  /** This step turns `c` away: no live session, no mailbox, a stopped worker, or the deadline. */
  predicate TurnsAway(sys: Sys, a: Act, c: CommandId) {
    match a
    case Issue(d, _, _, hasMailbox) => d == c && c !in sys.jobs && (!sys.alive || !hasMailbox)
    case SendFails(d) =>
      d == c && InPhase(sys, c, Enqueueing) && (sys.worker == Stopped || sys.now >= sys.jobs[c].deadline)
    case _ => false
  }

  predicate IsTurnedAway(sys: Sys, c: CommandId) {
    c in sys.jobs &&
    match sys.jobs[c].phase
    case Routed(result) => result == NotEnqueued
    case Answered(result, _) => result == NotEnqueued
    case _ => false
  }

  predicate EntersAt(acts: seq<Act>, i: nat, c: CommandId)
    requires i < |acts|
  {
    Enters(Steps(INITIAL, acts[..i]), acts[i], c)
  }

  predicate TurnsAwayAt(acts: seq<Act>, i: nat, c: CommandId)
    requires i < |acts|
  {
    TurnsAway(Steps(INITIAL, acts[..i]), acts[i], c)
  }

  lemma EnteringPrefix(acts: seq<Act>, n: nat, i: nat, c: CommandId)
    requires i < n <= |acts|
    ensures EntersAt(acts[..n], i, c) == EntersAt(acts, i, c)
    ensures TurnsAwayAt(acts[..n], i, c) == TurnsAwayAt(acts, i, c)
  {
    assert acts[..n][..i] == acts[..i];
  }

  lemma EnteringStep(sys: Sys, a: Act, c: CommandId)
    ensures c in Do(sys, a).enqueued <==> c in sys.enqueued || Enters(sys, a, c)
  {}

  lemma TurnedAwayStays(sys: Sys, a: Act, c: CommandId)
    requires IsTurnedAway(sys, c)
    ensures IsTurnedAway(Do(sys, a), c)
  {}

  lemma TurningStep(sys: Sys, a: Act, c: CommandId)
    ensures IsTurnedAway(Do(sys, a), c) <==> IsTurnedAway(sys, c) || TurnsAway(sys, a, c)
  {
    if IsTurnedAway(sys, c) { TurnedAwayStays(sys, a, c); }
  }

  /** In every run: exactly which commands got into the queue, */
  lemma {:induction false} EnqueuedIff(acts: seq<Act>, c: CommandId)
    ensures c in Steps(INITIAL, acts).enqueued <==> exists i :: 0 <= i < |acts| && EntersAt(acts, i, c)
  {
    if acts != [] {
      var n := |acts| - 1;
      EnqueuedIff(acts[..n], c);
      EnteringStep(Steps(INITIAL, acts[..n]), acts[n], c);
      assert EntersAt(acts, n, c) == Enters(Steps(INITIAL, acts[..n]), acts[n], c);
      forall i | 0 <= i < n ensures EntersAt(acts[..n], i, c) == EntersAt(acts, i, c) {
        EnteringPrefix(acts, n, i, c);
      }
    }
  }

  /** and which were reported as not enqueued. */
  lemma {:induction false} TurnedAwayIff(acts: seq<Act>, c: CommandId)
    ensures IsTurnedAway(Steps(INITIAL, acts), c) <==> exists i :: 0 <= i < |acts| && TurnsAwayAt(acts, i, c)
  {
    if acts != [] {
      var n := |acts| - 1;
      TurnedAwayIff(acts[..n], c);
      TurningStep(Steps(INITIAL, acts[..n]), acts[n], c);
      assert TurnsAwayAt(acts, n, c) == TurnsAway(Steps(INITIAL, acts[..n]), acts[n], c);
      forall i | 0 <= i < n ensures TurnsAwayAt(acts[..n], i, c) == TurnsAwayAt(acts, i, c) {
        EnteringPrefix(acts, n, i, c);
      }
    }
  }

  // ---- what each client is answered -----------------------------------------------------------------

  /** Step `i` answers `c`, which was routed as `result`. */
  predicate AnswersAt(acts: seq<Act>, i: nat, c: CommandId, result: RouteResult)
    requires i < |acts|
  {
    acts[i] == Answer(c) && InPhase(Steps(INITIAL, acts[..i]), c, Routed(result))
  }

  /** What the client reads for each result. */
  predicate Reads(current: bool, result: RouteResult, answer: Reply) {
    match result
    case Completed(reply) => answer == reply
    case NotEnqueued => answer == if current then Some(Error("session command could not be enqueued")) else None
    case Uncertain => answer == Some(Error("session command outcome uncertain"))
  }

  predicate ReadsAt(acts: seq<Act>, i: nat, c: CommandId, result: RouteResult, answer: Reply)
    requires i < |acts|
  {
    AnswersAt(acts, i, c, result) && Reads(Steps(INITIAL, acts[..i]).current, result, answer)
  }

  lemma ReadsAtPrefix(acts: seq<Act>, n: nat, i: nat, c: CommandId, result: RouteResult, answer: Reply)
    requires i < n <= |acts|
    ensures ReadsAt(acts[..n], i, c, result, answer) == ReadsAt(acts, i, c, result, answer)
  {
    assert acts[..n][..i] == acts[..i];
  }

  lemma AnswerStep(sys: Sys, a: Act, c: CommandId, result: RouteResult, answer: Reply)
    ensures InPhase(Do(sys, a), c, Answered(result, answer)) <==>
      || InPhase(sys, c, Answered(result, answer))
      || (a == Answer(c) && InPhase(sys, c, Routed(result)) && Reads(sys.current, result, answer))
  {}

  /** In every run: exactly what each client was answered. A command that never got in is answered with
      nothing exactly when its session had been replaced by then. */
  lemma {:induction false} AnsweredIff(acts: seq<Act>, c: CommandId, result: RouteResult, answer: Reply)
    ensures InPhase(Steps(INITIAL, acts), c, Answered(result, answer)) <==>
      exists i :: 0 <= i < |acts| && ReadsAt(acts, i, c, result, answer)
  {
    if acts != [] {
      var n := |acts| - 1;
      AnsweredIff(acts[..n], c, result, answer);
      AnswerStep(Steps(INITIAL, acts[..n]), acts[n], c, result, answer);
      assert ReadsAt(acts, n, c, result, answer) ==
        (acts[n] == Answer(c) && InPhase(Steps(INITIAL, acts[..n]), c, Routed(result))
         && Reads(Steps(INITIAL, acts[..n]).current, result, answer));
      forall i | 0 <= i < n ensures ReadsAt(acts[..n], i, c, result, answer) == ReadsAt(acts, i, c, result, answer) {
        ReadsAtPrefix(acts, n, i, c, result, answer);
      }
    }
  }

  predicate IsUncertain(r: Job) {
    r.aborted || ((r.phase.Routed? || r.phase.Answered?) && r.phase.result == Uncertain)
  }

  predicate HasUncertain(jobs: map<CommandId, Job>) { exists c :: c in jobs && IsUncertain(jobs[c]) }

  lemma UncertainStays(sys: Sys, a: Act, c: CommandId)
    requires c in sys.jobs && IsUncertain(sys.jobs[c])
    ensures c in Do(sys, a).jobs && IsUncertain(Do(sys, a).jobs[c])
  {}

  lemma ClosingIsUncertain(sys: Sys, a: Act)
    requires !sys.closed && Do(sys, a).closed && Do(sys, a).alive
    ensures HasUncertain(Do(sys, a).jobs)
  {
    var c := if a.Expire? then sys.worker.c else a.c;
    assert c in Do(sys, a).jobs && IsUncertain(Do(sys, a).jobs[c]);
  }

  /** The transport of a live session is closed only over a command whose outcome is uncertain: one whose
      reply was lost or late, or whose handler was cut off. */
  lemma {:induction false} ClosedOnlyWhenUncertain(acts: seq<Act>)
    requires Steps(INITIAL, acts).closed && Steps(INITIAL, acts).alive
    ensures HasUncertain(Steps(INITIAL, acts).jobs)
  {
    if acts != [] {
      var sys, a := Steps(INITIAL, acts[..|acts| - 1]), acts[|acts| - 1];
      if sys.closed {
        AliveBefore(sys, a);
        ClosedOnlyWhenUncertain(acts[..|acts| - 1]);
        var c :| c in sys.jobs && IsUncertain(sys.jobs[c]);
        UncertainStays(sys, a, c);
      } else {
        ClosingIsUncertain(sys, a);
      }
    }
  }

  lemma AliveBefore(sys: Sys, a: Act)
    requires Do(sys, a).alive
    ensures sys.alive
  {}

  predicate Settled(sys: Sys, c: CommandId) {
    && c in sys.jobs && sys.jobs[c].startedAt.None?
    && sys.jobs[c].phase != Enqueueing && (c in sys.enqueued ==> sys.jobs[c].slot != Empty)
  }

  lemma DoKeepsSettled(sys: Sys, a: Act, c: CommandId)
    requires Settled(sys, c) && JobOk(sys, c, sys.jobs[c]) && HeldOk(sys)
    ensures Settled(Do(sys, a), c)
  {}

  lemma {:induction false} SettledForGood(sys: Sys, more: seq<Act>, c: CommandId)
    requires Ok(sys) && Settled(sys, c)
    ensures Ok(Steps(sys, more)) && Settled(Steps(sys, more), c)
  {
    if more != [] {
      var init := more[..|more| - 1];
      SettledForGood(sys, init, c);
      QueueOkHeldOk(Steps(sys, init));
      DoKeepsOk(Steps(sys, init), more[|more| - 1]);
      DoKeepsSettled(Steps(sys, init), more[|more| - 1], c);
    }
  }

  /** And it stays so: a command answered over an open transport without its handler having started never
      runs later, whatever happens next. */
  lemma AnsweredNeverRunsLater(acts: seq<Act>, more: seq<Act>, c: CommandId)
    requires var sys := Steps(INITIAL, acts);
      c in sys.jobs && sys.jobs[c].phase.Answered? && !sys.closed && sys.jobs[c].startedAt.None?
    ensures var later := Steps(Steps(INITIAL, acts), more); c in later.jobs && later.jobs[c].startedAt.None?
  {
    StepsOk(acts);
    var sys := Steps(INITIAL, acts);
    assert JobOk(sys, c, sys.jobs[c]);
    SettledForGood(sys, more, c);
  }

  /** The open transport is needed: this client is answered with an error, its command still waits in the
      queue, and the handler runs after that. */
  lemma UncertainMayStillRun() returns (answered: seq<Act>, acts: seq<Act>)
    ensures answered <= acts
    ensures InPhase(Steps(INITIAL, answered), 0, Answered(Uncertain, UNCERTAIN))
    ensures !HasStarted(Steps(INITIAL, answered).jobs, 0) && HasStarted(Steps(INITIAL, acts).jobs, 0)
  {
    answered := AnsweredTooEarly();
    acts := answered;
    StepsAppend(INITIAL, acts, Take);
    acts := acts + [Take];
    StepsAppend(INITIAL, acts, CheckOrigin);
    acts := acts + [CheckOrigin];
    StepsAppend(INITIAL, acts, Start);
    acts := acts + [Start];
  }

  /** A command whose reply times out while it still waits in the queue. */
  lemma AnsweredTooEarly() returns (acts: seq<Act>)
    ensures var sys := Steps(INITIAL, acts);
      && InPhase(sys, 0, Answered(Uncertain, UNCERTAIN)) && !HasStarted(sys.jobs, 0)
      && sys.jobs[0].commit == sys.now && sys.queue == [0] && sys.worker == Idle && sys.alive && sys.current
  {
    acts := [];
    StepsAppend(INITIAL, acts, Issue(0, 0, 0, true));
    acts := acts + [Issue(0, 0, 0, true)];
    StepsAppend(INITIAL, acts, Send(0));
    acts := acts + [Send(0)];
    StepsAppend(INITIAL, acts, ReplyTimesOut(0));
    acts := acts + [ReplyTimesOut(0)];
    StepsAppend(INITIAL, acts, Answer(0));
    acts := acts + [Answer(0)];
  }

  lemma StepsAppend(sys: Sys, acts: seq<Act>, a: Act)
    ensures Steps(sys, acts + [a]) == Do(Steps(sys, acts), a)
  {
    assert (acts + [a])[..|acts|] == acts;
  }

  // ---- the worker loop ------------------------------------------------------------------------------

  /** How long a handler takes when nothing cuts it off, and what it returns. */
  datatype Handler = Handler(duration: nat, result: Reply)

  function Remaining(now: Instant, deadline: Instant): nat { if now < deadline then deadline - now else 0 }

  predicate KnowsJobs(sys: Sys) { forall c :: c in sys.queue ==> c in sys.jobs }

  function Later(sys: Sys, elapsed: nat): Sys { sys.(now := sys.now + elapsed) }

  /** `run_or_deadline` on the command the worker holds, without interference. */
  function RunOrDeadline(sys: Sys, c: CommandId, h: Handler): (next: Sys)
    requires c in sys.jobs
    ensures next.worker == Idle && next.queue == sys.queue && next.jobs.Keys == sys.jobs.Keys
  {
    var started := StartOrRefuse(sys, c);
    var remaining := Remaining(sys.now, sys.jobs[c].deadline);
    if started.worker == Idle then started
    else if h.duration <= remaining then FinishWith(Later(started, h.duration), c, h.result)
    else ReplyTimedOut(AbortHandler(Later(started, remaining), c), c)
  }

  /** One turn of the worker loop. */
  function WorkOne(sys: Sys, h: Handler): (next: Sys)
    requires sys.queue != [] && KnowsJobs(sys)
    ensures KnowsJobs(next) && (next.worker == Idle || next.worker == Stopped)
  {
    var c := sys.queue[0];
    var checked := CheckOrStop(Pop(sys), c);
    if checked.worker == Stopped then checked else RunOrDeadline(checked, c, h)
  }

  function WorkQueue(sys: Sys, handlers: seq<Handler>): Sys
    requires KnowsJobs(sys)
    decreases |handlers|
  {
    if handlers == [] || sys.queue == [] || sys.worker != Idle then sys
    else WorkQueue(WorkOne(sys, handlers[0]), handlers[1..])
  }

  lemma WorkQueueNext(sys: Sys, handlers: seq<Handler>, i: nat)
    requires i < |handlers| && KnowsJobs(sys) && sys.queue != [] && sys.worker == Idle
    ensures WorkQueue(sys, handlers[i..]) == WorkQueue(WorkOne(sys, handlers[i]), handlers[i + 1..])
  {
    assert handlers[i..][1..] == handlers[i + 1..];
  }

  lemma FinishingIsARun(sys: Sys, acts: seq<Act>, c: CommandId, h: Handler) returns (more: seq<Act>)
    requires Steps(sys, acts).worker == Running(c) && c in Steps(sys, acts).jobs
    ensures Steps(sys, more) == FinishWith(Later(Steps(sys, acts), h.duration), c, h.result)
  {
    StepsAppend(sys, acts, Tick(h.duration));
    more := acts + [Tick(h.duration)];
    StepsAppend(sys, more, Finish(h.result));
    more := more + [Finish(h.result)];
  }

  lemma CutOffIsARun(sys: Sys, acts: seq<Act>, c: CommandId, remaining: nat) returns (more: seq<Act>)
    requires var started := Steps(sys, acts);
      started.worker == Running(c) && c in started.jobs && started.now + remaining >= started.jobs[c].deadline
    ensures Steps(sys, more) == ReplyTimedOut(AbortHandler(Later(Steps(sys, acts), remaining), c), c)
  {
    StepsAppend(sys, acts, Tick(remaining));
    more := acts + [Tick(remaining)];
    StepsAppend(sys, more, Expire);
    more := more + [Expire];
    StepsAppend(sys, more, ReplyExpired);
    more := more + [ReplyExpired];
  }

  lemma DoStart(sys: Sys, c: CommandId)
    requires sys.worker == Checked(c) && c in sys.jobs
    ensures Do(sys, Start) == StartOrRefuse(sys, c)
  {}

  lemma RunOrDeadlineIsARun(sys: Sys, acts: seq<Act>, c: CommandId, h: Handler) returns (more: seq<Act>)
    requires Steps(sys, acts).worker == Checked(c) && c in Steps(sys, acts).jobs
    ensures Steps(sys, more) == RunOrDeadline(Steps(sys, acts), c, h)
  {
    var checked := Steps(sys, acts);
    var remaining := Remaining(checked.now, checked.jobs[c].deadline);
    StepsAppend(sys, acts, Start);
    more := acts + [Start];
    DoStart(checked, c);
    if Steps(sys, more).worker != Idle {
      if h.duration <= remaining {
        more := FinishingIsARun(sys, more, c, h);
      } else {
        more := CutOffIsARun(sys, more, c, remaining);
      }
    }
  }

  lemma WorkOneIsARun(sys: Sys, acts: seq<Act>, h: Handler) returns (more: seq<Act>)
    requires var now := Steps(sys, acts); now.worker == Idle && now.queue != [] && KnowsJobs(now)
    ensures Steps(sys, more) == WorkOne(Steps(sys, acts), h)
  {
    var c := Steps(sys, acts).queue[0];
    StepsAppend(sys, acts, Take);
    more := acts + [Take];
    StepsAppend(sys, more, CheckOrigin);
    more := more + [CheckOrigin];
    assert Steps(sys, more) == CheckOrStop(Pop(Steps(sys, acts)), c);
    if Steps(sys, more).worker != Stopped { more := RunOrDeadlineIsARun(sys, more, c, h); }
  }

  /** What the loop does is a run of the machine, so everything proved of runs holds of it. */
  lemma {:induction false} WorkQueueIsARun(sys: Sys, acts: seq<Act>, handlers: seq<Handler>) returns (more: seq<Act>)
    requires KnowsJobs(Steps(sys, acts))
    ensures Steps(sys, more) == WorkQueue(Steps(sys, acts), handlers)
    decreases |handlers|
  {
    more := acts;
    if handlers != [] && Steps(sys, acts).queue != [] && Steps(sys, acts).worker == Idle {
      more := WorkOneIsARun(sys, acts, handlers[0]);
      more := WorkQueueIsARun(sys, more, handlers[1..]);
    }
  }

  // ---- what the worker does for each command --------------------------------------------------------

  /** The response deadline passes while the handler runs. */
  predicate Overruns(r: Job, h: Handler, from: Instant) {
    from <= r.commit && h.duration != 0 && from + h.duration > r.deadline
  }

  /** A command whose turn comes at `from` occupies the worker until `to`. It is refused after its commit
      deadline; a handler that returns within the response deadline is answered for; any other is cut off at
      that deadline, or at once if it has passed. */
  predicate Served(before: Job, after: Job, h: Handler, from: Instant, to: Instant) {
    var timedOut := Full(Some(Error("session command timed out")));
    if from > before.commit then after == before.(slot := timedOut) && to == from
    else if h.duration == 0 || from + h.duration <= before.deadline then
      && after == before.(startedAt := Some(from), slot := Full(h.result), finished := Some(h.result))
      && to == from + h.duration
    else
      && after == before.(startedAt := Some(from), slot := timedOut, aborted := true)
      && to == if from < before.deadline then before.deadline else from
  }

  predicate ServedAt(sys: Sys, next: Sys, handlers: seq<Handler>, times: seq<Instant>, i: nat)
    requires i < |sys.queue| && i < |handlers| && i + 1 < |times|
  {
    var c := sys.queue[i];
    && c in sys.jobs && c in next.jobs
    && Served(sys.jobs[c].(checked := true), next.jobs[c], handlers[i], times[i], times[i + 1])
  }

  predicate OverrunsAt(sys: Sys, handlers: seq<Handler>, times: seq<Instant>, i: nat)
    requires i < |sys.queue| && i < |handlers| && i < |times|
  {
    sys.queue[i] in sys.jobs && Overruns(sys.jobs[sys.queue[i]], handlers[i], times[i])
  }

  /** The queue served in order, one command after the other, up to the last handler. */
  ghost predicate ServedInOrder(sys: Sys, next: Sys, handlers: seq<Handler>, times: seq<Instant>) {
    var n := if |handlers| < |sys.queue| then |handlers| else |sys.queue|;
    && |times| == n + 1 && times[0] == sys.now && times[n] == next.now
    && next.worker == Idle && next.queue == sys.queue[n..] && next.jobs.Keys == sys.jobs.Keys
    && (forall i :: 0 <= i < n ==> ServedAt(sys, next, handlers, times, i))
    && (forall c :: c in sys.jobs && c !in sys.queue[..n] ==> next.jobs[c] == sys.jobs[c])
    && (next.closed <==> sys.closed || (sys.alive && exists i :: 0 <= i < n && OverrunsAt(sys, handlers, times, i)))
  }

  /** Only this command is touched, and the transport is closed if its handler was cut off. */
  predicate HandlerServed(sys: Sys, next: Sys, c: CommandId, h: Handler)
    requires c in sys.jobs
  {
    && c in next.jobs && next.jobs == sys.jobs[c := next.jobs[c]]
    && Served(sys.jobs[c], next.jobs[c], h, sys.now, next.now)
    && (next.closed <==> sys.closed || (sys.alive && Overruns(sys.jobs[c], h, sys.now)))
  }

  lemma CutOffServes(sys: Sys, c: CommandId, h: Handler)
    requires c in sys.jobs && Overruns(sys.jobs[c], h, sys.now)
    ensures var next := RunOrDeadline(sys, c, h);
      && Served(sys.jobs[c], next.jobs[c], h, sys.now, next.now)
      && next.jobs == sys.jobs[c := next.jobs[c]] && next.closed == (sys.closed || sys.alive)
  {}

  lemma RunOrDeadlineServes(sys: Sys, c: CommandId, h: Handler)
    requires c in sys.jobs
    ensures HandlerServed(sys, RunOrDeadline(sys, c, h), c, h)
  {
    if Overruns(sys.jobs[c], h, sys.now) { CutOffServes(sys, c, h); }
  }

  lemma RunOrDeadlineFrame(sys: Sys, c: CommandId, h: Handler)
    requires c in sys.jobs
    ensures var next := RunOrDeadline(sys, c, h); next.alive == sys.alive && next.current == sys.current
  {}

  lemma WorkOneServes(sys: Sys, h: Handler)
    requires sys.queue != [] && KnowsJobs(sys) && sys.alive && sys.current
    ensures var c, next := sys.queue[0], WorkOne(sys, h);
      && Served(sys.jobs[c].(checked := true), next.jobs[c], h, sys.now, next.now)
      && next.worker == Idle && next.queue == sys.queue[1..] && next.alive && next.current
      && next.jobs == sys.jobs[c := next.jobs[c]]
      && (next.closed <==> sys.closed || (sys.alive && Overruns(sys.jobs[c], h, sys.now)))
  {
    var c := sys.queue[0];
    var checked := CheckOrStop(Pop(sys), c);
    RunOrDeadlineServes(checked, c, h);
    RunOrDeadlineFrame(checked, c, h);
    assert sys.jobs[c := checked.jobs[c]][c := WorkOne(sys, h).jobs[c]] == sys.jobs[c := WorkOne(sys, h).jobs[c]];
  }

  lemma ServedLater(sys: Sys, one: Sys, next: Sys, handlers: seq<Handler>, later: seq<Instant>, i: nat)
    requires sys.queue != [] && handlers != [] && one.queue == sys.queue[1..] && sys.queue[0] !in one.queue
    requires sys.queue[0] in one.jobs && one.jobs == sys.jobs[sys.queue[0] := one.jobs[sys.queue[0]]]
    requires 0 < i < |later| && i < |sys.queue| && i < |handlers|
    requires ServedAt(one, next, handlers[1..], later, i - 1)
    ensures ServedAt(sys, next, handlers, [sys.now] + later, i)
  {
    assert one.queue[i - 1] == sys.queue[i] != sys.queue[0];
  }

  /** One command more at the head of those served. */
  lemma ServedFirst(sys: Sys, one: Sys, next: Sys, handlers: seq<Handler>, later: seq<Instant>)
    requires sys.queue != [] && handlers != [] && KnowsJobs(sys) && NoDuplicates(sys.queue)
    requires var c := sys.queue[0];
      && c in one.jobs && Served(sys.jobs[c].(checked := true), one.jobs[c], handlers[0], sys.now, one.now)
      && one.queue == sys.queue[1..] && one.jobs == sys.jobs[c := one.jobs[c]] && one.alive == sys.alive
      && (one.closed <==> sys.closed || (sys.alive && Overruns(sys.jobs[c], handlers[0], sys.now)))
    requires ServedInOrder(one, next, handlers[1..], later)
    ensures ServedInOrder(sys, next, handlers, [sys.now] + later)
  {
    var c, times, n := sys.queue[0], [sys.now] + later, |later|;
    assert c !in one.queue;
    forall i | 0 <= i < n ensures ServedAt(sys, next, handlers, times, i) {
      if i > 0 { ServedLater(sys, one, next, handlers, later, i); }
    }
    ServedOverruns(sys, one, handlers, later);
    assert forall d :: d in sys.queue[..n] <==> d == c || d in one.queue[..n - 1];
  }

  lemma ServedOverruns(sys: Sys, one: Sys, handlers: seq<Handler>, later: seq<Instant>)
    requires sys.queue != [] && handlers != [] && one.queue == sys.queue[1..] && sys.queue[0] !in one.queue
    requires sys.queue[0] in sys.jobs && sys.queue[0] in one.jobs
    requires one.jobs == sys.jobs[sys.queue[0] := one.jobs[sys.queue[0]]]
    requires 0 < |later| <= |handlers| && |later| <= |sys.queue|
    ensures (exists i :: 0 <= i < |later| && OverrunsAt(sys, handlers, [sys.now] + later, i)) <==>
      || Overruns(sys.jobs[sys.queue[0]], handlers[0], sys.now)
      || (exists i :: 0 <= i < |later| - 1 && OverrunsAt(one, handlers[1..], later, i))
  {
    var times := [sys.now] + later;
    forall i | 0 < i < |later|
      ensures OverrunsAt(sys, handlers, times, i) == OverrunsAt(one, handlers[1..], later, i - 1)
    {
      assert one.queue[i - 1] == sys.queue[i] != sys.queue[0];
    }
    assert OverrunsAt(sys, handlers, times, 0) == Overruns(sys.jobs[sys.queue[0]], handlers[0], sys.now);
    if i :| 0 <= i < |later| - 1 && OverrunsAt(one, handlers[1..], later, i) {
      assert OverrunsAt(sys, handlers, times, i + 1);
    }
  }

  /** While the origin stays current the loop serves its queue in order: each command by its own deadlines,
      from the moment the one before it is done with. */
  lemma {:induction false} WorkQueueServes(sys: Sys, handlers: seq<Handler>) returns (times: seq<Instant>)
    requires KnowsJobs(sys) && NoDuplicates(sys.queue) && sys.worker == Idle && sys.alive && sys.current
    ensures ServedInOrder(sys, WorkQueue(sys, handlers), handlers, times)
    decreases |handlers|
  {
    if handlers == [] || sys.queue == [] {
      times := [sys.now];
    } else {
      var one := WorkOne(sys, handlers[0]);
      WorkOneServes(sys, handlers[0]);
      var later := WorkQueueServes(one, handlers[1..]);
      ServedFirst(sys, one, WorkQueue(one, handlers[1..]), handlers, later);
      times := [sys.now] + later;
    }
  }

  /** Otherwise it serves nobody: it stops and drops every reply. */
  lemma StaleWorkerServesNobody(sys: Sys, handlers: seq<Handler>)
    requires KnowsJobs(sys) && sys.worker == Idle && !(sys.alive && sys.current) && handlers != [] && sys.queue != []
    ensures var next := WorkQueue(sys, handlers);
      && next.worker == Stopped && next.queue == [] && next.now == sys.now && next.closed == sys.closed
      && next.starts == sys.starts && next.jobs.Keys == sys.jobs.Keys
      && forall c :: c in sys.jobs ==>
           next.jobs[c] == if c in sys.queue then sys.jobs[c].(slot := Dropped) else sys.jobs[c]
  {
    var one := WorkOne(sys, handlers[0]);
    assert [sys.queue[0]] + sys.queue[1..] == sys.queue;
    assert WorkQueue(one, handlers[1..]) == one;
  }

  // ---- the mailbox as an object ---------------------------------------------------------------------

  class SessionMailbox {
    var now: Instant
    var current: bool
    var alive: bool
    var closed: bool
    var worker: Worker
    var queue: seq<CommandId>
    var jobs: map<CommandId, Job>
    ghost var enqueued: seq<CommandId>
    ghost var taken: nat
    ghost var starts: seq<CommandId>

    constructor ()
      ensures View() == INITIAL
    {
      now, current, alive, closed, worker, queue, jobs := 0, true, true, false, Idle, [], map[];
      enqueued, taken, starts := [], 0, [];
    }

    ghost function View(): Sys reads this {
      Sys(now, current, alive, closed, worker, queue, jobs, enqueued, taken, starts)
    }

    method CloseUncertainSession()
      modifies this`closed
      ensures View() == CloseUncertain(old(View()))
    {
      if alive { closed := true; }
    }

    method Recv() returns (c: CommandId)
      requires queue != []
      modifies this
      ensures View() == Pop(old(View())) && c == old(queue)[0]
    {
      c := queue[0];
      worker, queue, taken := Popped(c), queue[1..], taken + 1;
    }

    /** The origin check; a stale origin stops the worker and drops everything queued. */
    method WorkerShouldRun(c: CommandId) returns (run: bool)
      requires c in jobs
      modifies this
      ensures View() == CheckOrStop(old(View()), c) && run == (worker != Stopped)
    {
      run := alive && current;
      if run {
        jobs, worker := jobs[c := jobs[c].(checked := true)], Checked(c);
      } else {
        jobs, queue, worker := DropReplies(jobs, [c] + queue), [], Stopped;
      }
    }

    /** The response deadline passed while the handler ran: close the transport, then reply. */
    method CutOff(c: CommandId)
      requires c in jobs
      modifies this
      ensures View() == ReplyTimedOut(AbortHandler(old(View()), c), c)
    {
      var r := jobs[c].(aborted := true);
      jobs := jobs[c := r];
      CloseUncertainSession();
      jobs, worker := jobs[c := r.(slot := Full(TIMED_OUT))], Idle;
    }

    /** The handler runs until it returns or until its response deadline. */
    method Execute(c: CommandId, h: Handler, remaining: nat)
      requires c in jobs
      modifies this
      ensures View() == if h.duration <= remaining then FinishWith(Later(old(View()), h.duration), c, h.result)
                        else ReplyTimedOut(AbortHandler(Later(old(View()), remaining), c), c)
    {
      if h.duration <= remaining {
        now := now + h.duration;
        jobs, worker := jobs[c := jobs[c].(slot := Full(h.result), finished := Some(h.result))], Idle;
      } else {
        now := now + remaining;
        CutOff(c);
      }
    }

    method RunHandler(c: CommandId, h: Handler)
      requires c in jobs
      modifies this
      ensures View() == RunOrDeadline(old(View()), c, h)
      ensures HandlerServed(old(View()), View(), c, h)
    {
      RunOrDeadlineServes(View(), c, h);
      var r := jobs[c];
      if now > r.commit {
        jobs, worker := jobs[c := r.(slot := Full(TIMED_OUT))], Idle;
      } else {
        var remaining := Remaining(now, r.deadline);
        jobs, worker, starts := jobs[c := r.(startedAt := Some(now))], Running(c), starts + [c];
        Execute(c, h, remaining);
      }
    }

    /** One turn of the worker loop; false when it has to stop. */
    method WorkNext(h: Handler) returns (run: bool)
      requires queue != [] && KnowsJobs(View())
      modifies this
      ensures View() == WorkOne(old(View()), h) && worker == (if run then Idle else Stopped)
    {
      var c := Recv();
      run := WorkerShouldRun(c);
      if run { RunHandler(c, h); }
    }

    /** The mailbox worker over the handlers it meets, until the queue is empty or an origin check fails. */
    method Work(handlers: seq<Handler>)
      requires worker == Idle && KnowsJobs(View())
      modifies this
      ensures View() == WorkQueue(old(View()), handlers)
      ensures old(NoDuplicates(queue) && alive && current) ==>
        exists times :: ServedInOrder(old(View()), View(), handlers, times)
    {
      var i, run := 0, true;
      while run && i < |handlers| && queue != []
        invariant i <= |handlers| && KnowsJobs(View()) && worker == (if run then Idle else Stopped)
        invariant WorkQueue(View(), handlers[i..]) == WorkQueue(old(View()), handlers)
      {
        WorkQueueNext(View(), handlers, i);
        run := WorkNext(handlers[i]);
        i := i + 1;
      }
      if old(NoDuplicates(queue) && alive && current) { var _ := WorkQueueServes(old(View()), handlers); }
    }
  }
}
