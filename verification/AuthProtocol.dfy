/** Any number of connections authenticating as one user, interleaved: capture of the session being
    replaced, binding, response flush, activation, and rollback at every failure point. */
module AuthProtocol {
  import opened Options
  import opened SessionBinding

  datatype AuthPhase = Authenticating | ResponseFlushed | Active

  predicate ShouldRollbackAuth(phase: AuthPhase, flushOk: bool) {
    match phase
    case Authenticating => !flushOk
    case ResponseFlushed => !flushOk
    case Active => false
  }

  /** A failed flush is rolled back until the session is active, and never after. */
  lemma RolledBackBeforeActive(phase: AuthPhase, flushOk: bool)
    ensures ShouldRollbackAuth(phase, flushOk) <==> phase != Active && !flushOk
  {}

  /** Where an attempt is. The three rollback points are: undo the binding, reject, close. */
  datatype Point =
    | Captured | Prepared | BoundUser | OkInFlight | Flushed | Activated | Handed | Published
    | Undo(sendErr: bool) | Reject(sendErr: bool) | Close | Failed

  /** `previous` was the user's current origin when the attempt began; `bound` is its own generation. */
  datatype Attempt = Attempt(point: Point, previous: Option<Origin>, bound: Option<nat>)

  datatype Effect =
    | OkAttempted(s: SessionId) | ErrSent(s: SessionId) | WentActive(s: SessionId)
    | PreviousClosed(s: SessionId, replaced: SessionId) | AuthenticatedQueued(s: SessionId)
    | Undone(s: SessionId) | Restored(attempt: SessionId, target: SessionId) | TransportClosed(s: SessionId)

  datatype Sys = Sys(
    user: Binding, alive: set<SessionId>, attempts: map<SessionId, Attempt>, trace: seq<Effect>)

  datatype Act =
    | Begin(s: SessionId)                    // construct the session and capture the current origin
    | Snapshot(s: SessionId, ok: bool)       // the room snapshot, or none needed
    | BindSession(s: SessionId, expired: bool)
    | SendOk(s: SessionId, expired: bool)    // deadline and gate-duration checks before the flush
    | FlushDone(s: SessionId, ok: bool)
    | ActivationDone(s: SessionId, ok: bool)
    | ClosePrevious(s: SessionId)
    | Publish(s: SessionId)
    | Unwind(s: SessionId)                   // the next rollback point
    | KickUser                               // `clear_session`: kick or shutdown
    | GiveUp(s: SessionId, generation: nat)  // `clear_session_if_matches` from the accept loop
    | DropSession(s: SessionId)              // the last strong reference goes away

  const INITIAL := Sys(UNBOUND, {}, map[], [])

  function PhaseOf(p: Point): AuthPhase {
    match p
    case Flushed => ResponseFlushed
    case Activated | Handed | Published => Active
    case _ => Authenticating
  }

  predicate Finished(p: Point) { p == Published || p == Failed }

  function AtPoint(sys: Sys, s: SessionId, p: Point): Sys
    requires s in sys.attempts
  {
    sys.(attempts := sys.attempts[s := sys.attempts[s].(point := p)])
  }

  function Emit(sys: Sys, e: Effect): Sys { sys.(trace := sys.trace + [e]) }

  /** A failed check or step. The server asks `should_rollback_auth` first. */
  function Abort(sys: Sys, s: SessionId, sendErr: bool): Sys
    requires s in sys.attempts
  {
    if ShouldRollbackAuth(PhaseOf(sys.attempts[s].point), false) then AtPoint(sys, s, Undo(sendErr)) else sys
  }

  predicate At(sys: Sys, s: SessionId, p: Point) { s in sys.attempts && sys.attempts[s].point == p }

  predicate Enabled(sys: Sys, a: Act) {
    match a
    case Begin(s) => s !in sys.attempts
    case Snapshot(s, _) => At(sys, s, Captured)
    case BindSession(s, _) => At(sys, s, Prepared)
    case SendOk(s, _) => At(sys, s, BoundUser)
    case FlushDone(s, _) => At(sys, s, OkInFlight)
    case ActivationDone(s, _) => At(sys, s, Flushed)
    case ClosePrevious(s) => At(sys, s, Activated)
    case Publish(s) => At(sys, s, Handed)
    case Unwind(s) => s in sys.attempts && (var p := sys.attempts[s].point; p.Undo? || p.Reject? || p.Close?)
    case KickUser => true
    case GiveUp(_, _) => true
    case DropSession(s) =>
      && s in sys.attempts && Finished(sys.attempts[s].point)
      && forall t :: t in sys.attempts && !Finished(sys.attempts[t].point) ==>
           sys.attempts[t].previous.None? || sys.attempts[t].previous.value.session != s
  }

  function Bind(sys: Sys, s: SessionId): Sys
    requires s in sys.attempts
  {
    var user := SetSession(sys.user, s);
    var bound := sys.attempts[s].(point := BoundUser, bound := Some(user.generation));
    sys.(user := user, attempts := sys.attempts[s := bound])
  }

  /** Undoing the binding, in one critical section. */
  function UndoBinding(sys: Sys, s: SessionId): Sys
    requires s in sys.attempts
  {
    var a := sys.attempts[s];
    var restores := a.bound.Some? && a.previous.Some? && Matches(sys.user, sys.alive, s, a.bound.value);
    sys.(user := RolledBack(sys.user, sys.alive, s, a.bound, a.previous),
         trace := sys.trace + [Undone(s)] + (if restores then [Restored(s, a.previous.value.session)] else []))
  }

  function Do(sys: Sys, a: Act): Sys {
    if !Enabled(sys, a) then sys else match a
    case Begin(s) =>
      sys.(alive := sys.alive + {s},
           attempts := sys.attempts[s := Attempt(Captured, CurrentOrigin(sys.user, sys.alive), None)])
    case Snapshot(s, ok) => if ok then AtPoint(sys, s, Prepared) else Abort(sys, s, true)
    case BindSession(s, expired) => if expired then Abort(sys, s, true) else Bind(sys, s)
    case SendOk(s, expired) =>
      if expired then Abort(sys, s, true) else Emit(AtPoint(sys, s, OkInFlight), OkAttempted(s))
    case FlushDone(s, ok) => if ok then AtPoint(sys, s, Flushed) else Abort(sys, s, false)
    case ActivationDone(s, ok) =>
      if ok then Emit(AtPoint(sys, s, Activated), WentActive(s)) else AtPoint(sys, s, Undo(false))
    case ClosePrevious(s) =>
      var p := sys.attempts[s].previous;
      if p.Some? && p.value.session != s then Emit(AtPoint(sys, s, Handed), PreviousClosed(s, p.value.session))
      else AtPoint(sys, s, Handed)
    case Publish(s) => Emit(AtPoint(sys, s, Published), AuthenticatedQueued(s))
    case Unwind(s) =>
      (match sys.attempts[s].point
       case Undo(sendErr) => AtPoint(UndoBinding(sys, s), s, Reject(sendErr))
       case Reject(sendErr) => if sendErr then Emit(AtPoint(sys, s, Close), ErrSent(s)) else AtPoint(sys, s, Close)
       case _ => Emit(AtPoint(sys, s, Failed), TransportClosed(s)))
    case KickUser => sys.(user := ClearSession(sys.user))
    case GiveUp(s, g) => sys.(user := ClearIfMatches(sys.user, sys.alive, s, g))
    case DropSession(s) => sys.(alive := sys.alive - {s})
  }

  function Run(acts: seq<Act>): Sys {
    if acts == [] then INITIAL else Do(Run(acts[..|acts| - 1]), acts[|acts| - 1])
  }

  // ---- Binding safety ----

  predicate BeforeBinding(p: Point) { p == Captured || p == Prepared }

  /** The pair (session, generation) is what identifies a binding: generations alone repeat. */
  ghost predicate Safe(sys: Sys) {
    && (sys.user.session.Some? ==>
          var s := sys.user.session.value;
          s in sys.attempts && sys.attempts[s].bound == Some(sys.user.generation))
    && (forall s :: s in sys.attempts ==>
          && (BeforeBinding(sys.attempts[s].point) ==> sys.attempts[s].bound.None?)
          && (!Finished(sys.attempts[s].point) ==> s in sys.alive)
          && PreviousSafe(sys, s))
  }

  ghost predicate PreviousSafe(sys: Sys, s: SessionId)
    requires s in sys.attempts
  {
    sys.attempts[s].previous.Some? ==>
      var o := sys.attempts[s].previous.value;
      && o.session != s && o.session in sys.attempts && sys.attempts[o.session].bound == Some(o.generation)
      && (!Finished(sys.attempts[s].point) ==> o.session in sys.alive)
  }

  lemma PointKeepsSafe(sys: Sys, s: SessionId, p: Point, trace: seq<Effect>)
    requires Safe(sys) && s in sys.attempts && !Finished(sys.attempts[s].point)
    requires BeforeBinding(p) ==> BeforeBinding(sys.attempts[s].point)
    ensures Safe(AtPoint(sys, s, p).(trace := trace))
  {
    var sys' := AtPoint(sys, s, p).(trace := trace);
    forall t | t in sys'.attempts ensures PreviousSafe(sys', t) {
      assert PreviousSafe(sys, t);
    }
  }

  lemma BeginKeepsSafe(sys: Sys, s: SessionId)
    requires Safe(sys) && s !in sys.attempts
    ensures Safe(Do(sys, Begin(s)))
  {
    var sys' := Do(sys, Begin(s));
    forall t | t in sys'.attempts ensures PreviousSafe(sys', t) {
      if t != s { assert PreviousSafe(sys, t); }
    }
  }

  lemma BindKeepsSafe(sys: Sys, s: SessionId)
    requires Safe(sys) && At(sys, s, Prepared)
    ensures Safe(Bind(sys, s))
  {
    var sys' := Bind(sys, s);
    forall t | t in sys'.attempts ensures PreviousSafe(sys', t) {
      assert PreviousSafe(sys, t);
    }
  }

  lemma UndoKeepsSafe(sys: Sys, s: SessionId)
    requires Safe(sys) && s in sys.attempts && !Finished(sys.attempts[s].point)
    ensures Safe(UndoBinding(sys, s))
  {
    var sys' := UndoBinding(sys, s);
    forall t | t in sys'.attempts ensures PreviousSafe(sys', t) {
      assert PreviousSafe(sys, t);
    }
  }

  lemma UserKeepsSafe(sys: Sys, user: Binding, alive: set<SessionId>)
    requires Safe(sys)
    requires user == sys.user || user.session.None?
    requires forall s :: s in sys.attempts && !Finished(sys.attempts[s].point) ==>
      && s in alive
      && (sys.attempts[s].previous.Some? ==> sys.attempts[s].previous.value.session in sys.alive ==>
            sys.attempts[s].previous.value.session in alive)
    ensures Safe(sys.(user := user, alive := alive))
  {
    var sys' := sys.(user := user, alive := alive);
    forall t | t in sys'.attempts ensures PreviousSafe(sys', t) {
      assert PreviousSafe(sys, t);
    }
  }

  lemma UserStepKeepsSafe(sys: Sys, a: Act)
    requires Safe(sys) && Enabled(sys, a) && (a.KickUser? || a.GiveUp? || a.DropSession?)
    ensures Safe(Do(sys, a))
  {
    UserKeepsSafe(sys, Do(sys, a).user, Do(sys, a).alive);
  }

  lemma UnwindKeepsSafe(sys: Sys, s: SessionId)
    requires Safe(sys) && Enabled(sys, Unwind(s))
    ensures Safe(Do(sys, Unwind(s)))
  {
    var sys' := Do(sys, Unwind(s));
    if sys.attempts[s].point.Undo? {
      UndoKeepsSafe(sys, s);
      PointKeepsSafe(UndoBinding(sys, s), s, sys'.attempts[s].point, sys'.trace);
    } else {
      PointKeepsSafe(sys, s, sys'.attempts[s].point, sys'.trace);
    }
  }

  lemma DoKeepsSafe(sys: Sys, a: Act)
    requires Safe(sys)
    ensures Safe(Do(sys, a))
  {
    if !Enabled(sys, a) { return; }
    if a.Begin? {
      BeginKeepsSafe(sys, a.s);
    } else if a.BindSession? && !a.expired {
      BindKeepsSafe(sys, a.s);
    } else if a.Unwind? {
      UnwindKeepsSafe(sys, a.s);
    } else if a.KickUser? || a.GiveUp? || a.DropSession? {
      UserStepKeepsSafe(sys, a);
    } else {
      PointKeepsSafe(sys, a.s, Do(sys, a).attempts[a.s].point, Do(sys, a).trace);
    }
  }

  lemma {:induction false} EveryRunIsSafe(acts: seq<Act>)
    ensures Safe(Run(acts))
  {
    if acts != [] {
      EveryRunIsSafe(acts[..|acts| - 1]);
      DoKeepsSafe(Run(acts[..|acts| - 1]), acts[|acts| - 1]);
    }
  }

  lemma DoKeepsBound(sys: Sys, a: Act, s: SessionId)
    requires Safe(sys) && s in sys.attempts && sys.attempts[s].bound.Some?
    ensures var sys' := Do(sys, a); s in sys'.attempts && sys'.attempts[s].bound == sys.attempts[s].bound
  {
  }

  /** A session's generation never changes once it is bound, whatever else happens. */
  lemma {:induction false} GenerationIsForLife(acts: seq<Act>, k: nat, s: SessionId)
    requires k <= |acts| && s in Run(acts[..k]).attempts && Run(acts[..k]).attempts[s].bound.Some?
    ensures s in Run(acts).attempts && Run(acts).attempts[s].bound == Run(acts[..k]).attempts[s].bound
  {
    if k == |acts| {
      assert acts[..k] == acts;
    } else {
      var init := acts[..|acts| - 1];
      assert init[..k] == acts[..k];
      GenerationIsForLife(init, k, s);
      EveryRunIsSafe(init);
      DoKeepsBound(Run(init), acts[|init|], s);
      assert Run(acts) == Do(Run(init), acts[|init|]);
    }
  }

  /** In every run a bound session is bound with its own generation; so a live session's origin is
      current exactly when it is the bound session, and no two sessions are current together. */
  lemma CurrentIffBound(acts: seq<Act>, s: SessionId, t: SessionId, g: nat, h: nat)
    ensures var sys := Run(acts);
      && (s in sys.attempts && sys.attempts[s].bound == Some(g) && s in sys.alive ==>
            (IsCurrent(sys.user, sys.alive, Origin(s, g)) <==> sys.user.session == Some(s)))
      && (CurrentOrigin(sys.user, sys.alive) == Some(Origin(s, g)) ==>
            s in sys.attempts && sys.attempts[s].bound == Some(g))
      && (IsCurrent(sys.user, sys.alive, Origin(s, g)) && IsCurrent(sys.user, sys.alive, Origin(t, h)) ==>
            s == t && g == h)
  {
    EveryRunIsSafe(acts);
  }

  /** A rollback touches the binding only while its own session is bound, and then makes the captured
      pair current again (or leaves the user unbound when nothing was captured). */
  lemma RollbackRestoresExactly(acts: seq<Act>, s: SessionId)
    requires s in Run(acts).attempts && Run(acts).attempts[s].point.Undo?
    ensures var sys, sys' := Run(acts), Do(Run(acts), Unwind(s));
      var previous := sys.attempts[s].previous;
      && (sys.user.session != Some(s) ==> sys'.user == sys.user)
      && (sys.user.session == Some(s) && previous.Some? ==>
            CurrentOrigin(sys'.user, sys'.alive) == previous && IsCurrent(sys'.user, sys'.alive, previous.value))
      && (sys.user.session == Some(s) && previous.None? ==> sys'.user.session.None?)
      && sys'.user.session != Some(s)
  {
    EveryRunIsSafe(acts);
    assert PreviousSafe(Run(acts), s);
  }

  /** The counter is not monotonic: it falls exactly when a rollback restores an older binding. */
  lemma GenerationFallsOnlyOnRestore(sys: Sys, a: Act)
    ensures Do(sys, a).user.generation < sys.user.generation <==>
      && Enabled(sys, a) && a.Unwind? && sys.attempts[a.s].point.Undo?
      && var t := sys.attempts[a.s];
         t.bound.Some? && t.previous.Some? && Matches(sys.user, sys.alive, a.s, t.bound.value)
         && t.previous.value.generation < sys.user.generation
  {
  }

  // ---- The trace of every attempt ----

  predicate OkOut(p: Point) {
    || p == OkInFlight || p == Flushed || PhaseOf(p) == Active
    || p == Undo(false) || p == Reject(false) || p == Close || p == Failed
  }

  predicate IsUndone(p: Point) { p.Reject? || p == Close || p == Failed }

  /** How the trace so far tells where every attempt is. */
  ghost predicate Linked(sys: Sys) {
    && (forall i :: 0 <= i < |sys.trace| ==> EffectLinked(sys, sys.trace[i]))
    && (forall s :: s in sys.attempts ==> AttemptLinked(sys, s))
  }

  ghost predicate EffectLinked(sys: Sys, e: Effect) {
    match e
    case OkAttempted(s) => s in sys.attempts && OkOut(sys.attempts[s].point)
    case ErrSent(s) => s in sys.attempts && (sys.attempts[s].point == Close || sys.attempts[s].point == Failed)
    case WentActive(s) => s in sys.attempts && PhaseOf(sys.attempts[s].point) == Active
    case Undone(s) => s in sys.attempts && IsUndone(sys.attempts[s].point)
    case TransportClosed(s) => At(sys, s, Failed)
    case Restored(t, s) =>
      t in sys.attempts && sys.attempts[t].previous.Some? && sys.attempts[t].previous.value.session == s
    case _ => true
  }

  ghost predicate AttemptLinked(sys: Sys, s: SessionId)
    requires s in sys.attempts
  {
    var p := sys.attempts[s].point;
    && (PhaseOf(p) == Active ==> WentActive(s) in sys.trace)
    && (IsUndone(p) ==> Undone(s) in sys.trace)
    && (p == Failed ==> TransportClosed(s) in sys.trace)
  }

  /** No rejection after an acceptance was attempted; nothing irreversible before the session is active. */
  ghost predicate InOrder(trace: seq<Effect>) {
    && (forall i, j :: 0 <= i < j < |trace| && trace[j].ErrSent? ==> trace[i] != OkAttempted(trace[j].s))
    && (forall j :: 0 <= j < |trace| && (trace[j].PreviousClosed? || trace[j].AuthenticatedQueued?) ==>
          exists i :: 0 <= i < j && trace[i] == WentActive(trace[j].s))
  }

  lemma EmitKeepsOrder(trace: seq<Effect>, e: Effect)
    requires InOrder(trace)
    requires e.ErrSent? ==> OkAttempted(e.s) !in trace
    requires e.PreviousClosed? || e.AuthenticatedQueued? ==> WentActive(e.s) in trace
    ensures InOrder(trace + [e])
  {
    var t' := trace + [e];
    forall j | 0 <= j < |t'| && (t'[j].PreviousClosed? || t'[j].AuthenticatedQueued?)
      ensures exists i :: 0 <= i < j && t'[i] == WentActive(t'[j].s)
    {
      if j == |trace| {
        var i :| 0 <= i < |trace| && trace[i] == WentActive(e.s);
        assert t'[i] == WentActive(e.s);
      } else {
        var i :| 0 <= i < j && trace[i] == WentActive(trace[j].s);
        assert t'[i] == trace[i];
      }
    }
  }

  /** One attempt moves forward and the trace grows by `added`. */
  lemma MoveKeepsLinked(sys: Sys, s: SessionId, p: Point, added: seq<Effect>)
    requires Linked(sys) && s in sys.attempts
    requires var q := sys.attempts[s].point;
      && (OkOut(q) ==> OkOut(p)) && (PhaseOf(q) == Active ==> PhaseOf(p) == Active)
      && (IsUndone(q) ==> IsUndone(p)) && (q == Close ==> p == Failed) && q != Failed
      && (PhaseOf(p) == Active ==> PhaseOf(q) == Active || WentActive(s) in added)
      && (IsUndone(p) ==> IsUndone(q) || Undone(s) in added)
      && (p == Failed ==> TransportClosed(s) in added)
    requires forall e :: e in added ==> EffectLinked(AtPoint(sys, s, p), e)
    ensures Linked(AtPoint(sys, s, p).(trace := sys.trace + added))
  {
    var sys' := AtPoint(sys, s, p).(trace := sys.trace + added);
    forall i | 0 <= i < |sys'.trace| ensures EffectLinked(sys', sys'.trace[i]) {
      if i < |sys.trace| { assert EffectLinked(sys, sys.trace[i]); }
      else { assert sys'.trace[i] in added; }
    }
    forall t | t in sys'.attempts ensures AttemptLinked(sys', t) {
      assert AttemptLinked(sys, t);
    }
  }

  /** Changes that leave every attempt's progress and the trace alone. */
  lemma FrameKeepsLinked(sys: Sys, sys': Sys)
    requires Linked(sys) && sys'.trace == sys.trace && sys.attempts.Keys <= sys'.attempts.Keys
    requires forall s :: s in sys.attempts ==> sys'.attempts[s].previous == sys.attempts[s].previous
    requires forall s :: s in sys.attempts && sys'.attempts[s].point != sys.attempts[s].point ==>
      sys.attempts[s].point == Prepared && sys'.attempts[s].point == BoundUser
    requires forall s :: s in sys'.attempts && s !in sys.attempts ==> sys'.attempts[s].point == Captured
    ensures Linked(sys')
  {
    forall i | 0 <= i < |sys'.trace| ensures EffectLinked(sys', sys'.trace[i]) {
      assert EffectLinked(sys, sys.trace[i]);
    }
    forall t | t in sys'.attempts ensures AttemptLinked(sys', t) {
      if t in sys.attempts { assert AttemptLinked(sys, t); }
    }
  }

  ghost predicate Traced(sys: Sys) { Linked(sys) && InOrder(sys.trace) }

  /** A move that emits at most one effect, in order. */
  lemma MoveKeepsTraced(sys: Sys, s: SessionId, p: Point, e: Option<Effect>)
    requires Traced(sys) && s in sys.attempts
    requires var q := sys.attempts[s].point;
      && (OkOut(q) ==> OkOut(p)) && (PhaseOf(q) == Active ==> PhaseOf(p) == Active)
      && (IsUndone(q) ==> IsUndone(p)) && (q == Close ==> p == Failed) && q != Failed
      && (PhaseOf(p) == Active ==> PhaseOf(q) == Active || e == Some(WentActive(s)))
      && (IsUndone(p) ==> IsUndone(q) || e == Some(Undone(s)))
      && (p == Failed ==> e == Some(TransportClosed(s)))
    requires e.Some? ==> EffectLinked(AtPoint(sys, s, p), e.value)
    requires e.Some? && e.value.ErrSent? ==> e.value.s == s && !OkOut(sys.attempts[s].point)
    requires e.Some? && (e.value.PreviousClosed? || e.value.AuthenticatedQueued?) ==>
      e.value.s == s && PhaseOf(sys.attempts[s].point) == Active
    ensures Traced(AtPoint(sys, s, p).(trace := sys.trace + if e.Some? then [e.value] else []))
  {
    MoveKeepsLinked(sys, s, p, if e.Some? then [e.value] else []);
    assert AttemptLinked(sys, s);
    if e.None? {
      assert sys.trace + [] == sys.trace;
    } else {
      assert forall i :: 0 <= i < |sys.trace| ==> EffectLinked(sys, sys.trace[i]);
      EmitKeepsOrder(sys.trace, e.value);
    }
  }

  /** The state right after an undo, before a restore is recorded. */
  function AfterUndo(sys: Sys, s: SessionId, sendErr: bool): Sys
    requires s in sys.attempts
  {
    var a := sys.attempts[s];
    AtPoint(sys.(user := RolledBack(sys.user, sys.alive, s, a.bound, a.previous)), s, Reject(sendErr))
      .(trace := sys.trace + [Undone(s)])
  }

  lemma AfterUndoTraced(sys: Sys, s: SessionId, sendErr: bool)
    requires Traced(sys) && At(sys, s, Undo(sendErr))
    ensures Traced(AfterUndo(sys, s, sendErr))
  {
    var a := sys.attempts[s];
    var s1 := sys.(user := RolledBack(sys.user, sys.alive, s, a.bound, a.previous));
    FrameKeepsLinked(sys, s1);
    MoveKeepsTraced(s1, s, Reject(sendErr), Some(Undone(s)));
  }

  lemma UndoIsAfterUndo(sys: Sys, s: SessionId, sendErr: bool)
    requires At(sys, s, Undo(sendErr))
    ensures var previous, undone := sys.attempts[s].previous, AfterUndo(sys, s, sendErr);
      Do(sys, Unwind(s)) == undone
      || (previous.Some? && Do(sys, Unwind(s)) == Emit(undone, Restored(s, previous.value.session)))
  {
    assert sys.trace + [Undone(s)] + [] == sys.trace + [Undone(s)];
  }

  lemma UndoKeepsTraced(sys: Sys, s: SessionId, sendErr: bool)
    requires Traced(sys) && At(sys, s, Undo(sendErr))
    ensures Traced(Do(sys, Unwind(s)))
  {
    AfterUndoTraced(sys, s, sendErr);
    RestoreKeepsTraced(AfterUndo(sys, s, sendErr), s);
    UndoIsAfterUndo(sys, s, sendErr);
  }

  lemma RestoreKeepsTraced(sys: Sys, s: SessionId)
    requires Traced(sys) && s in sys.attempts
    ensures sys.attempts[s].previous.Some? ==> Traced(Emit(sys, Restored(s, sys.attempts[s].previous.value.session)))
  {
    if sys.attempts[s].previous.Some? {
      var e := Restored(s, sys.attempts[s].previous.value.session);
      EmitKeepsOrder(sys.trace, e);
      EmitKeepsLinked(sys, e);
    }
  }

  lemma EmitKeepsLinked(sys: Sys, e: Effect)
    requires Linked(sys) && EffectLinked(sys, e)
    ensures Linked(Emit(sys, e))
  {
    var sys' := Emit(sys, e);
    forall i | 0 <= i < |sys'.trace| ensures EffectLinked(sys', sys'.trace[i]) {
      if i < |sys.trace| { assert EffectLinked(sys, sys.trace[i]); }
    }
    forall t | t in sys'.attempts ensures AttemptLinked(sys', t) {
      assert AttemptLinked(sys, t);
    }
  }

  /** The effect, if any, of a step other than undoing a binding. */
  function EffectOf(sys: Sys, a: Act): Option<Effect>
    requires Enabled(sys, a) && !a.Begin? && !a.KickUser? && !a.GiveUp? && !a.DropSession?
  {
    match a
    case SendOk(s, expired) => if expired then None else Some(OkAttempted(s))
    case ActivationDone(s, ok) => if ok then Some(WentActive(s)) else None
    case ClosePrevious(s) =>
      var p := sys.attempts[s].previous;
      if p.Some? && p.value.session != s then Some(PreviousClosed(s, p.value.session)) else None
    case Publish(s) => Some(AuthenticatedQueued(s))
    case Unwind(s) =>
      if sys.attempts[s].point == Reject(true) then Some(ErrSent(s))
      else if sys.attempts[s].point == Close then Some(TransportClosed(s)) else None
    case _ => None
  }

  predicate LeavesTraceAlone(a: Act) {
    a.Begin? || a.KickUser? || a.GiveUp? || a.DropSession? || (a.BindSession? && !a.expired)
  }

  lemma MoveStepKeepsTraced(sys: Sys, a: Act)
    requires Traced(sys) && Enabled(sys, a) && !LeavesTraceAlone(a)
    requires !(a.Unwind? && sys.attempts[a.s].point.Undo?)
    ensures Traced(Do(sys, a))
  {
    MoveKeepsTraced(sys, a.s, Do(sys, a).attempts[a.s].point, EffectOf(sys, a));
    assert sys.trace + [] == sys.trace;
  }

  lemma BeginKeepsTraced(sys: Sys, s: SessionId)
    requires Traced(sys)
    ensures Traced(Do(sys, Begin(s)))
  {
    FrameKeepsLinked(sys, Do(sys, Begin(s)));
  }

  lemma BindKeepsTraced(sys: Sys, s: SessionId)
    requires Traced(sys)
    ensures Traced(Do(sys, BindSession(s, false)))
  {
    FrameKeepsLinked(sys, Do(sys, BindSession(s, false)));
  }

  lemma UserStepKeepsTraced(sys: Sys, a: Act)
    requires Traced(sys) && (a.KickUser? || a.GiveUp? || a.DropSession?)
    ensures Traced(Do(sys, a))
  {
    FrameKeepsLinked(sys, Do(sys, a));
  }

  lemma DoKeepsTraced(sys: Sys, a: Act)
    requires Traced(sys)
    ensures Traced(Do(sys, a))
  {
    if a.Begin? {
      BeginKeepsTraced(sys, a.s);
    } else if a.BindSession? && !a.expired {
      BindKeepsTraced(sys, a.s);
    } else if a.KickUser? || a.GiveUp? || a.DropSession? {
      UserStepKeepsTraced(sys, a);
    } else if Enabled(sys, a) {
      if a.Unwind? && sys.attempts[a.s].point.Undo? {
        UndoKeepsTraced(sys, a.s, sys.attempts[a.s].point.sendErr);
      } else {
        MoveStepKeepsTraced(sys, a);
      }
    }
  }

  lemma {:induction false} EveryRunIsTraced(acts: seq<Act>)
    ensures Traced(Run(acts))
  {
    if acts == [] {
      assert Run(acts) == INITIAL;
    } else {
      var sys := Run(acts[..|acts| - 1]);
      EveryRunIsTraced(acts[..|acts| - 1]);
      EveryRunIsSafe(acts[..|acts| - 1]);
      DoKeepsTraced(sys, acts[|acts| - 1]);
      assert Run(acts) == Do(sys, acts[|acts| - 1]);
    }
  }

  // ---- Every attempt has done what its point says ----

  predicate OkSentBy(p: Point) {
    p == OkInFlight || p == Flushed || PhaseOf(p) == Active || p == Undo(false) || p == Reject(false)
  }

  predicate HandedOver(p: Point) { p == Handed || p == Published }

  predicate Rejected(p: Point) { p == Close || p == Failed }

  ghost predicate AttemptDone(s: SessionId, a: Attempt, trace: seq<Effect>) {
    && (OkSentBy(a.point) ==> OkAttempted(s) in trace)
    && (Rejected(a.point) ==> OkAttempted(s) in trace || ErrSent(s) in trace)
    && (HandedOver(a.point) && a.previous.Some? ==> PreviousClosed(s, a.previous.value.session) in trace)
    && (a.point == Published ==> AuthenticatedQueued(s) in trace)
  }

  predicate EffectMeant(sys: Sys, e: Effect) {
    match e
    case ErrSent(s) => OkAttempted(s) !in sys.trace
    case PreviousClosed(s, t) =>
      && s in sys.attempts && HandedOver(sys.attempts[s].point)
      && sys.attempts[s].previous.Some? && sys.attempts[s].previous.value.session == t
    case AuthenticatedQueued(s) => At(sys, s, Published)
    case _ => true
  }

  ghost predicate Accounted(sys: Sys) {
    && (forall s :: s in sys.attempts ==> AttemptDone(s, sys.attempts[s], sys.trace))
    && (forall e :: e in sys.trace ==> EffectMeant(sys, e))
  }

  lemma TraceOnlyGrows(sys: Sys, a: Act)
    ensures sys.trace <= Do(sys, a).trace
  {
  }

  predicate HasAttempt(a: Act) { !a.KickUser? && !a.GiveUp? && !a.DropSession? }

  lemma OthersUntouched(sys: Sys, a: Act, s: SessionId)
    requires s in sys.attempts && (HasAttempt(a) ==> a.s != s)
    ensures s in Do(sys, a).attempts && Do(sys, a).attempts[s] == sys.attempts[s]
  {}

  lemma UnwindDone(sys: Sys, s: SessionId)
    requires Enabled(sys, Unwind(s)) && AttemptDone(s, sys.attempts[s], sys.trace)
    ensures AttemptDone(s, Do(sys, Unwind(s)).attempts[s], Do(sys, Unwind(s)).trace)
  {
    TraceOnlyGrows(sys, Unwind(s));
  }

  /** What the acting attempt still owes when it moves. */
  lemma OwnStepDone(sys: Sys, a: Act)
    requires Enabled(sys, a) && Safe(sys) && HasAttempt(a)
    requires !a.Begin? ==> AttemptDone(a.s, sys.attempts[a.s], sys.trace)
    ensures AttemptDone(a.s, Do(sys, a).attempts[a.s], Do(sys, a).trace)
  {
    if a.Unwind? {
      UnwindDone(sys, a.s);
    } else {
      TraceOnlyGrows(sys, a);
      if a.ClosePrevious? { assert PreviousSafe(sys, a.s); }
    }
  }

  lemma LinkedIn(sys: Sys, e: Effect)
    requires Linked(sys) && e in sys.trace
    ensures EffectLinked(sys, e)
  {
    var i :| 0 <= i < |sys.trace| && sys.trace[i] == e;
    assert EffectLinked(sys, sys.trace[i]);
  }

  lemma HandedStaysHanded(sys: Sys, a: Act, s: SessionId)
    requires s in sys.attempts && HandedOver(sys.attempts[s].point)
    ensures s in Do(sys, a).attempts && Do(sys, a).attempts[s].previous == sys.attempts[s].previous
    ensures HandedOver(Do(sys, a).attempts[s].point) && (At(sys, s, Published) ==> At(Do(sys, a), s, Published))
  {}

  lemma RejectedSendsNoOk(sys: Sys, a: Act, s: SessionId)
    requires s in sys.attempts && Rejected(sys.attempts[s].point) && OkAttempted(s) !in sys.trace
    ensures OkAttempted(s) !in Do(sys, a).trace
  {}

  lemma EffectStaysMeant(sys: Sys, a: Act, e: Effect)
    requires Enabled(sys, a) && Linked(sys) && e in sys.trace && EffectMeant(sys, e)
    ensures EffectMeant(Do(sys, a), e)
  {
    LinkedIn(sys, e);
    match e {
      case ErrSent(s) => RejectedSendsNoOk(sys, a, s);
      case PreviousClosed(s, _) => HandedStaysHanded(sys, a, s);
      case AuthenticatedQueued(s) => HandedStaysHanded(sys, a, s);
      case _ =>
    }
  }

  lemma NewEffectMeant(sys: Sys, a: Act, e: Effect)
    requires Enabled(sys, a) && Linked(sys) && e in Do(sys, a).trace && e !in sys.trace
    ensures EffectMeant(Do(sys, a), e)
  {
    if a.Unwind? && OkAttempted(a.s) in sys.trace { LinkedIn(sys, OkAttempted(a.s)); }
  }

  lemma AttemptStaysDone(sys: Sys, a: Act, s: SessionId)
    requires Accounted(sys) && Safe(sys) && Enabled(sys, a) && s in Do(sys, a).attempts
    ensures AttemptDone(s, Do(sys, a).attempts[s], Do(sys, a).trace)
  {
    TraceOnlyGrows(sys, a);
    if HasAttempt(a) && a.s == s { OwnStepDone(sys, a); } else { OthersUntouched(sys, a, s); }
  }

  lemma DoKeepsAccounted(sys: Sys, a: Act)
    requires Accounted(sys) && Safe(sys) && Linked(sys) && Enabled(sys, a)
    ensures Accounted(Do(sys, a))
  {
    var sys' := Do(sys, a);
    forall s | s in sys'.attempts ensures AttemptDone(s, sys'.attempts[s], sys'.trace) {
      AttemptStaysDone(sys, a, s);
    }
    forall e | e in sys'.trace ensures EffectMeant(sys', e) {
      if e in sys.trace { EffectStaysMeant(sys, a, e); } else { NewEffectMeant(sys, a, e); }
    }
  }

  lemma {:induction false} EveryRunIsAccounted(acts: seq<Act>)
    ensures Accounted(Run(acts))
  {
    if acts != [] {
      var init := acts[..|acts| - 1];
      EveryRunIsAccounted(init);
      EveryRunIsSafe(init);
      EveryRunIsTraced(init);
      if Enabled(Run(init), acts[|acts| - 1]) { DoKeepsAccounted(Run(init), acts[|acts| - 1]); }
    }
  }

  /** What the trace says of an attempt: a replaced session is closed once the attempt is handed over, and
      nobody else's; `UserAuthenticated` is queued exactly by publishing; a failed attempt was rejected
      exactly if no acceptance was attempted; and it went active and closed its transport by where it is. */
  ghost predicate Told(sys: Sys, s: SessionId)
    requires s in sys.attempts
  {
    var a := sys.attempts[s];
    && (forall t :: PreviousClosed(s, t) in sys.trace <==>
          (a.point == Handed || a.point == Published) && a.previous.Some? && a.previous.value.session == t != s)
    && (AuthenticatedQueued(s) in sys.trace <==> a.point == Published)
    && (a.point == Close || a.point == Failed ==> (ErrSent(s) in sys.trace <==> OkAttempted(s) !in sys.trace))
    && (WentActive(s) in sys.trace <==> a.point == Activated || a.point == Handed || a.point == Published)
    && (TransportClosed(s) in sys.trace <==> a.point == Failed)
  }

  /** The trace of every attempt in every interleaving: `Authenticate(Err)` never follows an attempted
      `Authenticate(Ok)`; the replaced session is closed and `UserAuthenticated` queued only after the
      session went active; and every attempt has done exactly what its point says. */
  lemma AuthenticationTrace(acts: seq<Act>)
    ensures InOrder(Run(acts).trace)
    ensures forall s :: s in Run(acts).attempts ==> Told(Run(acts), s)
  {
    EveryRunIsTraced(acts);
    EveryRunIsAccounted(acts);
    EveryRunIsSafe(acts);
    var sys := Run(acts);
    forall s | s in sys.attempts ensures Told(sys, s) {
      AttemptIsTold(sys, s);
    }
  }

  lemma AttemptIsTold(sys: Sys, s: SessionId)
    requires Safe(sys) && Linked(sys) && Accounted(sys) && s in sys.attempts
    ensures Told(sys, s)
  {
    assert AttemptLinked(sys, s) && AttemptDone(s, sys.attempts[s], sys.trace) && PreviousSafe(sys, s);
    forall e | e in sys.trace ensures EffectLinked(sys, e) && EffectMeant(sys, e) { LinkedIn(sys, e); }
    forall t ensures PreviousClosed(s, t) in sys.trace ==> EffectMeant(sys, PreviousClosed(s, t)) {}
  }

  // ---- The path every attempt takes ----

  /** The steps of an attempt that succeeds. */
  function Forward(s: SessionId): seq<Act> {
    [Begin(s), Snapshot(s, true), BindSession(s, false), SendOk(s, false),
     FlushDone(s, true), ActivationDone(s, true), ClosePrevious(s), Publish(s)]
  }

  const FORWARD_POINTS := [Captured, Prepared, BoundUser, OkInFlight, Flushed, Activated, Handed, Published]

  /** The step that fails after the first `k`. */
  function FailingStep(s: SessionId, k: nat): Act
    requires 1 <= k <= 5
  {
    [Snapshot(s, false), BindSession(s, true), SendOk(s, true), FlushDone(s, false), ActivationDone(s, false)][k - 1]
  }

  function Unwinds(s: SessionId, n: nat): seq<Act> { if n == 0 then [] else Unwinds(s, n - 1) + [Unwind(s)] }

  predicate IsPath(k: nat, unwound: Option<nat>) {
    1 <= k <= 8 && (unwound.Some? ==> k <= 5 && unwound.value <= 3)
  }

  /** The first `k` steps, and after a failure that many rollback steps. */
  function Path(s: SessionId, k: nat, unwound: Option<nat>): seq<Act>
    requires IsPath(k, unwound)
  {
    Forward(s)[..k] + if unwound.None? then [] else [FailingStep(s, k)] + Unwinds(s, unwound.value)
  }

  /** A rejection is due only if no acceptance was attempted: the first three steps come before it. */
  function PointAfter(k: nat, unwound: Option<nat>): Point
    requires IsPath(k, unwound)
  {
    if unwound.None? then FORWARD_POINTS[k - 1] else [Undo(k <= 3), Reject(k <= 3), Close, Failed][unwound.value]
  }

  /** The steps attempt `s` has taken. */
  function Taken(acts: seq<Act>, s: SessionId): seq<Act> {
    if acts == [] then []
    else
      var init, a := acts[..|acts| - 1], acts[|acts| - 1];
      Taken(init, s) + if HasAttempt(a) && a.s == s && Enabled(Run(init), a) then [a] else []
  }

  lemma ForwardStep(sys: Sys, a: Act, k: nat)
    requires HasAttempt(a) && Enabled(sys, a) && a.s in sys.attempts && IsPath(k, None)
    requires sys.attempts[a.s].point == PointAfter(k, None)
    ensures k < 8
    ensures a == Forward(a.s)[k] || (k <= 5 && a == FailingStep(a.s, k))
    ensures Do(sys, a).attempts[a.s].point ==
      if a == Forward(a.s)[k] then PointAfter(k + 1, None) else PointAfter(k, Some(0))
  {}

  lemma BackwardStep(sys: Sys, a: Act, k: nat, n: nat)
    requires HasAttempt(a) && Enabled(sys, a) && a.s in sys.attempts && IsPath(k, Some(n))
    requires sys.attempts[a.s].point == PointAfter(k, Some(n))
    ensures n < 3 && a == Unwind(a.s) && Do(sys, a).attempts[a.s].point == PointAfter(k, Some(n + 1))
  {}

  lemma PathGrows(s: SessionId, k: nat, n: nat)
    requires 1 <= k
    ensures k < 8 ==> Path(s, k + 1, None) == Path(s, k, None) + [Forward(s)[k]]
    ensures k <= 5 ==> Path(s, k, Some(0)) == Path(s, k, None) + [FailingStep(s, k)]
    ensures k <= 5 && n < 3 ==> Path(s, k, Some(n + 1)) == Path(s, k, Some(n)) + [Unwind(s)]
  {}

  /** Every attempt of every interleaving takes one path: the steps of a success in order, or some of them, one
      failing step and the rollback; and it is at the point that path leads to. */
  lemma {:induction false} EveryAttemptTakesOnePath(acts: seq<Act>, s: SessionId)
    returns (k: nat, unwound: Option<nat>)
    ensures s !in Run(acts).attempts ==> Taken(acts, s) == []
    ensures s in Run(acts).attempts ==>
      && IsPath(k, unwound) && Taken(acts, s) == Path(s, k, unwound)
      && Run(acts).attempts[s].point == PointAfter(k, unwound)
  {
    k, unwound := 0, None;
    if acts != [] {
      var init, a := acts[..|acts| - 1], acts[|acts| - 1];
      var sys := Run(init);
      k, unwound := EveryAttemptTakesOnePath(init, s);
      if !(HasAttempt(a) && a.s == s && Enabled(sys, a)) {
        OthersKeepPoint(sys, a, s);
      } else if s !in sys.attempts {
        k, unwound := 1, None;
        assert Path(s, 1, None) == [Begin(s)];
      } else {
        k, unwound := NextOnPath(sys, a, k, unwound);
      }
    }
  }

  lemma OthersKeepPoint(sys: Sys, a: Act, s: SessionId)
    requires !(HasAttempt(a) && a.s == s && Enabled(sys, a))
    ensures s in Do(sys, a).attempts <==> s in sys.attempts
    ensures s in sys.attempts ==> Do(sys, a).attempts[s].point == sys.attempts[s].point
  {}

  lemma NextOnPath(sys: Sys, a: Act, k: nat, unwound: Option<nat>) returns (k': nat, unwound': Option<nat>)
    requires HasAttempt(a) && Enabled(sys, a) && a.s in sys.attempts && IsPath(k, unwound)
    requires sys.attempts[a.s].point == PointAfter(k, unwound)
    ensures IsPath(k', unwound') && Path(a.s, k', unwound') == Path(a.s, k, unwound) + [a]
    ensures Do(sys, a).attempts[a.s].point == PointAfter(k', unwound')
  {
    PathGrows(a.s, k, if unwound.Some? then unwound.value else 0);
    if unwound.Some? {
      BackwardStep(sys, a, k, unwound.value);
      k', unwound' := k, Some(unwound.value + 1);
    } else {
      ForwardStep(sys, a, k);
      if a == Forward(a.s)[k] { k', unwound' := k + 1, None; } else { k', unwound' := k, Some(0); }
    }
  }

  // ---- A failed session and the binding ----

  ghost predicate RestoredSince(trace: seq<Effect>, i: nat, s: SessionId) {
    exists j :: i < j < |trace| && trace[j].Restored? && trace[j].target == s
  }

  ghost predicate StaysUnbound(sys: Sys) {
    forall i :: 0 <= i < |sys.trace| && sys.trace[i].Undone? && sys.user.session == Some(sys.trace[i].s) ==>
      RestoredSince(sys.trace, i, sys.trace[i].s)
  }

  /** The bound session changes only by binding a fresh one or by a recorded restore. */
  lemma NewlyBound(sys: Sys, a: Act, s: SessionId)
    requires Safe(sys) && Do(sys, a).user.session == Some(s) && sys.user.session != Some(s)
    ensures At(sys, s, Prepared) || Do(sys, a).trace == sys.trace + [Undone(a.s), Restored(a.s, s)]
  {
  }

  lemma DoKeepsUnbound(sys: Sys, a: Act)
    requires Safe(sys) && Linked(sys) && StaysUnbound(sys)
    ensures StaysUnbound(Do(sys, a))
  {
    var sys' := Do(sys, a);
    var n := |sys.trace|;
    TraceOnlyGrows(sys, a);
    forall i | 0 <= i < |sys'.trace| && sys'.trace[i].Undone? && sys'.user.session == Some(sys'.trace[i].s)
      ensures RestoredSince(sys'.trace, i, sys'.trace[i].s)
    {
      var s := sys'.trace[i].s;
      if i >= n {
        UndoLeavesUnbound(sys, a, i);
      } else if sys.user.session == Some(s) {
        assert sys.trace[i] == sys'.trace[i];
        var j :| i < j < n && sys.trace[j].Restored? && sys.trace[j].target == s;
        assert sys'.trace[j] == sys.trace[j];
      } else {
        assert sys.trace[i] == sys'.trace[i] && EffectLinked(sys, sys.trace[i]);
        NewlyBound(sys, a, s);
        assert sys'.trace[n + 1] == Restored(a.s, s);
      }
    }
  }

  lemma UndoLeavesUnbound(sys: Sys, a: Act, i: nat)
    requires Safe(sys) && |sys.trace| <= i < |Do(sys, a).trace| && Do(sys, a).trace[i].Undone?
    ensures Do(sys, a).user.session != Some(Do(sys, a).trace[i].s)
  {
    assert PreviousSafe(sys, a.s);
  }

  lemma {:induction false} EveryRunStaysUnbound(acts: seq<Act>)
    ensures StaysUnbound(Run(acts))
  {
    if acts == [] {
      assert Run(acts) == INITIAL;
    } else {
      var sys := Run(acts[..|acts| - 1]);
      EveryRunStaysUnbound(acts[..|acts| - 1]);
      EveryRunIsSafe(acts[..|acts| - 1]);
      EveryRunIsTraced(acts[..|acts| - 1]);
      DoKeepsUnbound(sys, acts[|acts| - 1]);
      assert Run(acts) == Do(sys, acts[|acts| - 1]);
    }
  }

  /** This step undoes the binding of attempt `a.s`, which is still the bound session. */
  predicate Unbinds(sys: Sys, a: Act) {
    && Enabled(sys, a) && a.Unwind? && sys.attempts[a.s].point.Undo? && sys.attempts[a.s].bound.Some?
    && Matches(sys.user, sys.alive, a.s, sys.attempts[a.s].bound.value)
  }

  /** The restoring branch: the undone attempt had captured `s`. */
  predicate Restores(sys: Sys, a: Act, s: SessionId) {
    Unbinds(sys, a) && sys.attempts[a.s].previous.Some? && sys.attempts[a.s].previous.value.session == s
  }

  /** The steps that write the binding, by their guards. */
  predicate Rebinds(sys: Sys, a: Act) {
    match a
    case BindSession(_, expired) => Enabled(sys, a) && !expired
    case KickUser => true
    case GiveUp(s, g) => Matches(sys.user, sys.alive, s, g)
    case Unwind(_) => Unbinds(sys, a)
    case _ => false
  }

  lemma BoundUntilRebound(sys: Sys, a: Act)
    requires !Rebinds(sys, a)
    ensures Do(sys, a).user == sys.user
  {}

  /** One step binds an undone session exactly when it restores it, or leaves it bound. */
  lemma UndoneBoundStep(sys: Sys, a: Act, s: SessionId)
    requires Safe(sys) && s in sys.attempts && IsUndone(sys.attempts[s].point)
    ensures Do(sys, a).user.session == Some(s) <==>
      Restores(sys, a, s) || (sys.user.session == Some(s) && !Rebinds(sys, a))
  {
    if !Rebinds(sys, a) {
      BoundUntilRebound(sys, a);
    } else {
      RebindingTarget(sys, a);
    }
  }

  lemma RebindingTarget(sys: Sys, a: Act)
    requires Rebinds(sys, a)
    ensures Do(sys, a).user.session ==
      if a.BindSession? then Some(a.s)
      else if Unbinds(sys, a) && sys.attempts[a.s].previous.Some? then Some(sys.attempts[a.s].previous.value.session)
      else None
  {}

  predicate RebindsAt(acts: seq<Act>, j: nat)
    requires j < |acts|
  {
    Rebinds(Run(acts[..j]), acts[j])
  }

  predicate RestoresAt(acts: seq<Act>, i: nat, s: SessionId)
    requires i < |acts|
  {
    Restores(Run(acts[..i]), acts[i], s)
  }

  lemma AtPrefix(acts: seq<Act>, n: nat, j: nat, s: SessionId)
    requires j < n <= |acts|
    ensures RebindsAt(acts[..n], j) == RebindsAt(acts, j) && RestoresAt(acts[..n], j, s) == RestoresAt(acts, j, s)
  {
    assert acts[..n][..j] == acts[..j];
  }

  /** Step `i` restores `s`, and nothing writes the binding after it. */
  ghost predicate RestoredLast(acts: seq<Act>, s: SessionId, i: nat)
    requires i < |acts|
  {
    RestoresAt(acts, i, s) && forall j :: i < j < |acts| ==> !RebindsAt(acts, j)
  }

  ghost predicate EndsRestored(acts: seq<Act>, s: SessionId) {
    exists i :: 0 <= i < |acts| && RestoredLast(acts, s, i)
  }

  lemma EndsRestoredStep(acts: seq<Act>, s: SessionId)
    requires acts != []
    ensures var sys, a := Run(acts[..|acts| - 1]), acts[|acts| - 1];
      EndsRestored(acts, s) <==> Restores(sys, a, s) || (EndsRestored(acts[..|acts| - 1], s) && !Rebinds(sys, a))
  {
    var n := |acts| - 1;
    assert RebindsAt(acts, n) == Rebinds(Run(acts[..n]), acts[n]);
    assert RestoresAt(acts, n, s) == Restores(Run(acts[..n]), acts[n], s);
    if RestoresAt(acts, n, s) { assert RestoredLast(acts, s, n); }
    forall i | 0 <= i < n ensures RestoredLast(acts, s, i) <==> RestoredLast(acts[..n], s, i) && !RebindsAt(acts, n) {
      RestoredLastPrefix(acts, s, i);
    }
  }

  lemma RestoredLastPrefix(acts: seq<Act>, s: SessionId, i: nat)
    requires i < |acts| - 1
    ensures RestoredLast(acts, s, i) <==> RestoredLast(acts[..|acts| - 1], s, i) && !RebindsAt(acts, |acts| - 1)
  {
    var n := |acts| - 1;
    forall j | 0 <= j < n ensures RebindsAt(acts[..n], j) == RebindsAt(acts, j) { AtPrefix(acts, n, j, s); }
    AtPrefix(acts, n, i, s);
  }

  /** A session restored last is bound, undone or not. */
  lemma {:induction false} RestoredLastIsBound(acts: seq<Act>, s: SessionId)
    requires EndsRestored(acts, s)
    ensures Run(acts).user.session == Some(s)
  {
    var sys, a := Run(acts[..|acts| - 1]), acts[|acts| - 1];
    EndsRestoredStep(acts, s);
    if Restores(sys, a, s) {
      RebindingTarget(sys, a);
    } else {
      RestoredLastIsBound(acts[..|acts| - 1], s);
      BoundUntilRebound(sys, a);
    }
    assert Run(acts) == Do(sys, a);
  }

  /** The step that undoes `s` rebinds if `s` is bound, and does not restore it. */
  lemma OwnUndo(sys: Sys, s: SessionId)
    requires Safe(sys) && s in sys.attempts && sys.attempts[s].point.Undo?
    ensures sys.user.session == Some(s) ==> Rebinds(sys, Unwind(s))
    ensures !Restores(sys, Unwind(s), s) && Do(sys, Unwind(s)).user.session != Some(s)
  {
    assert PreviousSafe(sys, s);
    if Rebinds(sys, Unwind(s)) { RebindingTarget(sys, Unwind(s)); } else { BoundUntilRebound(sys, Unwind(s)); }
  }

  lemma BecomesUndone(sys: Sys, a: Act, s: SessionId)
    requires s in Do(sys, a).attempts && IsUndone(Do(sys, a).attempts[s].point)
    ensures s in sys.attempts && (IsUndone(sys.attempts[s].point) || (a == Unwind(s) && sys.attempts[s].point.Undo?))
  {}

  /** Exactly when a failed session is bound. In every run, once its rollback has undone the binding, it is
      bound if and only if the undoing of another attempt that had captured it, still bound at that
      moment, was the last step to write the binding. Without such a step it is not bound, at the end of
      its run or ever after. */
  lemma {:induction false} FailedSessionBoundIff(acts: seq<Act>, s: SessionId)
    requires s in Run(acts).attempts && IsUndone(Run(acts).attempts[s].point)
    ensures Run(acts).user.session == Some(s) <==> EndsRestored(acts, s)
  {
    if acts != [] {
      var init, a := acts[..|acts| - 1], acts[|acts| - 1];
      var sys := Run(init);
      EveryRunIsSafe(init);
      assert Run(acts) == Do(sys, a);
      BecomesUndone(sys, a, s);
      EndsRestoredStep(acts, s);
      if IsUndone(sys.attempts[s].point) {
        FailedSessionBoundIff(init, s);
        UndoneBoundStep(sys, a, s);
      } else {
        OwnUndo(sys, s);
        if EndsRestored(init, s) { RestoredLastIsBound(init, s); }
      }
    }
  }

  // ---- Witnesses ----

  /** A whole connection up to its binding. */
  function Connect(s: SessionId): seq<Act> { [Begin(s), Snapshot(s, true), BindSession(s, false)] }

  /** The response deadline passes right after binding, and the binding is undone. */
  function FailAndUndo(s: SessionId): seq<Act> { [SendOk(s, true), Unwind(s)] }

  lemma RunStep(acts: seq<Act>, a: Act)
    ensures Run(acts + [a]) == Do(Run(acts), a)
  {
    assert (acts + [a])[..|acts|] == acts;
  }

  lemma ConnectBinds(acts: seq<Act>, s: SessionId)
    requires s !in Run(acts).attempts
    ensures var sys := Run(acts);
      Run(acts + Connect(s)) == Sys(SetSession(sys.user, s), sys.alive + {s},
        sys.attempts[s := Attempt(BoundUser, CurrentOrigin(sys.user, sys.alive), Some(sys.user.generation + 1))],
        sys.trace)
  {
    var a1 := acts + [Begin(s)];
    var a2 := a1 + [Snapshot(s, true)];
    RunStep(acts, Begin(s));
    RunStep(a1, Snapshot(s, true));
    RunStep(a2, BindSession(s, false));
    assert acts + Connect(s) == a2 + [BindSession(s, false)];
  }

  lemma FailUndoes(acts: seq<Act>, s: SessionId)
    requires At(Run(acts), s, BoundUser)
    ensures var sys := Run(acts);
      Run(acts + FailAndUndo(s)) == AtPoint(UndoBinding(AtPoint(sys, s, Undo(true)), s), s, Reject(true))
  {
    var a1 := acts + [SendOk(s, true)];
    RunStep(acts, SendOk(s, true));
    RunStep(a1, Unwind(s));
    assert acts + FailAndUndo(s) == a1 + [Unwind(s)];
  }

  lemma TwoConnected()
    ensures Run(Connect(1) + Connect(2)) == Sys(Rebound(2, Some(2)), {1, 2},
      map[1 := Attempt(BoundUser, None, Some(1)), 2 := Attempt(BoundUser, Some(Origin(1, 1)), Some(2))], [])
  {
    ConnectBinds([], 1);
    assert [] + Connect(1) == Connect(1);
    ConnectBinds(Connect(1), 2);
  }

  /** Generations are reused: session 2 fails with generation 2, the counter returns to 1, and session
      3 is then bound with generation 2. Session 2's late clear still leaves session 3 alone. */
  lemma GenerationsRepeat() returns (acts: seq<Act>)
    ensures var sys := Run(acts);
      && 2 in sys.attempts && 3 in sys.attempts && sys.attempts[2].bound == sys.attempts[3].bound == Some(2)
      && sys.user.session == Some(3) && Do(sys, GiveUp(2, 2)).user == sys.user
  {
    TwoConnected();
    acts := Connect(1) + Connect(2);
    FailUndoes(acts, 2);
    acts := acts + FailAndUndo(2);
    assert Run(acts).user == Rebound(1, Some(1));
    ConnectBinds(acts, 3);
    acts := acts + Connect(3);
  }

  /** A failed session can be bound again: session 3 captures session 2 before 2's rollback, binds after
      it, fails too, and restores session 2, whose own run is over as far as the binding goes. */
  lemma FailedSessionReboundByAnother() returns (acts: seq<Act>)
    ensures var sys := Run(acts);
      2 in sys.attempts && IsUndone(sys.attempts[2].point) && sys.user.session == Some(2)
  {
    TwoConnected();
    acts := Connect(1) + Connect(2);
    RunStep(acts, Begin(3));
    acts := acts + [Begin(3)];
    FailUndoes(acts, 2);
    acts := acts + FailAndUndo(2);
    var sys := Run(acts);
    assert sys.user == Rebound(1, Some(1)) && sys.attempts[3] == Attempt(Captured, Some(Origin(2, 2)), None);
    FinishAndFail(acts, 3);
    acts := acts + [Snapshot(3, true), BindSession(3, false)] + FailAndUndo(3);
  }

  lemma FinishAndFail(acts: seq<Act>, s: SessionId)
    requires At(Run(acts), s, Captured) && s in Run(acts).alive && Run(acts).attempts[s].previous.Some?
    ensures var sys := Run(acts);
      var sys' := Run(acts + [Snapshot(s, true), BindSession(s, false)] + FailAndUndo(s));
      && sys'.user.session == Some(sys.attempts[s].previous.value.session)
      && forall t :: t in sys.attempts && t != s ==> t in sys'.attempts && sys'.attempts[t] == sys.attempts[t]
  {
    var a1 := acts + [Snapshot(s, true)];
    RunStep(acts, Snapshot(s, true));
    RunStep(a1, BindSession(s, false));
    assert acts + [Snapshot(s, true), BindSession(s, false)] == a1 + [BindSession(s, false)];
    FailUndoes(acts + [Snapshot(s, true), BindSession(s, false)], s);
  }
}
