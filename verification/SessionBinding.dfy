/** A user's current transport: one session and one generation, changed together under one lock. */
module SessionBinding {
  import opened Options

  type SessionId = nat
  type Mark = nat

  /** The session a command came from, with the generation that session was bound with. */
  datatype Origin = Origin(session: SessionId, generation: nat)

  /** The binding, and the disconnect-grace fields every binding change resets. */
  datatype Binding = Binding(
    generation: nat, session: Option<SessionId>, mark: Option<Mark>, deadlineMs: nat, waitNotified: bool)

  const UNBOUND := Binding(0, None, None, 0, false)

  function Rebound(generation: nat, session: Option<SessionId>): Binding {
    Binding(generation, session, None, 0, false)
  }

  function SetSession(b: Binding, s: SessionId): Binding { Rebound(b.generation + 1, Some(s)) }

  function ClearSession(b: Binding): Binding { Rebound(b.generation + 1, None) }

  /** `alive` holds the sessions whose weak references still upgrade. */
  predicate Matches(b: Binding, alive: set<SessionId>, s: SessionId, generation: nat) {
    b.generation == generation && b.session == Some(s) && s in alive
  }

  function ClearIfMatches(b: Binding, alive: set<SessionId>, s: SessionId, generation: nat): Binding {
    if Matches(b, alive, s, generation) then ClearSession(b) else b
  }

  /** Restores `to`, generation included, if the failed session is still the bound one. */
  function ReplaceIfMatches(b: Binding, alive: set<SessionId>, s: SessionId, generation: nat, to: Origin): Binding {
    if Matches(b, alive, s, generation) then Rebound(to.generation, Some(to.session)) else b
  }

  function CurrentOrigin(b: Binding, alive: set<SessionId>): Option<Origin> {
    if b.session.Some? && b.session.value in alive then Some(Origin(b.session.value, b.generation)) else None
  }

  predicate OriginIsCurrent(snapshotGeneration: nat, currentGeneration: nat, sameSession: bool) {
    snapshotGeneration == currentGeneration && sameSession
  }

  predicate IsCurrent(b: Binding, alive: set<SessionId>, o: Origin) {
    o.session in alive && OriginIsCurrent(o.generation, b.generation, b.session == Some(o.session))
  }

  class User {
    var generation: nat
    var session: Option<SessionId>
    var dangleMark: Option<Mark>
    var dangleDeadlineMs: nat
    var reconnectWaitNotified: bool

    ghost function View(): Binding reads this {
      Binding(generation, session, dangleMark, dangleDeadlineMs, reconnectWaitNotified)
    }

    constructor ()
      ensures View() == UNBOUND
    {
      generation, session, dangleMark, dangleDeadlineMs, reconnectWaitNotified := 0, None, None, 0, false;
    }

    /** No mark, no deadline, and nobody told of a wait. */
    predicate GraceIsReset() reads this { dangleMark == None && dangleDeadlineMs == 0 && !reconnectWaitNotified }

    method ResetGrace()
      modifies this`dangleMark, this`dangleDeadlineMs, this`reconnectWaitNotified
      ensures GraceIsReset()
    {
      dangleMark, dangleDeadlineMs, reconnectWaitNotified := None, 0, false;
    }

    method SetCurrent(s: SessionId) returns (bound: nat)
      modifies this
      ensures View() == SetSession(old(View()), s) && bound == generation
      ensures generation == old(generation) + 1 && session == Some(s) && GraceIsReset()
    {
      generation, session := generation + 1, Some(s);
      ResetGrace();
      bound := generation;
    }

    method Clear()
      modifies this
      ensures View() == ClearSession(old(View()))
      ensures generation == old(generation) + 1 && session.None? && GraceIsReset()
    {
      generation, session := generation + 1, None;
      ResetGrace();
    }

    method ClearIf(alive: set<SessionId>, s: SessionId, g: nat) returns (cleared: bool)
      modifies this
      ensures View() == ClearIfMatches(old(View()), alive, s, g)
      ensures cleared <==> old(generation) == g && old(session) == Some(s) && s in alive
      ensures cleared ==> generation == g + 1 && session.None? && GraceIsReset()
      ensures !cleared ==> View() == old(View())
    {
      if generation != g || session != Some(s) || s !in alive { return false; }
      Clear();
      cleared := true;
    }

    method ReplaceIf(alive: set<SessionId>, s: SessionId, g: nat, to: Origin) returns (replaced: bool)
      modifies this
      ensures View() == ReplaceIfMatches(old(View()), alive, s, g, to)
      ensures replaced <==> old(generation) == g && old(session) == Some(s) && s in alive
      ensures replaced ==> generation == to.generation && session == Some(to.session) && GraceIsReset()
      ensures !replaced ==> View() == old(View())
    {
      if generation != g || session != Some(s) || s !in alive { return false; }
      session, generation := Some(to.session), to.generation;
      ResetGrace();
      replaced := true;
    }

    /** The binding part of `rollback_failed_auth`. */
    method RollbackBinding(alive: set<SessionId>, s: SessionId, bound: Option<nat>, previous: Option<Origin>)
      modifies this
      ensures View() == RolledBack(old(View()), alive, s, bound, previous)
      ensures if bound == Some(old(generation)) && old(session) == Some(s) && s in alive then
          && GraceIsReset()
          && (if previous.Some? then generation == previous.value.generation && session == Some(previous.value.session)
              else generation == old(generation) + 1 && session.None?)
        else View() == old(View())
    {
      if bound.Some? {
        if previous.Some? {
          var _ := ReplaceIf(alive, s, bound.value, previous.value);
        } else {
          var _ := ClearIf(alive, s, bound.value);
        }
      }
    }
  }

  /** What a failed attempt's rollback does to the binding: nothing if it never bound. */
  function RolledBack(b: Binding, alive: set<SessionId>, s: SessionId,
                      bound: Option<nat>, previous: Option<Origin>): Binding
  {
    if bound.None? then b
    else if previous.Some? then ReplaceIfMatches(b, alive, s, bound.value, previous.value)
    else ClearIfMatches(b, alive, s, bound.value)
  }
}
