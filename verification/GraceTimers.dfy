/** Disconnect grace: a disconnect leaves a mark and a timer, rebinding clears the mark, and a timer
    removes the user only if it still finds its own mark. Disconnects and timers hold the registration gate
    from their check to their mark or removal; binding does not take it. */
module GraceTimers {
  import opened Options
  import opened SessionBinding

  /** What the user was doing when the transport was lost. */
  datatype Mode = PlayingWithoutGrace | PlayingGrace(deadlineMs: nat) | Ordinary

  /** Who holds the registration gate: a disconnect past its check, or a timer that took its own mark and has
      yet to remove the user. */
  datatype Holder = Pending(session: SessionId, mode: Mode) | Expired(m: Mark)

  /** `member`: the user map still holds this user. `timers`: grace timers that have not fired. */
  datatype Sys = Sys(
    user: Binding, alive: set<SessionId>, member: bool, gate: Option<Holder>, timers: map<Mark, Mode>, nextMark: Mark)

  datatype Act =
    | DisconnectCheck(s: SessionId, mode: Mode)
    | DisconnectCommit
    | TimerFires(m: Mark)
    | RemoveExpired
    | Bind(s: SessionId)
    | Clear
    | ClearIf(s: SessionId, generation: nat)
    | Replace(s: SessionId, generation: nat, to: Origin)
    | Drop(s: SessionId)

  const INITIAL := Sys(UNBOUND, {}, true, None, map[], 0)

  predicate IsBoundSession(user: Binding, alive: set<SessionId>, s: SessionId) {
    user.session == Some(s) && s in alive
  }

  function Commit(sys: Sys, mode: Mode): Sys {
    match mode
    case PlayingWithoutGrace => sys.(member := false, gate := None)
    case PlayingGrace(deadlineMs) =>
      sys.(user := sys.user.(mark := Some(sys.nextMark), deadlineMs := deadlineMs, waitNotified := false),
           timers := sys.timers[sys.nextMark := mode], nextMark := sys.nextMark + 1, gate := None)
    case Ordinary =>
      sys.(user := sys.user.(mark := Some(sys.nextMark)),
           timers := sys.timers[sys.nextMark := mode], nextMark := sys.nextMark + 1, gate := None)
  }

  predicate IsPending(sys: Sys) { sys.gate.Some? && sys.gate.value.Pending? }

  predicate IsExpired(sys: Sys) { sys.gate.Some? && sys.gate.value.Expired? }

  predicate CanFire(sys: Sys, m: Mark) { sys.gate.None? && m in sys.timers }

  /** A timer's check: if it finds its own mark it takes it and keeps the gate. */
  function Fire(sys: Sys, m: Mark): Sys
    requires m in sys.timers
  {
    var deadlineMs := if sys.timers[m].PlayingGrace? then 0 else sys.user.deadlineMs;
    if sys.user.mark != Some(m) then sys.(timers := sys.timers - {m})
    else sys.(timers := sys.timers - {m}, gate := Some(Expired(m)),
              user := sys.user.(mark := None, deadlineMs := deadlineMs))
  }

  function Do(sys: Sys, a: Act): Sys {
    match a
    case DisconnectCheck(s, mode) =>
      if sys.gate.None? && IsBoundSession(sys.user, sys.alive, s) then sys.(gate := Some(Pending(s, mode))) else sys
    case DisconnectCommit => if IsPending(sys) then Commit(sys, sys.gate.value.mode) else sys
    case TimerFires(m) => if CanFire(sys, m) then Fire(sys, m) else sys
    case RemoveExpired => if IsExpired(sys) then sys.(member := false, gate := None) else sys
    case Bind(s) => sys.(user := SetSession(sys.user, s), alive := sys.alive + {s})
    case Clear => sys.(user := ClearSession(sys.user))
    case ClearIf(s, g) => sys.(user := ClearIfMatches(sys.user, sys.alive, s, g))
    case Replace(s, g, to) => sys.(user := ReplaceIfMatches(sys.user, sys.alive, s, g, to))
    case Drop(s) => sys.(alive := sys.alive - {s})
  }

  function Steps(sys: Sys, acts: seq<Act>): Sys {
    if acts == [] then sys else Do(Steps(sys, acts[..|acts| - 1]), acts[|acts| - 1])
  }

  /** Every mark in use was handed out before. */
  predicate Marked(sys: Sys) {
    && (sys.user.mark.Some? ==> sys.user.mark.value < sys.nextMark)
    && forall m :: m in sys.timers ==> m < sys.nextMark
  }

  /** Does this step, taken here, change the binding? */
  predicate Rebinds(sys: Sys, a: Act) {
    match a
    case Bind(_) | Clear => true
    case ClearIf(s, g) => Matches(sys.user, sys.alive, s, g)
    case Replace(s, g, _) => Matches(sys.user, sys.alive, s, g)
    case _ => false
  }

  /** Does this step, taken here, overwrite the mark: a rebinding or a later disconnect? */
  predicate Overwrites(sys: Sys, a: Act) {
    || Rebinds(sys, a)
    || (a.DisconnectCommit? && IsPending(sys) && sys.gate.value.mode != PlayingWithoutGrace)
  }

  ghost predicate Undisturbed(sys: Sys, acts: seq<Act>) {
    forall i :: 0 <= i < |acts| ==> !Overwrites(Steps(sys, acts[..i]), acts[i])
  }

  ghost predicate KeepsBinding(sys: Sys, acts: seq<Act>) {
    forall i :: 0 <= i < |acts| ==> !Rebinds(Steps(sys, acts[..i]), acts[i])
  }

  /** The timer with mark `m` finds its own mark, so it goes on to remove the user. */
  predicate Removes(sys: Sys, m: Mark) { CanFire(sys, m) && sys.user.mark == Some(m) }

  /** A disconnect of a session that is not the bound one changes nothing at all: no timer, and the
      binding, the mark and the membership stay. */
  lemma StaleDisconnectIsIgnored(sys: Sys, s: SessionId, mode: Mode)
    requires !IsBoundSession(sys.user, sys.alive, s)
    ensures Steps(sys, [DisconnectCheck(s, mode)]) == sys
    ensures sys.gate.None? ==> Steps(sys, [DisconnectCheck(s, mode), DisconnectCommit]) == sys
  {
    var one := [DisconnectCheck(s, mode)];
    assert one[..0] == [] && [DisconnectCheck(s, mode), DisconnectCommit][..1] == one;
  }

  lemma GateStep(sys: Sys, a: Act)
    ensures IsPending(Do(sys, a)) && !IsPending(sys) ==>
      a.DisconnectCheck? && IsBoundSession(sys.user, sys.alive, a.s) && Do(sys, a).gate == Some(Pending(a.s, a.mode))
    ensures IsPending(sys) && a != DisconnectCommit ==> Do(sys, a).gate == sys.gate
    ensures IsExpired(sys) && a != RemoveExpired ==> Do(sys, a).gate == sys.gate
    ensures !IsPending(Do(sys, DisconnectCommit))
  {}

  /** Step `i` of the run is the check of this disconnect, and its session was the bound one then. */
  predicate ChecksAt(acts: seq<Act>, i: nat, pending: Holder) {
    && pending.Pending? && i < |acts| && acts[i] == DisconnectCheck(pending.session, pending.mode)
    && IsBoundSession(Steps(INITIAL, acts[..i]).user, Steps(INITIAL, acts[..i]).alive, pending.session)
  }

  /** A disconnect that holds the gate checked that its session was bound. */
  lemma {:induction false} GateWasChecked(acts: seq<Act>) returns (i: nat)
    requires IsPending(Steps(INITIAL, acts))
    ensures ChecksAt(acts, i, Steps(INITIAL, acts).gate.value)
    ensures forall k :: i <= k < |acts| ==> acts[k] != DisconnectCommit
  {
    i := 0;
    if acts != [] {
      var n := |acts| - 1;
      var init := acts[..n];
      GateStep(Steps(INITIAL, init), acts[n]);
      if !IsPending(Steps(INITIAL, init)) {
        i := n;
      } else {
        i := GateWasChecked(init);
        assert init[..i] == acts[..i];
      }
    }
  }

  lemma MarkStep(sys: Sys, a: Act)
    ensures Do(sys, a).nextMark != sys.nextMark ==>
      a == DisconnectCommit && IsPending(sys) && Do(sys, a).nextMark == sys.nextMark + 1
  {}

  /** Every timer ever started was started by a disconnect whose session was the bound one at its check:
      step `i` is that check, step `j` its mark, and no other disconnect came in between. */
  lemma {:induction false} TimersStartForBoundSessions(acts: seq<Act>, m: Mark) returns (i: nat, j: nat)
    requires m < Steps(INITIAL, acts).nextMark
    ensures i < j < |acts| && acts[j] == DisconnectCommit && Steps(INITIAL, acts[..j]).nextMark == m
    ensures IsPending(Steps(INITIAL, acts[..j])) && ChecksAt(acts, i, Steps(INITIAL, acts[..j]).gate.value)
    ensures forall k :: i <= k < j ==> acts[k] != DisconnectCommit
  {
    i, j := 0, 0;
    if acts != [] {
      var n := |acts| - 1;
      var init := acts[..n];
      MarkStep(Steps(INITIAL, init), acts[n]);
      if m < Steps(INITIAL, init).nextMark {
        i, j := TimersStartForBoundSessions(init, m);
        assert init[..j] == acts[..j] && init[..i] == acts[..i];
      } else {
        i := GateWasChecked(init);
        j := n;
        assert init[..i] == acts[..i];
      }
    }
  }

  lemma DoKeepsMarked(sys: Sys, a: Act)
    requires Marked(sys)
    ensures Marked(Do(sys, a)) && Do(sys, a).nextMark >= sys.nextMark
  {}

  lemma {:induction false} StepsKeepMarked(sys: Sys, acts: seq<Act>)
    requires Marked(sys)
    ensures Marked(Steps(sys, acts)) && Steps(sys, acts).nextMark >= sys.nextMark
  {
    if acts != [] {
      var init := acts[..|acts| - 1];
      StepsKeepMarked(sys, init);
      DoKeepsMarked(Steps(sys, init), acts[|acts| - 1]);
    }
  }

  /** One step keeps the mark exactly when it does not overwrite it, and a lost mark never comes back. */
  lemma DoOnMark(sys: Sys, m: Mark, a: Act)
    requires Marked(sys) && m < sys.nextMark && a != TimerFires(m)
    ensures Do(sys, a).user.mark == Some(m) <==> sys.user.mark == Some(m) && !Overwrites(sys, a)
    ensures m in sys.timers ==> m in Do(sys, a).timers
  {}

  lemma UndisturbedStep(sys: Sys, acts: seq<Act>)
    requires acts != []
    ensures var init := acts[..|acts| - 1];
      Undisturbed(sys, acts) <==> Undisturbed(sys, init) && !Overwrites(Steps(sys, init), acts[|acts| - 1])
  {
    var n := |acts| - 1;
    var init := acts[..n];
    assert forall i :: 0 <= i < n ==> init[..i] == acts[..i] && init[i] == acts[i];
    if Undisturbed(sys, acts) {
      assert !Overwrites(Steps(sys, acts[..n]), acts[n]);
      forall i | 0 <= i < n ensures !Overwrites(Steps(sys, init[..i]), init[i]) {
        assert !Overwrites(Steps(sys, acts[..i]), acts[i]);
      }
    } else {
      var i :| 0 <= i < |acts| && Overwrites(Steps(sys, acts[..i]), acts[i]);
      if i < n { assert Overwrites(Steps(sys, init[..i]), init[i]); }
    }
  }

  /** While the timer is pending its mark is in place exactly when nothing has overwritten it since. */
  lemma {:induction false} MarkSurvivesIffUndisturbed(sys: Sys, m: Mark, acts: seq<Act>)
    requires Marked(sys) && sys.user.mark == Some(m) && TimerFires(m) !in acts
    ensures Steps(sys, acts).user.mark == Some(m) <==> Undisturbed(sys, acts)
    ensures m in sys.timers ==> m in Steps(sys, acts).timers
  {
    if acts != [] {
      var init, last := acts[..|acts| - 1], acts[|acts| - 1];
      MarkSurvivesIffUndisturbed(sys, m, init);
      StepsKeepMarked(sys, init);
      UndisturbedStep(sys, acts);
      DoOnMark(Steps(sys, init), m, last);
    }
  }

  lemma CommitMarks(sys: Sys)
    requires Marked(sys) && IsPending(sys) && sys.gate.value.mode != PlayingWithoutGrace
    ensures var marked := Do(sys, DisconnectCommit);
      Marked(marked) && marked.user.mark == Some(sys.nextMark) && sys.nextMark in marked.timers
  {}

  lemma {:induction false} GateHeld(sys: Sys, acts: seq<Act>)
    requires (IsPending(sys) && DisconnectCommit !in acts) || (IsExpired(sys) && RemoveExpired !in acts)
    ensures Steps(sys, acts).gate == sys.gate
  {
    if acts != [] {
      var init, last := acts[..|acts| - 1], acts[|acts| - 1];
      assert acts == init + [last];
      GateHeld(sys, init);
      GateStep(Steps(sys, init), last);
    }
  }

  /** Rebinding cancels grace timers, exactly: the timer a disconnect starts goes on to remove the user if
      and only if no rebinding and no later disconnect came before its check; otherwise it changes neither
      the binding nor the membership. */
  lemma TimerRemovesIffUndisturbed(before: seq<Act>, after: seq<Act>)
    requires var sys := Steps(INITIAL, before); IsPending(sys) && sys.gate.value.mode != PlayingWithoutGrace
    requires TimerFires(Steps(INITIAL, before).nextMark) !in after
    requires Steps(Do(Steps(INITIAL, before), DisconnectCommit), after).gate.None?
    ensures var m := Steps(INITIAL, before).nextMark;
      var marked := Do(Steps(INITIAL, before), DisconnectCommit);
      var sys := Steps(marked, after);
      && (Removes(sys, m) <==> Undisturbed(marked, after))
      && (!Removes(sys, m) ==> Do(sys, TimerFires(m)) == sys.(timers := sys.timers - {m}))
  {
    var sys := Steps(INITIAL, before);
    StepsKeepMarked(INITIAL, before);
    CommitMarks(sys);
    MarkSurvivesIffUndisturbed(Do(sys, DisconnectCommit), sys.nextMark, after);
  }

  /** A timer that found its own mark removes the user, whatever comes in between. */
  lemma ExpiryAlwaysRemoves(sys: Sys, m: Mark, gap: seq<Act>)
    requires Removes(sys, m) && RemoveExpired !in gap
    ensures !Do(Steps(Do(sys, TimerFires(m)), gap), RemoveExpired).member
  {
    GateHeld(Do(sys, TimerFires(m)), gap);
  }

  lemma DoKeepsSession(sys: Sys, a: Act)
    requires !Rebinds(sys, a)
    ensures Do(sys, a).user.session == sys.user.session
  {}

  lemma {:induction false} BindingKept(sys: Sys, acts: seq<Act>)
    requires KeepsBinding(sys, acts)
    ensures Steps(sys, acts).user.session == sys.user.session
  {
    if acts != [] {
      var n := |acts| - 1;
      var init := acts[..n];
      forall i | 0 <= i < n ensures !Rebinds(Steps(sys, init[..i]), init[i]) {
        assert init[..i] == acts[..i] && !Rebinds(Steps(sys, acts[..i]), acts[i]);
      }
      BindingKept(sys, init);
      DoKeepsSession(Steps(sys, init), acts[n]);
    }
  }

  // ---- removals that hit another session ------------------------------------------------------------

  predicate BoundToAnother(user: Binding, s: SessionId) { user.session.Some? && user.session.value != s }

  /** Does this rebinding leave a session other than `s` bound? */
  predicate LeavesAnother(a: Act, s: SessionId) {
    (a.Bind? && a.s != s) || (a.Replace? && a.to.session != s)
  }

  predicate RebindsAt(sys: Sys, acts: seq<Act>, r: nat)
    requires r < |acts|
  {
    Rebinds(Steps(sys, acts[..r]), acts[r])
  }

  /** Step `r` is the last rebinding, and it leaves a session other than `s` bound. */
  ghost predicate LastLeavesAnother(sys: Sys, acts: seq<Act>, s: SessionId, r: nat)
    requires r < |acts|
  {
    && RebindsAt(sys, acts, r) && LeavesAnother(acts[r], s)
    && forall q :: r < q < |acts| ==> !RebindsAt(sys, acts, q)
  }

  /** The last rebinding among these steps leaves a session other than `s` bound. */
  ghost predicate EndsWithAnother(sys: Sys, acts: seq<Act>, s: SessionId) {
    exists r :: 0 <= r < |acts| && LastLeavesAnother(sys, acts, s, r)
  }

  lemma RebindingStep(sys: Sys, a: Act, s: SessionId)
    ensures Rebinds(sys, a) ==> (BoundToAnother(Do(sys, a).user, s) <==> LeavesAnother(a, s))
    ensures !Rebinds(sys, a) ==> Do(sys, a).user.session == sys.user.session
  {}

  lemma EndsWithAnotherStep(sys: Sys, acts: seq<Act>, s: SessionId)
    requires acts != []
    ensures var init, now, last := acts[..|acts| - 1], Steps(sys, acts[..|acts| - 1]), acts[|acts| - 1];
      EndsWithAnother(sys, acts, s) <==>
        if Rebinds(now, last) then LeavesAnother(last, s) else EndsWithAnother(sys, init, s)
  {
    var n := |acts| - 1;
    assert RebindsAt(sys, acts, n) == Rebinds(Steps(sys, acts[..n]), acts[n]);
    if RebindsAt(sys, acts, n) && LeavesAnother(acts[n], s) { assert LastLeavesAnother(sys, acts, s, n); }
    forall r | 0 <= r < n
      ensures LastLeavesAnother(sys, acts, s, r) <==>
        LastLeavesAnother(sys, acts[..n], s, r) && !RebindsAt(sys, acts, n)
    {
      LastLeavesPrefix(sys, acts, s, r);
    }
  }

  lemma LastLeavesPrefix(sys: Sys, acts: seq<Act>, s: SessionId, r: nat)
    requires r < |acts| - 1
    ensures LastLeavesAnother(sys, acts, s, r) <==>
      LastLeavesAnother(sys, acts[..|acts| - 1], s, r) && !RebindsAt(sys, acts, |acts| - 1)
  {
    var n := |acts| - 1;
    forall q | 0 <= q < n ensures RebindsAt(sys, acts[..n], q) == RebindsAt(sys, acts, q) {
      assert acts[..n][..q] == acts[..q];
    }
  }

  /** Where a binding ends up is decided by the last rebinding, or by where it was if there is none. */
  lemma {:induction false} EndsElsewhereIff(sys: Sys, acts: seq<Act>, s: SessionId)
    ensures BoundToAnother(Steps(sys, acts).user, s) <==>
      EndsWithAnother(sys, acts, s) || (KeepsBinding(sys, acts) && BoundToAnother(sys.user, s))
  {
    if acts != [] {
      var init, last := acts[..|acts| - 1], acts[|acts| - 1];
      EndsElsewhereIff(sys, init, s);
      EndsWithAnotherStep(sys, acts, s);
      RebindingStep(Steps(sys, init), last, s);
      KeepsBindingStep(sys, acts);
      if KeepsBinding(sys, init) { NoRebindingNoEnd(sys, init, s); }
    }
  }

  lemma NoRebindingNoEnd(sys: Sys, acts: seq<Act>, s: SessionId)
    requires KeepsBinding(sys, acts)
    ensures !EndsWithAnother(sys, acts, s)
  {
    forall r | 0 <= r < |acts| ensures !RebindsAt(sys, acts, r) {
      assert !Rebinds(Steps(sys, acts[..r]), acts[r]);
    }
  }

  lemma KeepsBindingStep(sys: Sys, acts: seq<Act>)
    requires acts != []
    ensures var init := acts[..|acts| - 1];
      KeepsBinding(sys, acts) <==> KeepsBinding(sys, init) && !Rebinds(Steps(sys, init), acts[|acts| - 1])
  {
    var n := |acts| - 1;
    var init := acts[..n];
    assert forall r :: 0 <= r < n ==> init[..r] == acts[..r] && init[r] == acts[r];
    if KeepsBinding(sys, acts) {
      assert !Rebinds(Steps(sys, acts[..n]), acts[n]);
      forall r | 0 <= r < n ensures !Rebinds(Steps(sys, init[..r]), init[r]) {
        assert !Rebinds(Steps(sys, acts[..r]), acts[r]);
      }
    } else {
      var r :| 0 <= r < |acts| && Rebinds(Steps(sys, acts[..r]), acts[r]);
      if r < n { assert Rebinds(Steps(sys, init[..r]), init[r]); }
    }
  }

  /** A timer that fired for nothing never comes to hold the gate. */
  lemma {:induction false} SpentNeverExpires(sys: Sys, m: Mark, acts: seq<Act>)
    requires Marked(sys) && m < sys.nextMark && m !in sys.timers && sys.gate != Some(Expired(m))
    ensures var later := Steps(sys, acts);
      Marked(later) && m < later.nextMark && m !in later.timers && later.gate != Some(Expired(m))
  {
    if acts != [] {
      var init, last := acts[..|acts| - 1], acts[|acts| - 1];
      SpentNeverExpires(sys, m, init);
      DoKeepsMarked(Steps(sys, init), last);
      SpentStep(Steps(sys, init), m, last);
    }
  }

  lemma SpentStep(sys: Sys, m: Mark, a: Act)
    requires m < sys.nextMark && m !in sys.timers && sys.gate != Some(Expired(m))
    ensures m !in Do(sys, a).timers && Do(sys, a).gate != Some(Expired(m))
  {}

  /** What a disconnect's mark and its timer's check lead to. */
  lemma ExpiresIff(sys: Sys, s: SessionId, mode: Mode, window: seq<Act>, after: seq<Act>, gap: seq<Act>)
    requires Marked(sys) && sys.gate.None? && IsBoundSession(sys.user, sys.alive, s) && mode != PlayingWithoutGrace
    requires DisconnectCommit !in window && RemoveExpired !in gap
    requires var marking := Steps(Do(sys, DisconnectCheck(s, mode)), window);
      TimerFires(marking.nextMark) !in after && Steps(Do(marking, DisconnectCommit), after).gate.None?
    ensures var marking := Steps(Do(sys, DisconnectCheck(s, mode)), window);
      var committed := Do(marking, DisconnectCommit);
      var fired := Do(Steps(committed, after), TimerFires(marking.nextMark));
      && committed.user.session == marking.user.session
      && (Steps(fired, gap).gate == Some(Expired(marking.nextMark)) <==> Undisturbed(committed, after))
      && (Undisturbed(committed, after) ==> fired.user.session == committed.user.session)
  {
    var checked := Do(sys, DisconnectCheck(s, mode));
    var marking := Steps(checked, window);
    var m := marking.nextMark;
    StepsKeepMarked(checked, window);
    GateHeld(checked, window);
    CommitMarks(marking);
    var committed := Do(marking, DisconnectCommit);
    MarkSurvivesIffUndisturbed(committed, m, after);
    StepsKeepMarked(committed, after);
    var due := Steps(committed, after);
    if Undisturbed(committed, after) {
      UndisturbedKeepsBinding(committed, after);
      GateHeld(Do(due, TimerFires(m)), gap);
    } else {
      DoKeepsMarked(due, TimerFires(m));
      SpentNeverExpires(Do(due, TimerFires(m)), m, gap);
    }
  }

  lemma UndisturbedKeepsBinding(sys: Sys, acts: seq<Act>)
    requires Undisturbed(sys, acts)
    ensures Steps(sys, acts).user.session == sys.user.session
  {
    assert forall i :: 0 <= i < |acts| && !Overwrites(Steps(sys, acts[..i]), acts[i]) ==>
      !Rebinds(Steps(sys, acts[..i]), acts[i]);
    BindingKept(sys, acts);
  }

  /** Exactly when a timer removes a user who is bound to another session than the disconnected one. Nothing
      rebound the user or set another mark between the mark and the timer's check, and the last rebinding
      of those between the check and the removal or, if there is none, of those between the disconnect's
      check and its mark, left another session bound. */
  lemma WrongRemovalIff(sys: Sys, s: SessionId, mode: Mode, window: seq<Act>, after: seq<Act>, gap: seq<Act>)
    requires Marked(sys) && sys.gate.None? && IsBoundSession(sys.user, sys.alive, s) && mode != PlayingWithoutGrace
    requires DisconnectCommit !in window && RemoveExpired !in gap
    requires var marking := Steps(Do(sys, DisconnectCheck(s, mode)), window);
      TimerFires(marking.nextMark) !in after && Steps(Do(marking, DisconnectCommit), after).gate.None?
    ensures var checked := Do(sys, DisconnectCheck(s, mode));
      var marking := Steps(checked, window);
      var committed := Do(marking, DisconnectCommit);
      var fired := Do(Steps(committed, after), TimerFires(marking.nextMark));
      var removing := Steps(fired, gap);
      removing.gate == Some(Expired(marking.nextMark)) && BoundToAnother(removing.user, s) <==>
        && Undisturbed(committed, after)
        && (EndsWithAnother(fired, gap, s) || (KeepsBinding(fired, gap) && EndsWithAnother(checked, window, s)))
  {
    var checked := Do(sys, DisconnectCheck(s, mode));
    var marking := Steps(checked, window);
    var fired := Do(Steps(Do(marking, DisconnectCommit), after), TimerFires(marking.nextMark));
    ExpiresIff(sys, s, mode, window, after, gap);
    EndsElsewhereIff(checked, window, s);
    EndsElsewhereIff(fired, gap, s);
  }

  /** The same for a disconnect without grace, which removes the user at once and starts no timer. */
  lemma WrongImmediateRemovalIff(sys: Sys, s: SessionId, window: seq<Act>)
    requires sys.gate.None? && IsBoundSession(sys.user, sys.alive, s) && DisconnectCommit !in window
    ensures var checked := Do(sys, DisconnectCheck(s, PlayingWithoutGrace));
      var removing := Steps(checked, window);
      && Do(removing, DisconnectCommit) == removing.(member := false, gate := None)
      && (BoundToAnother(removing.user, s) <==> EndsWithAnother(checked, window, s))
  {
    var checked := Do(sys, DisconnectCheck(s, PlayingWithoutGrace));
    GateHeld(checked, window);
    EndsElsewhereIff(checked, window, s);
  }

  /** All three can happen: session 2 binds between the check and the mark of session 1's disconnect, */
  lemma ReconnectInsideTheWindowIsLost() returns (acts: seq<Act>)
    ensures var sys := Steps(INITIAL, acts); IsBoundSession(sys.user, sys.alive, 2) && !sys.member
  {
    acts := StepsAppend([], Bind(1));
    acts := StepsAppend(acts, DisconnectCheck(1, Ordinary));
    acts := StepsAppend(acts, Bind(2));
    acts := StepsAppend(acts, DisconnectCommit);
    acts := StepsAppend(acts, TimerFires(0));
    acts := StepsAppend(acts, RemoveExpired);
  }

  /** or between the timer's check and its removal, */
  lemma ReconnectInsideTheGapIsLost() returns (acts: seq<Act>)
    ensures var sys := Steps(INITIAL, acts); IsBoundSession(sys.user, sys.alive, 2) && !sys.member
  {
    acts := StepsAppend([], Bind(1));
    acts := StepsAppend(acts, DisconnectCheck(1, Ordinary));
    acts := StepsAppend(acts, DisconnectCommit);
    acts := StepsAppend(acts, TimerFires(0));
    acts := StepsAppend(acts, Bind(2));
    acts := StepsAppend(acts, RemoveExpired);
  }

  /** or between the check and the removal of a disconnect without grace. */
  lemma ReconnectBeforeImmediateRemovalIsLost() returns (acts: seq<Act>)
    ensures var sys := Steps(INITIAL, acts);
      IsBoundSession(sys.user, sys.alive, 2) && !sys.member && sys.timers == map[]
  {
    acts := StepsAppend([], Bind(1));
    acts := StepsAppend(acts, DisconnectCheck(1, PlayingWithoutGrace));
    acts := StepsAppend(acts, Bind(2));
    acts := StepsAppend(acts, DisconnectCommit);
  }

  lemma StepsAppend(acts: seq<Act>, a: Act) returns (more: seq<Act>)
    ensures more == acts + [a] && Steps(INITIAL, more) == Do(Steps(INITIAL, acts), a)
  {
    more := acts + [a];
    assert more[..|acts|] == acts;
  }

  /** The user object with its registration and its timers. */
  class Lifecycle {
    const user: User
    var alive: set<SessionId>
    var member: bool
    var timers: map<Mark, Mode>
    var nextMark: Mark

    constructor ()
      ensures View() == INITIAL && fresh(user)
    {
      user := new User();
      alive, member, timers, nextMark := {}, true, map[], 0;
    }

    ghost function View(): Sys reads this, user { Sys(user.View(), alive, member, None, timers, nextMark) }

    /** `dangle`, run without interference. */
    method Dangle(s: SessionId, mode: Mode)
      modifies this, user
      ensures View() == Do(Do(old(View()), DisconnectCheck(s, mode)), DisconnectCommit)
      ensures old(IsBoundSession(user.View(), alive, s)) && mode != PlayingWithoutGrace ==>
        user.dangleMark == Some(old(nextMark)) && timers == old(timers)[old(nextMark) := mode] && member == old(member)
      ensures old(IsBoundSession(user.View(), alive, s)) && mode.PlayingGrace? ==>
        user.dangleDeadlineMs == mode.deadlineMs && !user.reconnectWaitNotified
      ensures !mode.PlayingGrace? ==>
        && user.dangleDeadlineMs == old(user.dangleDeadlineMs)
        && user.reconnectWaitNotified == old(user.reconnectWaitNotified)
      ensures old(IsBoundSession(user.View(), alive, s)) && mode == PlayingWithoutGrace ==>
        !member && timers == old(timers) && user.View() == old(user.View())
    {
      if user.session != Some(s) || s !in alive { return; }
      match mode {
        case PlayingWithoutGrace =>
          member := false;
          return;
        case PlayingGrace(deadlineMs) =>
          user.dangleDeadlineMs := deadlineMs;
          user.reconnectWaitNotified := false;
        case Ordinary =>
      }
      user.dangleMark := Some(nextMark);
      timers := timers[nextMark := mode];
      nextMark := nextMark + 1;
    }

    /** A grace timer's closure after its sleep, run without interference. */
    method GraceElapsed(m: Mark) returns (removed: bool)
      requires m in timers
      modifies this, user
      ensures View() == Do(Do(old(View()), TimerFires(m)), RemoveExpired) && removed == Removes(old(View()), m)
      ensures removed == old(user.dangleMark == Some(m)) && member == (old(member) && !removed)
      ensures timers == old(timers) - {m} && user.dangleMark == if removed then None else old(user.dangleMark)
      ensures user.dangleDeadlineMs == if removed && old(timers[m]).PlayingGrace? then 0 else old(user.dangleDeadlineMs)
    {
      var mode := timers[m];
      timers := timers - {m};
      removed := user.dangleMark == Some(m);
      if removed {
        user.dangleMark := None;
        if mode.PlayingGrace? { user.dangleDeadlineMs := 0; }
        member := false;
      }
    }
  }
}
