/** The sliding-window rate limiter: per key, the timestamps still inside the window; old ones are pruned on
    every check and by a periodic cleanup. */
module SlidingWindow {
  type Instant = nat

  datatype Window = Window(maxCount: nat, length: nat)

  type Buckets = map<string, seq<Instant>>

  /** A clock that ran backwards counts as no time passed. */
  function Age(now: Instant, t: Instant): nat { if now < t then 0 else now - t }

  function Recent(s: seq<Instant>, now: Instant, length: nat): seq<Instant> {
    if s == [] then []
    else
      var rest := Recent(s[..|s| - 1], now, length);
      if Age(now, s[|s| - 1]) < length then rest + [s[|s| - 1]] else rest
  }

  function At(b: Buckets, key: string): seq<Instant> { if key in b then b[key] else [] }

  predicate Allows(w: Window, s: seq<Instant>, now: Instant) { |Recent(s, now, w.length)| < w.maxCount }

  function Checked(w: Window, b: Buckets, key: string, now: Instant): Buckets {
    var kept := Recent(At(b, key), now, w.length);
    b[key := if |kept| >= w.maxCount then kept else kept + [now]]
  }

  function CleanedUp(w: Window, b: Buckets, now: Instant): Buckets {
    map key | key in b && Recent(b[key], now, w.length) != [] :: Recent(b[key], now, w.length)
  }

  // ---- runs, and the limiter that never forgets -----------------------------------------------------

  datatype Op = Check(key: string, now: Instant) | Cleanup(now: Instant)

  predicate Timed(ops: seq<Op>) { forall i, j :: 0 <= i < j < |ops| ==> ops[i].now <= ops[j].now }

  function After(w: Window, ops: seq<Op>): Buckets {
    if ops == [] then map[]
    else
      var b := After(w, ops[..|ops| - 1]);
      match ops[|ops| - 1]
      case Check(key, now) => Checked(w, b, key, now)
      case Cleanup(now) => CleanedUp(w, b, now)
  }

  predicate Answer(w: Window, ops: seq<Op>, i: nat)
    requires i < |ops| && ops[i].Check?
  {
    Allows(w, At(After(w, ops[..i]), ops[i].key), ops[i].now)
  }

  /** The timestamps of the checks of a key that were answered with admission. */
  function Admitted(w: Window, ops: seq<Op>, key: string): seq<Instant> {
    if ops == [] then []
    else
      var before := Admitted(w, ops[..|ops| - 1], key);
      var last := ops[|ops| - 1];
      if last.Check? && last.key == key && Answer(w, ops, |ops| - 1) then before + [last.now] else before
  }

  /** The reference: a limiter that keeps every timestamp it ever admitted for the key. */
  function History(w: Window, ops: seq<Op>, key: string): seq<Instant> {
    if ops == [] then []
    else
      var h := History(w, ops[..|ops| - 1], key);
      var last := ops[|ops| - 1];
      if last.Check? && last.key == key && Allows(w, h, last.now) then h + [last.now] else h
  }

  // ---- pruning loses nothing ------------------------------------------------------------------------

  lemma {:induction false} RecentOfRecent(s: seq<Instant>, earlier: Instant, later: Instant, length: nat)
    requires earlier <= later
    ensures Recent(Recent(s, earlier, length), later, length) == Recent(s, later, length)
  {
    if s != [] {
      var init := s[..|s| - 1];
      RecentOfRecent(init, earlier, later, length);
      var kept := Recent(init, earlier, length);
      assert (kept + [s[|s| - 1]])[..|kept|] == kept;
    }
  }

  lemma RecentAppend(s: seq<Instant>, t: Instant, now: Instant, length: nat)
    ensures Recent(s + [t], now, length) == Recent(s, now, length) + if Age(now, t) < length then [t] else []
  {
    assert (s + [t])[..|s|] == s;
  }

  /** From `now` on the two limiters see the same timestamps in the window. */
  ghost predicate Agree(w: Window, pruned: seq<Instant>, full: seq<Instant>, now: Instant) {
    forall later :: now <= later ==> Recent(pruned, later, w.length) == Recent(full, later, w.length)
  }

  lemma AgreeAfterPruning(w: Window, pruned: seq<Instant>, full: seq<Instant>, earlier: Instant, now: Instant)
    requires Agree(w, pruned, full, earlier) && earlier <= now
    ensures Agree(w, Recent(pruned, now, w.length), full, now)
    ensures Recent(pruned, now, w.length) == Recent(full, now, w.length)
  {
    forall later | now <= later
      ensures Recent(Recent(pruned, now, w.length), later, w.length) == Recent(full, later, w.length)
    {
      RecentOfRecent(pruned, now, later, w.length);
    }
  }

  lemma AgreeAfterPush(w: Window, pruned: seq<Instant>, full: seq<Instant>, now: Instant)
    requires Agree(w, pruned, full, now)
    ensures Agree(w, pruned + [now], full + [now], now)
  {
    forall later | now <= later
      ensures Recent(pruned + [now], later, w.length) == Recent(full + [now], later, w.length)
    {
      RecentAppend(pruned, now, later, w.length);
      RecentAppend(full, now, later, w.length);
    }
  }

  lemma {:induction false} AgreesWithHistory(w: Window, ops: seq<Op>, key: string, now: Instant)
    requires Timed(ops) && (ops != [] ==> ops[|ops| - 1].now <= now)
    ensures Agree(w, At(After(w, ops), key), History(w, ops, key), now)
  {
    if ops != [] {
      var init, last := ops[..|ops| - 1], ops[|ops| - 1];
      AgreesWithHistory(w, init, key, last.now);
      var before, full := At(After(w, init), key), History(w, init, key);
      AgreeAfterPruning(w, before, full, last.now, last.now);
      AgreeAfterPush(w, Recent(before, last.now, w.length), full, last.now);
    }
  }

  /** The limiter answers every check exactly as one that keeps every admitted timestamp forever. */
  lemma AnswersAsFullHistory(w: Window, ops: seq<Op>, i: nat)
    requires Timed(ops) && i < |ops| && ops[i].Check?
    ensures Answer(w, ops, i) == Allows(w, History(w, ops[..i], ops[i].key), ops[i].now)
  {
    AgreesWithHistory(w, ops[..i], ops[i].key, ops[i].now);
  }

  /** So it admits exactly what that one admits. */
  lemma {:induction false} AdmittedIsHistory(w: Window, ops: seq<Op>, key: string)
    requires Timed(ops)
    ensures Admitted(w, ops, key) == History(w, ops, key)
  {
    if ops != [] {
      var n := |ops| - 1;
      AdmittedIsHistory(w, ops[..n], key);
      if ops[n].Check? { AnswersAsFullHistory(w, ops, n); }
    }
  }

  function WithoutCleanups(ops: seq<Op>): seq<Op> {
    if ops == [] then []
    else
      var rest := WithoutCleanups(ops[..|ops| - 1]);
      if ops[|ops| - 1].Cleanup? then rest else rest + [ops[|ops| - 1]]
  }

  lemma {:induction false} WithoutCleanupsTimed(ops: seq<Op>)
    requires Timed(ops)
    ensures Timed(WithoutCleanups(ops))
    ensures forall k :: 0 <= k < |WithoutCleanups(ops)| ==> WithoutCleanups(ops)[k].now <= ops[|ops| - 1].now
  {
    if ops != [] {
      var init := ops[..|ops| - 1];
      WithoutCleanupsTimed(init);
    }
  }

  lemma {:induction false} HistoryIgnoresCleanups(w: Window, ops: seq<Op>, key: string)
    ensures History(w, WithoutCleanups(ops), key) == History(w, ops, key)
  {
    if ops != [] {
      HistoryIgnoresCleanups(w, ops[..|ops| - 1], key);
      var rest := WithoutCleanups(ops[..|ops| - 1]);
      assert (rest + [ops[|ops| - 1]])[..|rest|] == rest;
    }
  }

  /** Cleanups, whenever they run, change no later answer. */
  lemma CleanupsChangeNoAnswer(w: Window, ops: seq<Op>, check: Op)
    requires check.Check? && Timed(ops + [check])
    ensures Answer(w, ops + [check], |ops|) == Answer(w, WithoutCleanups(ops) + [check], |WithoutCleanups(ops)|)
  {
    var all, bare := ops + [check], WithoutCleanups(ops);
    assert all[..|ops|] == ops && (bare + [check])[..|bare|] == bare;
    assert forall i :: 0 <= i < |ops| ==> all[i] == ops[i];
    WithoutCleanupsTimed(ops);
    HistoryIgnoresCleanups(w, ops, check.key);
    AnswersAsFullHistory(w, all, |ops|);
    AnswersAsFullHistory(w, bare + [check], |bare|);
  }

  // ---- the rate bound -------------------------------------------------------------------------------

  function InInterval(s: seq<Instant>, start: Instant, length: nat): seq<Instant> {
    if s == [] then []
    else
      var rest := InInterval(s[..|s| - 1], start, length);
      if start <= s[|s| - 1] < start + length then rest + [s[|s| - 1]] else rest
  }

  lemma {:induction false} IntervalWithinRecent(s: seq<Instant>, start: Instant, length: nat, now: Instant)
    requires start <= now < start + length
    ensures |InInterval(s, start, length)| <= |Recent(s, now, length)|
  {
    if s != [] { IntervalWithinRecent(s[..|s| - 1], start, length, now); }
  }

  lemma {:induction false} HistoryWithinInterval(w: Window, ops: seq<Op>, key: string, start: Instant)
    ensures |InInterval(History(w, ops, key), start, w.length)| <= w.maxCount
  {
    if ops != [] {
      var init, last := ops[..|ops| - 1], ops[|ops| - 1];
      HistoryWithinInterval(w, init, key, start);
      var h := History(w, init, key);
      if History(w, ops, key) != h && start <= last.now < start + w.length {
        IntervalWithinRecent(h, start, w.length, last.now);
      }
      assert (h + [last.now])[..|h|] == h;
    }
  }

  /** With a clock that does not run backwards, every half-open interval as long as the window holds at most
      `maxCount` admissions of each key, cleanups or not. */
  lemma AtMostMaxPerWindow(w: Window, ops: seq<Op>, key: string, start: Instant)
    requires Timed(ops)
    ensures |InInterval(Admitted(w, ops, key), start, w.length)| <= w.maxCount
  {
    AdmittedIsHistory(w, ops, key);
    HistoryWithinInterval(w, ops, key, start);
  }

  /** What pruning for one check or cleanup leaves to later checks: everything still in their window. */
  predicate Forgets(before: seq<Instant>, after: seq<Instant>, now: Instant, length: nat) {
    && (forall t :: t in after ==> t in before && Age(now, t) < length)
    && (forall t :: t in before && Age(now, t) < length ==> t in after)
  }

  lemma {:induction false} RecentForgets(s: seq<Instant>, now: Instant, length: nat)
    ensures Forgets(s, Recent(s, now, length), now, length)
  {
    if s != [] {
      RecentForgets(s[..|s| - 1], now, length);
      assert s == s[..|s| - 1] + [s[|s| - 1]];
    }
  }

  lemma RunAppend(w: Window, ops: seq<Op>, op: Op, key: string)
    ensures After(w, ops + [op]) ==
      if op.Check? then Checked(w, After(w, ops), op.key, op.now) else CleanedUp(w, After(w, ops), op.now)
    ensures Admitted(w, ops + [op], key) == Admitted(w, ops, key)
      + if op.Check? && op.key == key && Allows(w, At(After(w, ops), key), op.now) then [op.now] else []
    ensures Timed(ops + [op]) && op.Check? ==>
      Allows(w, At(After(w, ops), op.key), op.now) == Allows(w, History(w, ops, op.key), op.now)
  {
    assert (ops + [op])[..|ops|] == ops;
    if Timed(ops + [op]) && op.Check? { AnswersAsFullHistory(w, ops + [op], |ops|); }
  }

  lemma WindowOfOne(t: Instant, now: Instant, length: nat)
    ensures Recent([t], now, length) == if Age(now, t) < length then [t] else []
  {
    assert [t][..0] == [];
  }

  lemma IntervalOfTwo(t: Instant, length: nat)
    requires length > 0
    ensures InInterval([t, t], t, length) == [t, t]
  {
    assert [t][..0] == [];
    assert InInterval([t], t, length) == [t];
    assert [t, t][..1] == [t];
  }

  lemma FirstAdmission(w: Window, key: string, t: Instant)
    requires w.maxCount == 1 && w.length > 0
    ensures Checked(w, map[], key, t) == map[key := [t]] && Allows(w, At(map[], key), t)
    ensures CleanedUp(w, map[key := [t]], t + w.length) == map[]
  {
    WindowOfOne(t, t + w.length, w.length);
    var none: seq<Instant> := [];
    assert Recent(none, t, w.length) == none && none + [t] == [t];
  }

  /** An admission on a key with no bucket, and the cleanup that forgets it again. */
  lemma AdmittedThenForgotten(w: Window, ops: seq<Op>, key: string, t: Instant)
    requires w.maxCount == 1 && w.length > 0 && After(w, ops) == map[]
    ensures Admitted(w, ops + [Check(key, t)], key) == Admitted(w, ops, key) + [t]
    ensures After(w, ops + [Check(key, t)] + [Cleanup(t + w.length)]) == map[]
    ensures Admitted(w, ops + [Check(key, t)] + [Cleanup(t + w.length)], key) == Admitted(w, ops, key) + [t]
  {
    var once := ops + [Check(key, t)];
    RunAppend(w, ops, Check(key, t), key);
    RunAppend(w, once, Cleanup(t + w.length), key);
    FirstAdmission(w, key, t);
    assert Admitted(w, ops, key) + [t] + [] == Admitted(w, ops, key) + [t];
  }

  /** The clock matters: a cleanup one window later forgets an admission at `t`, and if the clock then reads
      `t` again, a limit of one admits twice within one window. */
  lemma BackwardClockBreaksTheBound(w: Window, key: string, t: Instant)
    requires w.maxCount == 1 && w.length > 0
    ensures var ops := [Check(key, t), Cleanup(t + w.length), Check(key, t)];
      |InInterval(Admitted(w, ops, key), t, w.length)| > w.maxCount
  {
    var none: seq<Op> := [];
    AdmittedThenForgotten(w, none, key, t);
    var twice := none + [Check(key, t)] + [Cleanup(t + w.length)];
    AdmittedThenForgotten(w, twice, key, t);
    IntervalOfTwo(t, w.length);
    assert twice + [Check(key, t)] == [Check(key, t), Cleanup(t + w.length), Check(key, t)];
    assert Admitted(w, none, key) + [t] + [t] == [t, t];
  }

  class SlidingWindowRateLimiter {
    const window: Window
    var buckets: Buckets
    /** Every operation so far. */
    ghost var ops: seq<Op>

    constructor (maxCount: nat, windowLength: nat)
      ensures window == Window(maxCount, windowLength) && Valid() && ops == []
    {
      window := Window(maxCount, windowLength);
      buckets, ops := map[], [];
    }

    ghost predicate Valid() reads this { buckets == After(window, ops) }

    /** `check`: answers as the limiter that never forgets, and records an admission. */
    method CheckKey(key: string, now: Instant) returns (allowed: bool)
      requires Valid()
      modifies this
      ensures Valid() && ops == old(ops) + [Check(key, now)]
      ensures Timed(ops) ==> allowed == Allows(window, History(window, old(ops), key), now)
      ensures Admitted(window, ops, key) == Admitted(window, old(ops), key) + if allowed then [now] else []
      ensures allowed ==> |At(buckets, key)| <= window.maxCount && now in At(buckets, key)
      ensures !allowed ==> |At(buckets, key)| >= window.maxCount
      ensures !allowed ==> Forgets(old(At(buckets, key)), At(buckets, key), now, window.length)
      ensures forall other :: other != key ==> At(buckets, other) == old(At(buckets, other))
    {
      RunAppend(window, ops, Check(key, now), key);
      RecentForgets(At(buckets, key), now, window.length);
      ops := ops + [Check(key, now)];
      var timestamps := Recent(At(buckets, key), now, window.length);
      allowed := |timestamps| < window.maxCount;
      if allowed { timestamps := timestamps + [now]; }
      buckets := buckets[key := timestamps];
    }

    /** `cleanup`: no bucket is left empty, and no later check sees a difference. */
    method CleanUp(now: Instant)
      requires Valid()
      modifies this
      ensures Valid() && ops == old(ops) + [Cleanup(now)]
      ensures forall key :: key in buckets ==> buckets[key] != []
      ensures forall key :: Forgets(old(At(buckets, key)), At(buckets, key), now, window.length)
      ensures forall key, later :: now <= later ==>
        Recent(At(buckets, key), later, window.length) == Recent(old(At(buckets, key)), later, window.length)
      ensures forall key :: Admitted(window, ops, key) == Admitted(window, old(ops), key)
    {
      ghost var before := buckets;
      RunAppend(window, ops, Cleanup(now), "");
      forall key ensures Admitted(window, ops + [Cleanup(now)], key) == Admitted(window, ops, key) {
        RunAppend(window, ops, Cleanup(now), key);
      }
      ops := ops + [Cleanup(now)];
      var pruned := map key | key in buckets :: Recent(buckets[key], now, window.length);
      buckets := map key | key in pruned && pruned[key] != [] :: pruned[key];
      assert forall key :: At(buckets, key) == Recent(At(before, key), now, window.length);
      forall key ensures Forgets(At(before, key), At(buckets, key), now, window.length) {
        RecentForgets(At(before, key), now, window.length);
      }
      forall key, later | now <= later
        ensures Recent(At(buckets, key), later, window.length) == Recent(At(before, key), later, window.length)
      {
        RecentOfRecent(At(before, key), now, later, window.length);
      }
    }
  }
}
