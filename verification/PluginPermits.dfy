/** Plugin execution permits: admission by a load, a comparison and a compare-and-swap on one counter, with
    every load, swap and release its own step. */
module PluginPermits {
  type Tid = nat

  const USIZE := 0x1_0000_0000_0000_0000

  /** Where an attempt stands: what it has loaded so far, or the permit it holds. */
  datatype Pc = Entered | Cleared | SawMax(max: nat) | Saw(max: nat, current: nat) | Permit | Denied | Released

  datatype Slot = Slot(inflight: nat, max: nat, quarantined: bool)

  datatype Sys = Sys(slot: Slot, tries: map<Tid, Pc>)

  const INITIAL := Sys(Slot(0, 1, false), map[])

  datatype Act =
    | Begin(t: Tid)
    | LoadQuarantined(t: Tid)
    | LoadMax(t: Tid)
    | LoadInflight(t: Tid)
    | CompareExchange(t: Tid)
    | DropPermit(t: Tid)
    | SetMaxConcurrent(max: nat)
    | SetQuarantine(on: bool)

  predicate At(sys: Sys, t: Tid, pc: Pc) { t in sys.tries && sys.tries[t] == pc }

  predicate Enabled(sys: Sys, a: Act) {
    match a
    case Begin(t) => t !in sys.tries
    case LoadQuarantined(t) => At(sys, t, Entered)
    case LoadMax(t) => At(sys, t, Cleared)
    case LoadInflight(t) => t in sys.tries && sys.tries[t].SawMax?
    case CompareExchange(t) => t in sys.tries && sys.tries[t].Saw?
    case DropPermit(t) => At(sys, t, Permit)
    case SetMaxConcurrent(max) => max < USIZE
    case SetQuarantine(_) => true
  }

  function Go(sys: Sys, t: Tid, pc: Pc): Sys { sys.(tries := sys.tries[t := pc]) }

  function AtLeastOne(max: nat): nat { if max > 1 then max else 1 }

  /** The counter is a machine word: addition and subtraction wrap around. */
  function Incremented(n: nat): nat { (n + 1) % USIZE }

  function Decremented(n: nat): nat { (n + USIZE - 1) % USIZE }

  function Do(sys: Sys, a: Act): Sys {
    if !Enabled(sys, a) then sys else
    match a
    case Begin(t) => Go(sys, t, Entered)
    case LoadQuarantined(t) => Go(sys, t, if sys.slot.quarantined then Denied else Cleared)
    case LoadMax(t) => Go(sys, t, SawMax(sys.slot.max))
    case LoadInflight(t) =>
      var max := sys.tries[t].max;
      Go(sys, t, if sys.slot.inflight >= max then Denied else Saw(max, sys.slot.inflight))
    case CompareExchange(t) =>
      var current := sys.tries[t].current;
      if sys.slot.inflight != current then Go(sys, t, Denied)
      else Go(sys, t, Permit).(slot := sys.slot.(inflight := Incremented(current)))
    case DropPermit(t) => Go(sys, t, Released).(slot := sys.slot.(inflight := Decremented(sys.slot.inflight)))
    case SetMaxConcurrent(max) => sys.(slot := sys.slot.(max := AtLeastOne(max)))
    case SetQuarantine(on) => sys.(slot := sys.slot.(quarantined := on))
  }

  function Run(acts: seq<Act>): Sys {
    if acts == [] then INITIAL else Do(Run(acts[..|acts| - 1]), acts[|acts| - 1])
  }

  /** The largest maximum in force at any point of the run. */
  function Peak(acts: seq<Act>): nat {
    if acts == [] then INITIAL.slot.max
    else
      var before := Peak(acts[..|acts| - 1]);
      var now := Run(acts).slot.max;
      if now > before then now else before
  }

  function Live(sys: Sys): set<Tid> { set t | t in sys.tries && sys.tries[t] == Permit }

  predicate TryOk(pc: Pc, peak: nat) {
    match pc
    case SawMax(max) => max <= peak
    case Saw(max, current) => current < max <= peak
    case _ => true
  }

  predicate Ok(sys: Sys, peak: nat) {
    && sys.slot.inflight == |Live(sys)|
    && |Live(sys)| <= peak < USIZE
    && sys.slot.max <= peak
    && forall t :: t in sys.tries ==> TryOk(sys.tries[t], peak)
  }

  /** What one step does to the permits out. */
  lemma LiveAfter(sys: Sys, a: Act)
    requires Enabled(sys, a)
    ensures Live(Do(sys, a)) ==
      (if a.CompareExchange? && sys.slot.inflight == sys.tries[a.t].current then Live(sys) + {a.t}
       else if a.DropPermit? then Live(sys) - {a.t} else Live(sys))
  {}

  lemma DoKeepsCount(sys: Sys, a: Act, peak: nat)
    requires Ok(sys, peak) && Enabled(sys, a)
    ensures Do(sys, a).slot.inflight == |Live(Do(sys, a))| <= peak
  {
    LiveAfter(sys, a);
    if a.CompareExchange? && sys.slot.inflight == sys.tries[a.t].current {
      assert TryOk(sys.tries[a.t], peak) && a.t !in Live(sys);
      assert |Live(sys) + {a.t}| == |Live(sys)| + 1;
    } else if a.DropPermit? {
      assert a.t in Live(sys);
      assert |Live(sys) - {a.t}| == |Live(sys)| - 1;
    }
  }

  lemma DoKeepsOk(sys: Sys, a: Act, peak: nat, higher: nat)
    requires Ok(sys, peak) && peak <= higher < USIZE && Do(sys, a).slot.max <= higher
    ensures Ok(Do(sys, a), higher)
  {
    if Enabled(sys, a) {
      DoKeepsCount(sys, a, peak);
      forall t | t in Do(sys, a).tries ensures TryOk(Do(sys, a).tries[t], higher) {
        if t in sys.tries { assert TryOk(sys.tries[t], peak); }
      }
    }
  }

  /** At every point of every interleaving the counter equals the number of permits out, so it never wraps,
      and it never exceeds the largest maximum that was in force. */
  lemma {:induction false} InflightCountsPermits(acts: seq<Act>)
    ensures Ok(Run(acts), Peak(acts))
  {
    if acts != [] {
      var init := acts[..|acts| - 1];
      InflightCountsPermits(init);
      DoKeepsOk(Run(init), acts[|acts| - 1], Peak(init), Peak(acts));
    }
  }

  /** With the maximum set once, to any value, before the first attempt, that value is the bound. */
  lemma FixedMaximumIsNeverExceeded(max: nat, acts: seq<Act>)
    requires max < USIZE && forall a :: a in acts ==> !a.SetMaxConcurrent?
    ensures var sys := Run([SetMaxConcurrent(max)] + acts);
      sys.slot.max == AtLeastOne(max) && sys.slot.inflight == |Live(sys)| <= AtLeastOne(max)
  {
    var all := [SetMaxConcurrent(max)] + acts;
    FixedPeak(max, acts);
    InflightCountsPermits(all);
  }

  lemma {:induction false} FixedPeak(max: nat, acts: seq<Act>)
    requires max < USIZE && forall a :: a in acts ==> !a.SetMaxConcurrent?
    ensures var all := [SetMaxConcurrent(max)] + acts; Run(all).slot.max == Peak(all) == AtLeastOne(max)
  {
    var all := [SetMaxConcurrent(max)] + acts;
    if acts == [] {
      assert all[..0] == [];
    } else {
      var init, last := acts[..|acts| - 1], acts[|acts| - 1];
      assert all[..|all| - 1] == [SetMaxConcurrent(max)] + init && all[|all| - 1] == last && acts == init + [last];
      FixedPeak(max, init);
    }
  }

  lemma RunStep(acts: seq<Act>, a: Act) returns (more: seq<Act>)
    ensures more == acts + [a] && Run(more) == Do(Run(acts), a)
  {
    more := acts + [a];
    assert more[..|acts|] == acts;
  }

  predicate Above(sys: Sys) { sys.slot.inflight > sys.slot.max }

  /** The exchange of an attempt that loaded a larger maximum than the one in force, and a counter that
      already fills the one in force. */
  predicate AdmitsStale(sys: Sys, a: Act) {
    && a.CompareExchange? && Enabled(sys, a)
    && sys.tries[a.t].max > sys.slot.max && sys.tries[a.t].current >= sys.slot.max
    && sys.slot.inflight == sys.tries[a.t].current
  }

  predicate LowersBelow(sys: Sys, a: Act) {
    a.SetMaxConcurrent? && Enabled(sys, a) && AtLeastOne(a.max) < sys.slot.inflight
  }

  predicate Exceeds(sys: Sys, a: Act) { AdmitsStale(sys, a) || LowersBelow(sys, a) }

  /** The release that leaves no more permits than allowed, or a maximum that allows those out. */
  predicate Settles(sys: Sys, a: Act) {
    && Enabled(sys, a)
    && ((a.DropPermit? && sys.slot.inflight <= sys.slot.max + 1)
        || (a.SetMaxConcurrent? && sys.slot.inflight <= AtLeastOne(a.max)))
  }

  lemma DropTakesOne(sys: Sys, t: Tid, peak: nat)
    requires Ok(sys, peak) && At(sys, t, Permit)
    ensures Do(sys, DropPermit(t)).slot.inflight + 1 == sys.slot.inflight
  {
    assert t in Live(sys);
    DoKeepsCount(sys, DropPermit(t), peak);
    LiveAfter(sys, DropPermit(t));
  }

  lemma StepExceedsIff(sys: Sys, a: Act, peak: nat)
    requires Ok(sys, peak) && Enabled(sys, a)
    ensures Above(Do(sys, a)) <==> Exceeds(sys, a) || (Above(sys) && !Settles(sys, a))
  {
    if a.CompareExchange? { assert TryOk(sys.tries[a.t], peak); }
    if a.DropPermit? { DropTakesOne(sys, a.t, peak); }
  }

  /** Exactly which step leaves the counter above the maximum in force. */
  lemma ExceedsIff(acts: seq<Act>, a: Act)
    ensures Above(Do(Run(acts), a)) <==> Exceeds(Run(acts), a) || (Above(Run(acts)) && !Settles(Run(acts), a))
  {
    InflightCountsPermits(acts);
    if Enabled(Run(acts), a) { StepExceedsIff(Run(acts), a, Peak(acts)); }
  }

  predicate ExceedsAt(acts: seq<Act>, i: nat)
    requires i < |acts|
  {
    Exceeds(Run(acts[..i]), acts[i])
  }

  predicate SettlesAt(acts: seq<Act>, i: nat)
    requires i < |acts|
  {
    Settles(Run(acts[..i]), acts[i])
  }

  /** Step `i` takes the counter above the maximum and nothing settles it later. */
  predicate ExceedsForGood(acts: seq<Act>, i: nat)
    requires i < |acts|
  {
    ExceedsAt(acts, i) && forall j :: i < j < |acts| ==> !SettlesAt(acts, j)
  }

  /** At every point of every interleaving: the counter is above the maximum in force exactly when a stale
      admission or a lowered maximum took it there and no release and no new maximum has settled it since. */
  lemma {:induction false} AboveIff(acts: seq<Act>)
    ensures Above(Run(acts)) <==> exists i :: 0 <= i < |acts| && ExceedsForGood(acts, i)
  {
    if acts != [] {
      var n := |acts| - 1;
      AboveIff(acts[..n]);
      ExceedsIff(acts[..n], acts[n]);
      assert ExceedsAt(acts, n) == Exceeds(Run(acts[..n]), acts[n]);
      assert SettlesAt(acts, n) == Settles(Run(acts[..n]), acts[n]);
      forall i | 0 <= i < n
        ensures ExceedsForGood(acts, i) <==> ExceedsForGood(acts[..n], i) && !SettlesAt(acts, n)
      {
        ForGoodStep(acts, n, i);
      }
      if ExceedsAt(acts, n) { assert ExceedsForGood(acts, n); }
    }
  }

  lemma ForGoodStep(acts: seq<Act>, n: nat, i: nat)
    requires i < n && |acts| == n + 1
    ensures ExceedsForGood(acts, i) <==> ExceedsForGood(acts[..n], i) && !SettlesAt(acts, n)
  {
    assert acts[..n][..i] == acts[..i];
    forall j | i < j < n ensures SettlesAt(acts[..n], j) == SettlesAt(acts, j) {
      assert acts[..n][..j] == acts[..j];
    }
  }

  // ---- settings, and quarantine ----

  /** The settings in force: the last ones made, a maximum of zero counting as one. */
  function LastSettings(acts: seq<Act>): (nat, bool) {
    if acts == [] then (1, false)
    else
      var (max, quarantined) := LastSettings(acts[..|acts| - 1]);
      match acts[|acts| - 1]
      case SetMaxConcurrent(m) =>
        (if m >= 0x1_0000_0000_0000_0000 then max else if m == 0 then 1 else m, quarantined)
      case SetQuarantine(on) => (max, on)
      case _ => (max, quarantined)
  }

  lemma {:induction false} SettingsAreTheLastMade(acts: seq<Act>)
    ensures (Run(acts).slot.max, Run(acts).slot.quarantined) == LastSettings(acts)
  {
    if acts != [] { SettingsAreTheLastMade(acts[..|acts| - 1]); }
  }

  /** Step `i` lets attempt `t` past the quarantine check. */
  predicate ClearsAt(acts: seq<Act>, i: nat, t: Tid)
    requires i < |acts|
  {
    acts[i] == LoadQuarantined(t) && At(Run(acts[..i]), t, Entered) && !Run(acts[..i]).slot.quarantined
  }

  predicate PastCheck(sys: Sys, t: Tid) {
    t in sys.tries && sys.tries[t] != Entered && sys.tries[t] != Denied
  }

  /** Nobody is admitted, or gets anywhere near, without having found the slot out of quarantine. */
  lemma {:induction false} AdmittedWasCleared(acts: seq<Act>, t: Tid) returns (i: nat)
    requires PastCheck(Run(acts), t)
    ensures i < |acts| && ClearsAt(acts, i, t)
  {
    var n := |acts| - 1;
    if PastCheck(Run(acts[..n]), t) {
      i := AdmittedWasCleared(acts[..n], t);
      assert acts[..n][..i] == acts[..i];
    } else {
      i := n;
    }
  }

  predicate NeverLowers(acts: seq<Act>) {
    forall i :: 0 <= i < |acts| && acts[i].SetMaxConcurrent? && acts[i].max < USIZE ==>
      AtLeastOne(acts[i].max) >= Run(acts[..i]).slot.max
  }

  lemma {:induction false} PeakOfRisingMaximum(acts: seq<Act>)
    requires NeverLowers(acts)
    ensures Peak(acts) == Run(acts).slot.max
  {
    if acts != [] {
      var n := |acts| - 1;
      var init := acts[..n];
      assert NeverLowers(init) by { assert forall i :: 0 <= i < n ==> init[..i] == acts[..i] && init[i] == acts[i]; }
      PeakOfRisingMaximum(init);
      if acts[n].SetMaxConcurrent? && acts[n].max < USIZE { assert AtLeastOne(acts[n].max) >= Run(acts[..n]).slot.max; }
    }
  }

  /** While the maximum is only ever raised, the one in force is never exceeded. */
  lemma RisingMaximumIsNeverExceeded(acts: seq<Act>)
    requires NeverLowers(acts)
    ensures Run(acts).slot.inflight == |Live(Run(acts))| <= Run(acts).slot.max
  {
    PeakOfRisingMaximum(acts);
    InflightCountsPermits(acts);
  }

  /** Not lowering the maximum matters: an attempt that loaded the old maximum is admitted above a lowered one. */
  lemma LoweredMaximumIsExceeded() returns (acts: seq<Act>)
    ensures Run(acts).slot.max < Run(acts).slot.inflight
  {
    acts := RunStep([], SetMaxConcurrent(2));
    acts := ReachMaximum(acts, 0);
    acts := RunStep(acts, LoadInflight(0));
    acts := RunStep(acts, CompareExchange(0));
    assert Run(acts).slot == Slot(1, 2, false) && Run(acts).tries.Keys == {0};
    acts := ReachMaximum(acts, 1);
    acts := RunStep(acts, SetMaxConcurrent(1));
    acts := RunStep(acts, LoadInflight(1));
    acts := RunStep(acts, CompareExchange(1));
  }

  /** An attempt up to its load of the maximum. */
  lemma ReachMaximum(acts: seq<Act>, t: Tid) returns (more: seq<Act>)
    requires t !in Run(acts).tries && !Run(acts).slot.quarantined
    ensures Run(more) == Go(Run(acts), t, SawMax(Run(acts).slot.max))
  {
    more := RunStep(acts, Begin(t));
    more := RunStep(more, LoadQuarantined(t));
    more := RunStep(more, LoadMax(t));
  }

  /** An attempt nothing interrupts is admitted exactly when the slot is free. */
  lemma AdmittedAlone(sys: Sys, t: Tid)
    requires t !in sys.tries && Ok(sys, sys.slot.max)
    ensures var loaded := Do(Do(Do(Do(sys, Begin(t)), LoadQuarantined(t)), LoadMax(t)), LoadInflight(t));
      var tried := Do(loaded, CompareExchange(t));
      && (t in Live(tried) <==> !sys.slot.quarantined && sys.slot.inflight < sys.slot.max)
      && tried.slot == (if t in Live(tried) then sys.slot.(inflight := sys.slot.inflight + 1) else sys.slot)
  {}

  class PluginSlot {
    var inflight: nat
    var maxConcurrent: nat
    var quarantined: bool

    constructor ()
      ensures View() == INITIAL.slot
    {
      inflight, maxConcurrent, quarantined := 0, 1, false;
    }

    ghost function View(): Slot reads this { Slot(inflight, maxConcurrent, quarantined) }

    method SetMax(max: nat)
      modifies this`maxConcurrent
      ensures maxConcurrent >= 1 && (max >= 1 ==> maxConcurrent == max)
      ensures max == 0 ==> maxConcurrent == 1
    {
      maxConcurrent := AtLeastOne(max);
    }

    method TryExecution() returns (admitted: bool)
      requires maxConcurrent < USIZE
      modifies this`inflight
      ensures admitted == (!quarantined && old(inflight) < maxConcurrent)
      ensures inflight == if admitted then old(inflight) + 1 else old(inflight)
    {
      if quarantined { return false; }
      var current := inflight;
      if current >= maxConcurrent { return false; }
      inflight := Incremented(current);
      admitted := true;
    }

    /** Dropping the permit. */
    method Release()
      requires 0 < inflight < USIZE
      modifies this`inflight
      ensures inflight == old(inflight) - 1
    {
      inflight := Decremented(inflight);
    }
  }
}
