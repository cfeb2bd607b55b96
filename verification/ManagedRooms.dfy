/** Managed rooms: a definition is validated and normalised when it is submitted, and again whenever the
    persisted form is read back. */
module ManagedRooms {
  import opened Options
  import opened Canonical

  const MAX_MANAGED_ROOM_USERS := 64
  const MAX_ROOM_ID := 20
  const MAX_CHART_NAME := 200

  datatype Chart = Chart(id: int, name: string)

  datatype ChartMode = HostSelect | PoolRandom

  datatype RoomKind = Hosted | Reserved

  datatype Definition = Definition(
    roomId: string, kind: RoomKind, ownerId: Option<int>, maxUsers: nat, whitelist: seq<int>, hostId: Option<int>,
    chart: Option<Chart>, chartMode: ChartMode, chartPool: seq<Chart>, expiresAt: Option<int>)

  datatype Problem =
    BadRoomId | BadCapacity | BadOwner | BadWhitelist | NoPlayers | BadHost | BadChart | NoChart | NoExpiry | EmptyPool

  datatype Result = Ok(value: Definition) | Err(problem: Problem)

  // ---- room ids and chart names ---------------------------------------------------------------------

  predicate IsRoomIdChar(c: char) {
    c == '-' || c == '_' || '0' <= c <= '9' || 'a' <= c <= 'z' || 'A' <= c <= 'Z'
  }

  predicate IsRoomId(s: string) { 0 < |s| <= MAX_ROOM_ID && forall i :: 0 <= i < |s| ==> IsRoomIdChar(s[i]) }

  /** The characters with Unicode's White_Space property. */
  predicate IsWhitespace(c: char) {
    var n := c as int;
    0x09 <= n <= 0x0D || n == 0x20 || n == 0x85 || n == 0xA0 || n == 0x1680 || 0x2000 <= n <= 0x200A
    || n == 0x2028 || n == 0x2029 || n == 0x202F || n == 0x205F || n == 0x3000
  }

  function Trim(s: string): string {
    if s == [] then s
    else if IsWhitespace(s[0]) then Trim(s[1..])
    else if IsWhitespace(s[|s| - 1]) then Trim(s[..|s| - 1])
    else s
  }

  predicate IsTrimmed(s: string) { s == [] || (!IsWhitespace(s[0]) && !IsWhitespace(s[|s| - 1])) }

  /** Trimming takes white space off both ends and nothing else. */
  lemma {:induction false} TrimTakesTheEnds(s: string) returns (i: nat, j: nat)
    ensures i <= j <= |s| && Trim(s) == s[i..j] && IsTrimmed(Trim(s))
    ensures forall k :: 0 <= k < i || j <= k < |s| ==> IsWhitespace(s[k])
  {
    if s == [] {
      i, j := 0, 0;
    } else if IsWhitespace(s[0]) {
      i, j := TrimTakesTheEnds(s[1..]);
      assert forall k :: 1 <= k < |s| ==> s[k] == s[1..][k - 1];
      i, j := i + 1, j + 1;
    } else if IsWhitespace(s[|s| - 1]) {
      i, j := TrimTakesTheEnds(s[..|s| - 1]);
      assert s[..|s| - 1][i..j] == s[i..j];
    } else {
      i, j := 0, |s|;
    }
  }

  predicate ValidChart(c: Chart) { c.id != 0 && 0 < |Trim(c.name)| <= MAX_CHART_NAME }

  function NormalChart(c: Chart): Chart { c.(name := Trim(c.name)) }

  lemma NormalChartIsFixed(c: Chart)
    ensures NormalChart(NormalChart(c)) == NormalChart(c) && (ValidChart(NormalChart(c)) <==> ValidChart(c))
  {
    var i, j := TrimTakesTheEnds(c.name);
  }

  // ---- normalisation --------------------------------------------------------------------------------

  function UserKey(id: int): int { id }

  function ChartKey(c: Chart): int { c.id }

  function NormalWhitelist(whitelist: seq<int>): seq<int> { Canon(UserKey, whitelist) }

  function NormalCharts(charts: seq<Chart>): seq<Chart> {
    seq(|charts|, i requires 0 <= i < |charts| => NormalChart(charts[i]))
  }

  function NormalPool(pool: seq<Chart>): seq<Chart> { Canon(ChartKey, NormalCharts(pool)) }

  function MinimumCapacity(kind: RoomKind): nat { if kind == Hosted then 2 else 1 }

  predicate ValidCapacity(d: Definition) { MinimumCapacity(d.kind) <= d.maxUsers <= MAX_MANAGED_ROOM_USERS }

  predicate ValidWhitelist(whitelist: seq<int>, maxUsers: nat) {
    && |whitelist| <= MAX_MANAGED_ROOM_USERS && |whitelist| <= maxUsers
    && forall i :: 0 <= i < |whitelist| ==> whitelist[i] > 0
  }

  predicate ValidHost(host: Option<int>, whitelist: seq<int>) {
    host.Some? ==> host.value > 0 && (whitelist != [] ==> host.value in whitelist)
  }

  predicate ValidCharts(charts: seq<Chart>) { forall i :: 0 <= i < |charts| ==> ValidChart(charts[i]) }

  /** The last rules, once whitelist, chart and pool are normal. */
  function FinishKind(d: Definition): Result {
    if d.kind == Reserved then
      if d.chart.None? then Err(NoChart)
      else if d.expiresAt.None? then Err(NoExpiry)
      else Ok(d.(chartMode := HostSelect, chartPool := []))
    else if d.chartMode == PoolRandom && d.chartPool == [] then
      if d.chart.None? then Err(EmptyPool) else Ok(d.(expiresAt := None, chartPool := [d.chart.value]))
    else Ok(d.(expiresAt := None))
  }

  function NormalParts(d: Definition): Definition {
    d.(whitelist := NormalWhitelist(d.whitelist), chartPool := NormalPool(d.chartPool),
       chart := if d.chart.Some? then Some(NormalChart(d.chart.value)) else None)
  }

  function Normalize(d: Definition): Result {
    var whitelist := NormalWhitelist(d.whitelist);
    if !IsRoomId(d.roomId) then Err(BadRoomId)
    else if !ValidCapacity(d) then Err(BadCapacity)
    else if d.ownerId.Some? && d.ownerId.value <= 0 then Err(BadOwner)
    else if !ValidWhitelist(whitelist, d.maxUsers) then Err(BadWhitelist)
    else if d.kind == Reserved && whitelist == [] then Err(NoPlayers)
    else if !ValidHost(d.hostId, whitelist) then Err(BadHost)
    else if d.chart.Some? && !ValidChart(d.chart.value) then Err(BadChart)
    else if !ValidCharts(d.chartPool) then Err(BadChart)
    else FinishKind(NormalParts(d))
  }

  // ---- the canonical form ---------------------------------------------------------------------------

  predicate IsNormalPool(pool: seq<Chart>) {
    Increasing(ChartKey, pool) && ValidCharts(pool) && NormalCharts(pool) == pool
  }

  predicate IsNormalChart(c: Chart) { ValidChart(c) && NormalChart(c) == c }

  lemma PoolIsNormal(pool: seq<Chart>)
    requires ValidCharts(pool)
    ensures IsNormalPool(NormalPool(pool))
  {
    var charts, normal := NormalCharts(pool), NormalPool(pool);
    CanonIsCanonical(ChartKey, charts);
    forall i | 0 <= i < |normal| ensures ValidChart(normal[i]) && NormalChart(normal[i]) == normal[i] {
      assert normal[i] in normal && ComesFirst(ChartKey, charts, normal[i]);
      var k :| 0 <= k < |charts| && charts[k] == normal[i];
      NormalChartIsFixed(pool[k]);
    }
  }

  predicate HasNormalParts(n: Definition) {
    && IsRoomId(n.roomId) && ValidCapacity(n) && (n.ownerId.Some? ==> n.ownerId.value > 0)
    && Increasing(UserKey, n.whitelist) && ValidWhitelist(n.whitelist, n.maxUsers) && ValidHost(n.hostId, n.whitelist)
    && (n.chart.Some? ==> IsNormalChart(n.chart.value))
    && IsNormalPool(n.chartPool)
    && (n.kind == Reserved ==> n.whitelist != [])
  }

  predicate IsNormalRoom(n: Definition) {
    && HasNormalParts(n)
    && (n.kind == Reserved ==>
          n.chart.Some? && n.expiresAt.Some? && n.chartMode == HostSelect && n.chartPool == [])
    && (n.kind == Hosted ==> n.expiresAt.None? && (n.chartMode == PoolRandom ==> n.chartPool != []))
  }

  /** Whatever is accepted comes out in normal form, strictly increasing whitelist and pool included. */
  lemma ResultsAreNormal(d: Definition)
    requires Normalize(d).Ok?
    ensures IsNormalRoom(Normalize(d).value)
  {
    CanonIsIdempotent(UserKey, d.whitelist);
    PoolIsNormal(d.chartPool);
    if d.chart.Some? { NormalChartIsFixed(d.chart.value); }
    FinishIsNormal(NormalParts(d));
  }

  lemma FinishIsNormal(n: Definition)
    requires HasNormalParts(n) && FinishKind(n).Ok?
    ensures IsNormalRoom(FinishKind(n).value)
  {
    if n.chart.Some? { SingletonPool(n.chart.value); }
    assert IsNormalPool([]);
  }

  lemma SingletonPool(c: Chart)
    ensures IsNormalChart(c) ==> IsNormalPool([c])
  {}

  // ---- the rules, in the order they are reported ----------------------------------------------------

  /** A hyphen, an underscore, a digit or a letter, by ASCII code. */
  predicate IsIdCode(n: int) { n in {45, 95} || 48 <= n <= 57 || 65 <= n <= 90 || 97 <= n <= 122 }

  predicate BadlyNamed(c: Chart) { c.id == 0 || Trim(c.name) == "" || |Trim(c.name)| > 200 }

  function Ids(whitelist: seq<int>): set<int> { set id | id in whitelist }

  /** What each problem says about the definition as it was submitted. */
  ghost predicate Violates(d: Definition, p: Problem) {
    match p
    case BadRoomId => d.roomId == "" || |d.roomId| > 20 || exists c :: c in d.roomId && !IsIdCode(c as int)
    case BadCapacity => d.maxUsers < (if d.kind == Hosted then 2 else 1) || d.maxUsers > 64
    case BadOwner => d.ownerId.Some? && d.ownerId.value <= 0
    case BadWhitelist =>
      var n := |Ids(d.whitelist)|;
      n > 64 || n > d.maxUsers || exists id :: id in d.whitelist && id <= 0
    case NoPlayers => d.kind == Reserved && d.whitelist == []
    case BadHost => d.hostId.Some? && (d.hostId.value <= 0 || (d.whitelist != [] && d.hostId.value !in d.whitelist))
    case BadChart => (d.chart.Some? && BadlyNamed(d.chart.value)) || exists c :: c in d.chartPool && BadlyNamed(c)
    case NoChart => d.kind == Reserved && d.chart.None?
    case NoExpiry => d.kind == Reserved && d.expiresAt.None?
    case EmptyPool => d.kind == Hosted && d.chartMode == PoolRandom && d.chartPool == [] && d.chart.None?
  }

  /** The first rule, in the order they are checked, that the definition breaks. */
  ghost function FirstViolated(d: Definition): Option<Problem> {
    if Violates(d, BadRoomId) then Some(BadRoomId)
    else if Violates(d, BadCapacity) then Some(BadCapacity)
    else if Violates(d, BadOwner) then Some(BadOwner)
    else if Violates(d, BadWhitelist) then Some(BadWhitelist)
    else if Violates(d, NoPlayers) then Some(NoPlayers)
    else if Violates(d, BadHost) then Some(BadHost)
    else if Violates(d, BadChart) then Some(BadChart)
    else if Violates(d, NoChart) then Some(NoChart)
    else if Violates(d, NoExpiry) then Some(NoExpiry)
    else if Violates(d, EmptyPool) then Some(EmptyPool)
    else None
  }

  lemma RoomIdIff(d: Definition)
    ensures IsRoomId(d.roomId) <==> !Violates(d, BadRoomId)
  {
    assert forall c: char :: IsRoomIdChar(c) <==> IsIdCode(c as int);
    forall c | c in d.roomId ensures IsRoomId(d.roomId) ==> IsIdCode(c as int) {
      var i :| 0 <= i < |d.roomId| && d.roomId[i] == c;
    }
    if i :| 0 <= i < |d.roomId| && !IsRoomIdChar(d.roomId[i]) { assert d.roomId[i] in d.roomId; }
  }

  /** A normal whitelist is as long as there are distinct ids. */
  lemma WhitelistCountsIds(whitelist: seq<int>)
    ensures |NormalWhitelist(whitelist)| == |Ids(whitelist)| && Ids(NormalWhitelist(whitelist)) == Ids(whitelist)
  {
    WhitelistElements(whitelist);
    IncreasingCountsIds(NormalWhitelist(whitelist));
    forall id ensures id in Ids(NormalWhitelist(whitelist)) <==> id in Ids(whitelist) {
      assert id in NormalWhitelist(whitelist) <==> id in whitelist;
    }
    assert Ids(NormalWhitelist(whitelist)) == Ids(whitelist);
  }

  lemma IdsAppend(ids: seq<int>, id: int)
    ensures Ids(ids + [id]) == Ids(ids) + {id}
  {}

  lemma IncreasingPrefix(ids: seq<int>, last: int)
    requires Increasing(UserKey, ids + [last])
    ensures Increasing(UserKey, ids) && last !in ids
  {
    var all := ids + [last];
    forall i, j | 0 <= i < j < |ids| ensures UserKey(ids[i]) < UserKey(ids[j]) {
      assert UserKey(all[i]) < UserKey(all[j]);
    }
    forall i | 0 <= i < |ids| ensures ids[i] != last {
      assert UserKey(all[i]) < UserKey(all[|ids|]);
    }
  }

  lemma {:induction false} IncreasingCountsIds(ids: seq<int>)
    requires Increasing(UserKey, ids)
    ensures |Ids(ids)| == |ids|
  {
    if ids != [] {
      var init, last := ids[..|ids| - 1], ids[|ids| - 1];
      assert ids == init + [last];
      IncreasingPrefix(init, last);
      IncreasingCountsIds(init);
      IdsAppend(init, last);
    }
  }

  lemma WhitelistIff(d: Definition)
    ensures ValidWhitelist(NormalWhitelist(d.whitelist), d.maxUsers) <==> !Violates(d, BadWhitelist)
    ensures NormalWhitelist(d.whitelist) == [] <==> d.whitelist == []
    ensures ValidHost(d.hostId, NormalWhitelist(d.whitelist)) <==> !Violates(d, BadHost)
  {
    var normal := NormalWhitelist(d.whitelist);
    WhitelistCountsIds(d.whitelist);
    WhitelistElements(d.whitelist);
    assert forall id :: id in normal <==> id in d.whitelist;
    if d.whitelist != [] {
      var id := d.whitelist[0];
      assert id in d.whitelist;
    }
    if normal != [] { assert normal[0] in d.whitelist; }
  }

  lemma ChartsIff(d: Definition)
    ensures (d.chart.Some? && !ValidChart(d.chart.value)) || !ValidCharts(d.chartPool) <==> Violates(d, BadChart)
  {
    if !ValidCharts(d.chartPool) {
      var i :| 0 <= i < |d.chartPool| && !ValidChart(d.chartPool[i]);
      assert d.chartPool[i] in d.chartPool && BadlyNamed(d.chartPool[i]);
    }
    forall c | c in d.chartPool && BadlyNamed(c) ensures !ValidCharts(d.chartPool) {
      var i :| 0 <= i < |d.chartPool| && d.chartPool[i] == c;
    }
  }

  /** The pool has no chart exactly when none was submitted. */
  lemma PoolIff(d: Definition)
    ensures NormalPool(d.chartPool) == [] <==> d.chartPool == []
  {
    var charts := NormalCharts(d.chartPool);
    CanonIsCanonical(ChartKey, charts);
    if d.chartPool != [] {
      assert charts[0] in charts && ComesFirst(ChartKey, charts, charts[0]);
      assert charts[0] in NormalPool(d.chartPool);
    } else {
      assert charts == [] && Canon(ChartKey, charts) == [];
    }
  }

  lemma KindRulesIff(d: Definition)
    ensures var r := FinishKind(NormalParts(d));
      if Violates(d, NoChart) then r == Err(NoChart)
      else if Violates(d, NoExpiry) then r == Err(NoExpiry)
      else if Violates(d, EmptyPool) then r == Err(EmptyPool)
      else r.Ok?
  {
    PoolIff(d);
  }

  /** Every definition is answered by the first rule it breaks, and accepted exactly when it breaks none. */
  lemma AnsweredByFirstRule(d: Definition)
    ensures match FirstViolated(d)
            case Some(p) => Normalize(d) == Err(p)
            case None => Normalize(d).Ok?
  {
    RoomIdIff(d);
    WhitelistIff(d);
    ChartsIff(d);
    KindRulesIff(d);
  }

  /** An accepted definition keeps what it was submitted with, but for sorting, trimming, and what its kind
      rules out or fills in. */
  lemma ResultKeeps(d: Definition)
    requires Normalize(d).Ok?
    ensures var n := Normalize(d).value;
      && n.roomId == d.roomId && n.kind == d.kind && n.ownerId == d.ownerId && n.maxUsers == d.maxUsers
      && n.hostId == d.hostId && Ids(n.whitelist) == Ids(d.whitelist)
      && (n.chart.Some? <==> d.chart.Some?)
      && (d.chart.Some? ==> n.chart.value.id == d.chart.value.id && n.chart.value.name == Trim(d.chart.value.name))
      && n.chartMode == (if d.kind == Reserved then HostSelect else d.chartMode)
      && n.expiresAt == (if d.kind == Reserved then d.expiresAt else None)
      && n.chartPool == (if d.kind == Reserved then []
                         else if d.chartMode == PoolRandom && d.chartPool == [] then [n.chart.value]
                         else NormalPool(d.chartPool))
  {
    WhitelistCountsIds(d.whitelist);
    PoolIff(d);
  }

  /** The characters trimmed, by code point. */
  lemma WhitespaceIff(c: char)
    ensures IsWhitespace(c) ==
      (c as int in {9, 10, 11, 12, 13, 32, 133, 160, 5760, 8192, 8193, 8194, 8195, 8196, 8197, 8198, 8199, 8200,
                    8201, 8202, 8232, 8233, 8239, 8287, 12288})
  {
    var n := c as int;
    assert 9 <= n <= 13 <==> n in {9, 10, 11, 12, 13};
    assert 8192 <= n <= 8202 <==> n in {8192, 8193, 8194, 8195, 8196, 8197, 8198, 8199, 8200, 8201, 8202};
  }

  /** A definition is accepted unchanged exactly when it is in normal form. */
  lemma FixedIffNormal(d: Definition)
    ensures Normalize(d) == Ok(d) <==> IsNormalRoom(d)
  {
    if IsNormalRoom(d) {
      CanonOfIncreasing(UserKey, d.whitelist);
      CanonOfIncreasing(ChartKey, d.chartPool);
    } else if Normalize(d) == Ok(d) {
      ResultsAreNormal(d);
    }
  }

  /** Normalising a normalised definition succeeds and changes nothing. */
  lemma NormalizeIsIdempotent(d: Definition)
    requires Normalize(d).Ok?
    ensures Normalize(Normalize(d).value) == Normalize(d)
  {
    ResultsAreNormal(d);
    FixedIffNormal(Normalize(d).value);
  }

  /** Only the set of whitelisted users matters: order and repetition change neither the answer nor the form. */
  lemma WhitelistIsASet(d: Definition, whitelist: seq<int>)
    requires forall id :: id in whitelist <==> id in d.whitelist
    ensures NormalWhitelist(whitelist) == NormalWhitelist(d.whitelist)
    ensures Normalize(d.(whitelist := whitelist)) == Normalize(d)
  {
    WhitelistElements(whitelist);
    WhitelistElements(d.whitelist);
    forall id ensures id in NormalWhitelist(whitelist) <==> id in NormalWhitelist(d.whitelist) {
      assert id in NormalWhitelist(whitelist) <==> id in whitelist;
    }
    IncreasingIsUnique(UserKey, NormalWhitelist(whitelist), NormalWhitelist(d.whitelist));
  }

  lemma WhitelistElements(whitelist: seq<int>)
    ensures Increasing(UserKey, NormalWhitelist(whitelist))
    ensures forall id :: id in NormalWhitelist(whitelist) <==> id in whitelist
  {
    CanonIsCanonical(UserKey, whitelist);
    forall id ensures ComesFirst(UserKey, whitelist, id) <==> id in whitelist {
      if id in whitelist { FirstOccurrence(whitelist, id); }
    }
  }

  lemma {:induction false} FirstOccurrence(s: seq<int>, x: int)
    requires x in s
    ensures ComesFirst(UserKey, s, x)
  {
    var init, last := s[..|s| - 1], s[|s| - 1];
    assert s == init + [last];
    ComesFirstAppend(UserKey, init, last, x);
    if x in init { FirstOccurrence(init, x); }
  }

  /** The pool keeps, of the charts with one id, the first one submitted. */
  lemma PoolKeepsFirst(pool: seq<Chart>, c: Chart)
    ensures c in NormalPool(pool) <==> ComesFirst(ChartKey, NormalCharts(pool), c)
  {
    CanonIsCanonical(ChartKey, NormalCharts(pool));
  }

  predicate ContainsUser(d: Definition, user: int) {
    (d.kind == Hosted && d.whitelist == []) || user in d.whitelist
  }

  /** A normalised room lets in exactly the users submitted, or anyone if it is hosted and none were; and it
      lets its host in. */
  lemma HostMayEnter(d: Definition, user: int)
    requires Normalize(d).Ok?
    ensures d.hostId == Some(user) ==> ContainsUser(Normalize(d).value, user)
    ensures ContainsUser(Normalize(d).value, user) <==> user in d.whitelist || (d.kind == Hosted && d.whitelist == [])
  {
    WhitelistElements(d.whitelist);
    if d.whitelist != [] { assert d.whitelist[0] in d.whitelist; }
    if NormalWhitelist(d.whitelist) != [] { assert NormalWhitelist(d.whitelist)[0] in d.whitelist; }
  }

  // ---- configurations -------------------------------------------------------------------------------

  predicate SameConfiguration(a: Definition, b: Definition) {
    if a.kind == Reserved && b.kind == Reserved then a.(expiresAt := None) == b.(expiresAt := None) else a == b
  }

  /** `same_configuration` is an equivalence relation that respects who may enter, and two configurations
      are the same exactly when they differ at most in a reserved room's expiry. */
  lemma SameConfigurationIsEquivalence(a: Definition, b: Definition, c: Definition)
    ensures SameConfiguration(a, a)
    ensures SameConfiguration(a, b) ==> SameConfiguration(b, a)
    ensures SameConfiguration(a, b) && SameConfiguration(b, c) ==> SameConfiguration(a, c)
    ensures SameConfiguration(a, b) <==> a == b || (a.kind == Reserved && a == b.(expiresAt := a.expiresAt))
    ensures SameConfiguration(a, b) ==> forall user :: ContainsUser(a, user) == ContainsUser(b, user)
  {}

  // ---- the operation --------------------------------------------------------------------------------

  /** `retain` with a set of the ids seen so far. */
  method RetainFirst(whitelist: seq<int>) returns (kept: seq<int>)
    ensures kept == FirstOfEach(UserKey, whitelist)
  {
    kept := [];
    var seen: set<int> := {};
    for i := 0 to |whitelist|
      invariant Tracks(UserKey, whitelist[..i], kept, seen)
    {
      TracksStep(UserKey, whitelist, i, kept, seen);
      if whitelist[i] !in seen { kept := kept + [whitelist[i]]; }
      seen := seen + {whitelist[i]};
    }
    assert whitelist[..|whitelist|] == whitelist;
  }

  lemma ValidChartsStep(charts: seq<Chart>, n: nat)
    requires n < |charts| && ValidCharts(charts[..n]) && ValidChart(charts[n])
    ensures ValidCharts(charts[..n + 1])
  {
    var longer := charts[..n + 1];
    forall i | 0 <= i < |longer| ensures ValidChart(longer[i]) {
      if i < n { assert longer[i] == charts[..n][i]; }
    }
  }

  /** The pool loop: every chart is validated, the first of each id is kept. */
  method BuildPool(charts: seq<Chart>) returns (pool: Option<seq<Chart>>)
    ensures pool == if ValidCharts(charts) then Some(FirstOfEach(ChartKey, NormalCharts(charts))) else None
  {
    var kept: seq<Chart> := [];
    var seen: set<int> := {};
    ghost var normal := NormalCharts(charts);
    for i := 0 to |charts|
      invariant Tracks(ChartKey, normal[..i], kept, seen)
      invariant ValidCharts(charts[..i])
    {
      if !ValidChart(charts[i]) { return None; }
      var chart := NormalChart(charts[i]);
      TracksStep(ChartKey, normal, i, kept, seen);
      ValidChartsStep(charts, i);
      if chart.id !in seen { kept := kept + [chart]; }
      seen := seen + {chart.id};
    }
    assert normal[..|charts|] == normal && charts[..|charts|] == charts;
    pool := Some(kept);
  }

  method ValidateAndNormalize(d: Definition) returns (r: Result)
    ensures r == Normalize(d)
  {
    var room := d;
    if !IsRoomId(room.roomId) { return Err(BadRoomId); }
    if !ValidCapacity(room) { return Err(BadCapacity); }
    if room.ownerId.Some? && room.ownerId.value <= 0 { return Err(BadOwner); }
    var kept := RetainFirst(room.whitelist);
    room := room.(whitelist := Sort(UserKey, kept));
    if !ValidWhitelist(room.whitelist, room.maxUsers) { return Err(BadWhitelist); }
    if room.kind == Reserved && room.whitelist == [] { return Err(NoPlayers); }
    if !ValidHost(room.hostId, room.whitelist) { return Err(BadHost); }
    if room.chart.Some? {
      if !ValidChart(room.chart.value) { return Err(BadChart); }
      room := room.(chart := Some(NormalChart(room.chart.value)));
    }
    var pool := BuildPool(room.chartPool);
    if pool.None? { return Err(BadChart); }
    room := room.(chartPool := Sort(ChartKey, pool.value));
    if room.kind == Reserved {
      if room.chart.None? { return Err(NoChart); }
      room := room.(chartMode := HostSelect, chartPool := []);
      if room.expiresAt.None? { return Err(NoExpiry); }
    } else {
      room := room.(expiresAt := None);
      if room.chartMode == PoolRandom && room.chartPool == [] {
        if room.chart.None? { return Err(EmptyPool); }
        room := room.(chartPool := [room.chart.value]);
      }
    }
    r := Ok(room);
  }
}
