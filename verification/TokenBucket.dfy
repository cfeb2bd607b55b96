/** The token-bucket rate limiter, over exact reals. */
module TokenBucket {
  datatype Limit = Limit(burst: nat, rate: real)

  datatype Bucket = Bucket(tokens: real, lastRefill: real)

  /** The tokens that waiting from one time to another earns. */
  function Earned(l: Limit, from: real, to: real): real { (to - from) * l.rate }

  function Refilled(l: Limit, b: Bucket, now: real): real {
    var tokens := b.tokens + Earned(l, b.lastRefill, now);
    if tokens < l.burst as real then tokens else l.burst as real
  }

  predicate Allows(l: Limit, b: Bucket, now: real) { Refilled(l, b, now) >= 1.0 }

  function Consumed(l: Limit, b: Bucket, now: real): Bucket {
    Bucket(if Allows(l, b, now) then Refilled(l, b, now) - 1.0 else Refilled(l, b, now), now)
  }

  function Full(l: Limit, at: real): Bucket { Bucket(l.burst as real, at) }

  // ---- runs -----------------------------------------------------------------------------------------

  /** The bucket, created at `origin`, after requests at the times `h`. */
  function After(l: Limit, origin: real, h: seq<real>): Bucket {
    if h == [] then Full(l, origin) else Consumed(l, After(l, origin, h[..|h| - 1]), h[|h| - 1])
  }

  predicate Timed(origin: real, h: seq<real>) {
    && (h != [] ==> origin <= h[0])
    && forall i, j :: 0 <= i < j < |h| ==> h[i] <= h[j]
  }

  predicate Allowed(l: Limit, origin: real, h: seq<real>, i: nat)
    requires i < |h|
  {
    Allows(l, After(l, origin, h[..i]), h[i])
  }

  /** How many of the requests `i..j` were allowed. */
  function Count(l: Limit, origin: real, h: seq<real>, i: nat, j: nat): nat
    requires i <= j <= |h|
  {
    if i == j then 0 else Count(l, origin, h, i, j - 1) + if Allowed(l, origin, h, j - 1) then 1 else 0
  }

  // ---- the same bucket over what each request's wait earned -----------------------------------------

  function Refill(burst: real, tokens: real, gain: real): real {
    if tokens + gain < burst then tokens + gain else burst
  }

  /** The tokens left after requests that earned the gains `g`, from a full bucket. */
  function Level(burst: real, g: seq<real>): real {
    if g == [] then burst
    else Spend(Refill(burst, Level(burst, g[..|g| - 1]), g[|g| - 1]))
  }

  function Spend(tokens: real): real { if tokens >= 1.0 then tokens - 1.0 else tokens }

  /** The tokens request `j` finds. */
  function Found(burst: real, g: seq<real>, j: nat): real
    requires j < |g|
  {
    Refill(burst, Level(burst, g[..j]), g[j])
  }

  /** What the bound over the run from request `i` leaves for request `j`. */
  function Headroom(burst: real, g: seq<real>, i: nat, j: nat): real
    requires i <= j < |g|
  {
    if i == j then burst
    else Headroom(burst, g, i, j - 1) + g[j] - if Found(burst, g, j - 1) >= 1.0 then 1.0 else 0.0
  }

  lemma FoundStep(burst: real, g: seq<real>, j: nat)
    requires 0 < j < |g|
    ensures var before := Found(burst, g, j - 1);
      Found(burst, g, j) == Refill(burst, Spend(before), g[j])
  {
    assert g[..j][..j - 1] == g[..j - 1] && g[..j][j - 1] == g[j - 1];
  }

  /** The tokens a request finds are the least headroom that any run ending in it leaves. */
  lemma {:induction false} FoundIsLeastHeadroom(burst: real, g: seq<real>, j: nat) returns (tightest: nat)
    requires j < |g| && forall i :: 0 <= i < |g| ==> g[i] >= 0.0
    ensures forall i :: 0 <= i <= j ==> Found(burst, g, j) <= Headroom(burst, g, i, j)
    ensures tightest <= j && Found(burst, g, j) == Headroom(burst, g, tightest, j)
  {
    if j == 0 {
      assert g[..0] == [];
      tightest := 0;
    } else {
      tightest := FoundIsLeastHeadroom(burst, g, j - 1);
      FoundStep(burst, g, j);
      if Found(burst, g, j) == burst { tightest := j; }
    }
  }

  /** What the wait before each request earned. */
  function Gains(l: Limit, origin: real, h: seq<real>): seq<real> {
    seq(|h|, i requires 0 <= i < |h| => Earned(l, Before(origin, h, i), h[i]))
  }

  /** The time of the request before request `i`. */
  function Before(origin: real, h: seq<real>, i: nat): real
    requires i <= |h|
  {
    if i == 0 then origin else h[i - 1]
  }

  lemma GainsPrefix(l: Limit, origin: real, h: seq<real>, n: nat)
    requires n <= |h|
    ensures Gains(l, origin, h[..n]) == Gains(l, origin, h)[..n]
  {}

  lemma EarnedSplits(l: Limit, from: real, mid: real, to: real)
    ensures Earned(l, from, to) == Earned(l, from, mid) + Earned(l, mid, to)
  {}

  lemma EarnedNotNegative(l: Limit, from: real, to: real)
    requires l.rate >= 0.0 && from <= to
    ensures Earned(l, from, to) >= 0.0
  {}

  lemma EarnedNothing(l: Limit, at: real)
    ensures Earned(l, at, at) == 0.0
  {}

  lemma GainsNotNegative(l: Limit, origin: real, h: seq<real>)
    requires l.rate >= 0.0 && Timed(origin, h)
    ensures forall i :: 0 <= i < |h| ==> Gains(l, origin, h)[i] >= 0.0
  {
    forall i | 0 <= i < |h| ensures Gains(l, origin, h)[i] >= 0.0 {
      EarnedNotNegative(l, Before(origin, h, i), h[i]);
    }
  }

  /** One request on a bucket, told with what the wait earned. */
  lemma ConsumedByGain(l: Limit, b: Bucket, now: real, gain: real)
    requires gain == Earned(l, b.lastRefill, now)
    ensures Refilled(l, b, now) == Refill(l.burst as real, b.tokens, gain)
    ensures Consumed(l, b, now) == Bucket(Spend(Refill(l.burst as real, b.tokens, gain)), now)
  {}

  lemma AfterLast(l: Limit, origin: real, h: seq<real>)
    ensures After(l, origin, h).lastRefill == Before(origin, h, |h|)
  {}

  /** What the last request's wait earned, as its gain. */
  lemma LastGain(l: Limit, origin: real, h: seq<real>)
    requires h != []
    ensures var n := |h| - 1;
      Gains(l, origin, h)[n] == Earned(l, After(l, origin, h[..n]).lastRefill, h[n])
      && Gains(l, origin, h)[..n] == Gains(l, origin, h[..n])
  {
    var n := |h| - 1;
    AfterLast(l, origin, h[..n]);
    GainsPrefix(l, origin, h, n);
  }

  lemma {:induction false} TokensAreLevel(l: Limit, origin: real, h: seq<real>)
    ensures After(l, origin, h).tokens == Level(l.burst as real, Gains(l, origin, h))
  {
    if h != [] {
      var n := |h| - 1;
      TokensAreLevel(l, origin, h[..n]);
      LastGain(l, origin, h);
      ConsumedByGain(l, After(l, origin, h[..n]), h[n], Gains(l, origin, h)[n]);
    }
  }

  lemma AllowedIffFound(l: Limit, origin: real, h: seq<real>, j: nat)
    requires j < |h|
    ensures Allowed(l, origin, h, j) <==> Found(l.burst as real, Gains(l, origin, h), j) >= 1.0
  {
    var upTo := h[..j + 1];
    assert upTo[..j] == h[..j] && upTo[j] == h[j];
    GainsPrefix(l, origin, h, j + 1);
    TokensAreLevel(l, origin, h[..j]);
    LastGain(l, origin, upTo);
    ConsumedByGain(l, After(l, origin, h[..j]), h[j], Gains(l, origin, upTo)[j]);
    assert Gains(l, origin, h)[..j + 1][..j] == Gains(l, origin, h)[..j];
  }

  /** The gains of the waits after request `i`, up to request `j`. */
  function SumOfGains(g: seq<real>, i: nat, j: nat): real
    requires i <= j < |g|
  {
    if i == j then 0.0 else SumOfGains(g, i, j - 1) + g[j]
  }

  /** How many of the requests `i..j` found a token. */
  function CountFound(burst: real, g: seq<real>, i: nat, j: nat): nat
    requires i <= j <= |g|
  {
    if i == j then 0 else CountFound(burst, g, i, j - 1) + if Found(burst, g, j - 1) >= 1.0 then 1 else 0
  }

  lemma {:induction false} HeadroomIsSum(burst: real, g: seq<real>, i: nat, j: nat)
    requires i <= j < |g|
    ensures Headroom(burst, g, i, j) == burst + SumOfGains(g, i, j) - CountFound(burst, g, i, j) as real
  {
    if i < j { HeadroomIsSum(burst, g, i, j - 1); }
  }

  lemma {:induction false} SumOfGainsIsEarned(l: Limit, origin: real, h: seq<real>, i: nat, j: nat)
    requires i <= j < |h|
    ensures SumOfGains(Gains(l, origin, h), i, j) == Earned(l, h[i], h[j])
  {
    if i == j {
      EarnedNothing(l, h[i]);
    } else {
      SumOfGainsIsEarned(l, origin, h, i, j - 1);
      EarnedSplits(l, h[i], h[j - 1], h[j]);
    }
  }

  lemma {:induction false} CountIsCountFound(l: Limit, origin: real, h: seq<real>, i: nat, j: nat)
    requires i <= j <= |h|
    ensures Count(l, origin, h, i, j) == CountFound(l.burst as real, Gains(l, origin, h), i, j)
  {
    if i < j {
      CountIsCountFound(l, origin, h, i, j - 1);
      AllowedIffFound(l, origin, h, j - 1);
    }
  }

  lemma HeadroomIsBound(l: Limit, origin: real, h: seq<real>, i: nat, j: nat)
    requires i <= j < |h|
    ensures Headroom(l.burst as real, Gains(l, origin, h), i, j) ==
      l.burst as real + Earned(l, h[i], h[j]) - Count(l, origin, h, i, j) as real
  {
    HeadroomIsSum(l.burst as real, Gains(l, origin, h), i, j);
    SumOfGainsIsEarned(l, origin, h, i, j);
    CountIsCountFound(l, origin, h, i, j);
  }

  // ---- main results ---------------------------------------------------------------------------------

  lemma {:induction false} LevelInRange(burst: real, g: seq<real>)
    requires burst >= 0.0 && forall i :: 0 <= i < |g| ==> g[i] >= 0.0
    ensures 0.0 <= Level(burst, g) <= burst
  {
    if g != [] { LevelInRange(burst, g[..|g| - 1]); }
  }

  /** Whatever the requests, the tokens stay between none and `burst`. */
  lemma TokensStayInRange(l: Limit, origin: real, h: seq<real>)
    requires l.rate >= 0.0 && Timed(origin, h)
    ensures 0.0 <= After(l, origin, h).tokens <= l.burst as real
  {
    TokensAreLevel(l, origin, h);
    GainsNotNegative(l, origin, h);
    LevelInRange(l.burst as real, Gains(l, origin, h));
  }

  /** Would allowing request `j` keep to the bound over the run from request `i`? */
  predicate KeepsBound(l: Limit, origin: real, h: seq<real>, i: nat, j: nat)
    requires i <= j < |h|
  {
    Count(l, origin, h, i, j) as real + 1.0 <= l.burst as real + Earned(l, h[i], h[j])
  }

  /** A request is allowed exactly when allowing it keeps to the bound over every run that ends in it: the
      bucket refuses nothing the bound would let through. */
  lemma AllowedIffEveryBoundKept(l: Limit, origin: real, h: seq<real>, j: nat)
    requires l.rate >= 0.0 && Timed(origin, h) && j < |h|
    ensures Allowed(l, origin, h, j) <==> forall i :: 0 <= i <= j ==> KeepsBound(l, origin, h, i, j)
  {
    var burst, g := l.burst as real, Gains(l, origin, h);
    AllowedIffFound(l, origin, h, j);
    GainsNotNegative(l, origin, h);
    var tightest := FoundIsLeastHeadroom(burst, g, j);
    forall i | 0 <= i <= j ensures KeepsBound(l, origin, h, i, j) <==> Headroom(burst, g, i, j) >= 1.0 {
      HeadroomIsBound(l, origin, h, i, j);
    }
    assert KeepsBound(l, origin, h, tightest, j) <==> Headroom(burst, g, tightest, j) >= 1.0;
  }

  /** From any request to any later one, at most `burst + rate * elapsed` are allowed. */
  lemma {:induction false} RateIsBounded(l: Limit, origin: real, h: seq<real>, i: nat, j: nat)
    requires l.rate >= 0.0 && Timed(origin, h) && i <= j < |h|
    ensures Count(l, origin, h, i, j + 1) as real <= l.burst as real + Earned(l, h[i], h[j])
  {
    assert Count(l, origin, h, i, j + 1) == Count(l, origin, h, i, j) + if Allowed(l, origin, h, j) then 1 else 0;
    if Allowed(l, origin, h, j) {
      AllowedIffEveryBoundKept(l, origin, h, j);
      assert KeepsBound(l, origin, h, i, j);
    } else if i < j {
      RateIsBounded(l, origin, h, i, j - 1);
      EarnedSplits(l, h[i], h[j - 1], h[j]);
      EarnedNotNegative(l, h[j - 1], h[j]);
    } else {
      EarnedNotNegative(l, h[i], h[j]);
    }
  }

  class TokenBucketRateLimiter {
    const limit: Limit
    var tokens: real
    var lastRefill: real

    constructor (burst: nat, rate: real, now: real)
      ensures limit == Limit(burst, rate) && View() == Full(limit, now)
    {
      limit := Limit(burst, rate);
      tokens, lastRefill := burst as real, now;
    }

    ghost function View(): Bucket reads this { Bucket(tokens, lastRefill) }

    method TryConsume(now: real) returns (allowed: bool)
      modifies this
      ensures allowed == Allows(limit, old(View()), now) && View() == Consumed(limit, old(View()), now)
    {
      var elapsed := now - lastRefill;
      tokens := tokens + elapsed * limit.rate;
      if tokens >= limit.burst as real { tokens := limit.burst as real; }
      lastRefill := now;
      allowed := tokens >= 1.0;
      if allowed { tokens := tokens - 1.0; }
    }
  }
}
