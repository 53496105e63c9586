/**
 * Token-distribution vesting arithmetic (`TokenDistroHelper`).
 *
 * A helper is an immutable schedule: an initial amount released at the start,
 * a locked amount released linearly over [startTime, endTime] but visible only
 * after the cliff, and the total. Every getter of the source reads the wall
 * clock; here the current time `now` (milliseconds) is a parameter.
 * Token amounts are unbounded naturals, as ethers' BigNumber is.
 */
module TokenDistro {
  import opened Wrappers

  /** Stream tag of a regen distribution; only FOX selects other balance fields. */
  datatype StreamType = Fox | Regen(name: string)

  /** Schedule snapshot read from the subgraph (`ITokenDistroInfo`). */
  datatype TokenDistroInfo = TokenDistroInfo(
    contractAddress: string,
    initialAmount: nat,
    lockedAmount: nat,
    totalTokens: nat,
    startTime: int,
    cliffTime: int,
    endTime: int)

  /** The four fields of a user's `IBalances` snapshot that the helper reads. */
  datatype Balances = Balances(
    allocatedTokens: nat,
    claimed: nat,
    foxAllocatedTokens: nat,
    foxClaimed: nat)

  /** Milliseconds per second and seconds per week, as in the source. */
  const MillisPerSecond: real := 1000.0
  const SecondsPerWeek: real := 604800.0

  /** `new TokenDistroHelper(info, streamType)`. */
  datatype TokenDistroHelper = TokenDistroHelper(info: TokenDistroInfo, streamType: Option<StreamType>) {

    /** `duration`, fixed at construction. */
    function Duration(): int {
      info.endTime - info.startTime
    }

    /** The order of the three schedule instants that the distribution keeps. */
    predicate Ordered() {
      info.startTime <= info.cliffTime <= info.endTime
    }

    /** The schedule hands out no more than its total. */
    predicate Funded() {
      info.initialAmount + info.lockedAmount <= info.totalTokens
    }

    /** `remain`: milliseconds until the end, never negative. */
    function Remain(now: int): (r: nat)
      ensures now <= info.endTime ==> now + r == info.endTime
      ensures now >= info.endTime ==> r == 0
    {
      if info.endTime - now > 0 then info.endTime - now else 0
    }

    /**
     * `percent`: elapsed share of the schedule in percent. `None` is the NaN
     * that `0 / 0` yields when the schedule has no duration.
     */
    function Percent(now: int): (r: Option<real>)
      ensures r.None? <==> Duration() == 0
      ensures r.Some? ==> 0.0 <= r.value <= 100.0
      ensures Duration() > 0 && now <= info.startTime ==> r == Some(0.0)
      ensures Duration() > 0 && now >= info.endTime ==> r == Some(100.0)
    {
      var elapsed := if Duration() - Remain(now) > 0 then Duration() - Remain(now) else 0;
      if Duration() == 0 then None
      else
        assert elapsed <= Duration() || Duration() < 0;
        assert now >= info.endTime && Duration() > 0 ==> elapsed as real / Duration() as real == 1.0;
        Some(elapsed as real / Duration() as real * 100.0)
    }

    /**
     * `globallyClaimableNow`: nothing before the start, the initial amount up
     * to and including the cliff, everything after the end, and in between the
     * initial amount plus the share of the locked amount that the time since
     * the START (not the cliff) represents, truncated.
     */
    function GloballyClaimableNow(now: int): (r: nat)
      requires Ordered()
      ensures now <= info.endTime ==> r <= info.initialAmount + info.lockedAmount
    {
      if now < info.startTime then 0
      else if now <= info.cliffTime then info.initialAmount
      else if now > info.endTime then info.totalTokens
      else
        var delta := now - info.startTime;
        ReleasedAtMostLocked(info.lockedAmount, delta, Duration());
        info.initialAmount + ReleasedAmount(info.lockedAmount, delta, Duration())
    }

    /** `getLiquidPart`: the share of `amount` that is claimable now, truncated. */
    function LiquidPart(amount: nat, now: int): (r: nat)
      requires Ordered()
      ensures info.totalTokens == 0 ==> r == 0
      ensures info.totalTokens > 0 ==>
        r * info.totalTokens <= GloballyClaimableNow(now) * amount < (r + 1) * info.totalTokens
      ensures GloballyClaimableNow(now) <= info.totalTokens ==> r <= amount
    {
      if info.totalTokens == 0 then 0
      else
        var c := GloballyClaimableNow(now);
        ScaledShareAtMostWhole(c, amount, info.totalTokens);
        FloorDivBounds(c * amount, info.totalTokens);
        c * amount / info.totalTokens
    }

    /**
     * `getStreamPartTokenPerSecond`: the still-locked part of `amount` spread
     * over the seconds left; zero once the schedule has ended.
     */
    function StreamPartTokenPerSecond(amount: nat, now: int): (r: real)
      requires Ordered()
      ensures Remain(now) == 0 ==> r == 0.0
      ensures Remain(now) > 0 ==>
        r * (Remain(now) as real / MillisPerSecond) == (amount - LiquidPart(amount, now)) as real
      ensures GloballyClaimableNow(now) <= info.totalTokens ==> r >= 0.0
    {
      var toFinish := Remain(now) as real / MillisPerSecond;
      if toFinish <= 0.0 then 0.0
      else
        var locked := amount - LiquidPart(amount, now);
        QuotientTimesDivisor(locked as real, toFinish);
        locked as real / toFinish
    }

    /** `getStreamPartTokenPerWeek`: the per-second rate times the seconds of a week. */
    function StreamPartTokenPerWeek(amount: nat, now: int): (r: real)
      requires Ordered()
      ensures Remain(now) == 0 ==> r == 0.0
      ensures Remain(now) > 0 ==>
        r * (Remain(now) as real / MillisPerSecond) == (amount - LiquidPart(amount, now)) as real * SecondsPerWeek
    {
      StreamPartTokenPerSecond(amount, now) * SecondsPerWeek
    }

    /** The (allocated, claimed) pair of the balance fields this stream reads. */
    function Allocation(b: Balances): (nat, nat) {
      match streamType
      case Some(Fox) => (b.foxAllocatedTokens, b.foxClaimed)
      case _ => (b.allocatedTokens, b.claimed)
    }

    /**
     * `getUserClaimableNow`: the liquid part of the allocation minus what was
     * already claimed. Not clamped: negative when the claimed amount exceeds it.
     */
    function UserClaimableNow(b: Balances, now: int): (r: int)
      requires Ordered()
      ensures r + Allocation(b).1 == LiquidPart(Allocation(b).0, now)
      ensures r < 0 <==> Allocation(b).1 > LiquidPart(Allocation(b).0, now)
      ensures GloballyClaimableNow(now) <= info.totalTokens ==> r <= Allocation(b).0 - Allocation(b).1
    {
      var (allocatedTokens, claimed) := Allocation(b);
      LiquidPart(allocatedTokens, now) - claimed
    }

    /** `GlobalReleasePercentage`: the released share of the total, in percent. */
    function GlobalReleasePercentage(now: int): (r: real)
      requires Ordered()
      ensures info.totalTokens == 0 ==> r == 0.0
      ensures info.totalTokens > 0 ==> r * info.totalTokens as real == (GloballyClaimableNow(now) * 100) as real
      ensures GloballyClaimableNow(now) <= info.totalTokens ==> 0.0 <= r <= 100.0
    {
      if info.totalTokens == 0 then 0.0
      else
        var c := GloballyClaimableNow(now);
        PercentOfWhole(c, info.totalTokens);
        (c * 100) as real / info.totalTokens as real
    }
  }

  /** `lockedAmount * deltaTime / duration`, BigNumber division truncating (operands are non-negative). */
  function ReleasedAmount(locked: nat, delta: nat, duration: int): nat
    requires duration > 0
  {
    MulNonNegative(locked, delta);
    locked * delta / duration
  }

  // ---------------------------------------------------------------------------
  // Properties of the release curve

  /** The three plateaus of the release curve. */
  lemma ReleasePhases(h: TokenDistroHelper, now: int)
    requires h.Ordered()
    ensures now < h.info.startTime ==> h.GloballyClaimableNow(now) == 0
    ensures h.info.startTime <= now <= h.info.cliffTime ==> h.GloballyClaimableNow(now) == h.info.initialAmount
    ensures now > h.info.endTime ==> h.GloballyClaimableNow(now) == h.info.totalTokens
  {
  }

  /** Between the cliff and the end the ramp is anchored at the start time. */
  lemma RampAnchoredAtStart(h: TokenDistroHelper, now: int)
    requires h.Ordered() && h.info.cliffTime < now <= h.info.endTime
    ensures h.Duration() > 0
    ensures h.GloballyClaimableNow(now)
         == h.info.initialAmount + h.info.lockedAmount * (now - h.info.startTime) / h.Duration()
  {
  }

  /** The ramp never goes down. */
  lemma {:induction false} RampMonotone(h: TokenDistroHelper, t1: int, t2: int)
    requires h.Ordered() && h.info.cliffTime < t1 <= t2 <= h.info.endTime
    ensures h.GloballyClaimableNow(t1) <= h.GloballyClaimableNow(t2)
  {
    var d := h.Duration();
    MulMonotone(h.info.lockedAmount, t1 - h.info.startTime, t2 - h.info.startTime);
    DivMonotone(h.info.lockedAmount * (t1 - h.info.startTime), h.info.lockedAmount * (t2 - h.info.startTime), d);
  }

  /** On a funded schedule the whole curve is non-decreasing in time. */
  lemma {:induction false} ClaimableMonotone(h: TokenDistroHelper, t1: int, t2: int)
    requires h.Ordered() && h.Funded() && t1 <= t2
    ensures h.GloballyClaimableNow(t1) <= h.GloballyClaimableNow(t2)
  {
    var s, c, e := h.info.startTime, h.info.cliffTime, h.info.endTime;
    if t1 < s || t2 > e {
    } else if t1 <= c {
      if t2 > c {
        assert h.GloballyClaimableNow(t2) >= h.info.initialAmount;
      }
    } else {
      RampMonotone(h, t1, t2);
    }
  }

  /** On a funded schedule no more than the total is ever claimable. */
  lemma ClaimableAtMostTotal(h: TokenDistroHelper, now: int)
    requires h.Ordered() && h.Funded()
    ensures h.GloballyClaimableNow(now) <= h.info.totalTokens
  {
  }

  /** On a funded schedule the liquid part of an allocation never exceeds it. */
  lemma LiquidAtMostAllocation(h: TokenDistroHelper, amount: nat, now: int)
    requires h.Ordered() && h.Funded()
    ensures h.LiquidPart(amount, now) <= amount
  {
    ClaimableAtMostTotal(h, now);
  }

  /** The FOX stream reads only the FOX fields, every other stream only the default ones. */
  lemma ClaimableReadsOwnFields(h: TokenDistroHelper, b1: Balances, b2: Balances, now: int)
    requires h.Ordered()
    requires h.streamType == Some(Fox) ==> b1.foxAllocatedTokens == b2.foxAllocatedTokens && b1.foxClaimed == b2.foxClaimed
    requires h.streamType != Some(Fox) ==> b1.allocatedTokens == b2.allocatedTokens && b1.claimed == b2.claimed
    ensures h.UserClaimableNow(b1, now) == h.UserClaimableNow(b2, now)
  {
  }

  /** The week rate is the second rate scaled by the seconds of a week. */
  lemma WeekRateIsScaledSecondRate(h: TokenDistroHelper, amount: nat, now: int)
    requires h.Ordered()
    ensures h.StreamPartTokenPerWeek(amount, now) == h.StreamPartTokenPerSecond(amount, now) * 604800.0
  {
  }

  /** Worked schedules: linear midpoint, past the end, and a zero-supply schedule. */
  lemma Scenarios(t0: int, now: int, amount: nat)
    ensures var h := TokenDistroHelper(TokenDistroInfo("", 0, 1000, 1000, t0, t0, t0 + 100000), None);
      h.GloballyClaimableNow(t0 + 50000) == 500 && h.GloballyClaimableNow(t0 + 150000) == 1000
    ensures var z := TokenDistroHelper(TokenDistroInfo("", 0, 0, 0, t0, t0, t0 + 100000), None);
      z.GlobalReleasePercentage(now) == 0.0 && z.LiquidPart(amount, now) == 0
  {
  }

  // ---------------------------------------------------------------------------
  // Arithmetic used by the proofs above

  lemma MulNonNegative(a: nat, b: nat)
    ensures a * b >= 0
  {
  }

  lemma MulMonotone(a: nat, x: int, y: int)
    requires x <= y
    ensures a * x <= a * y
  {
    assert a * y - a * x == a * (y - x);
    MulNonNegative(a, y - x);
  }

  lemma FloorDivBounds(n: nat, d: int)
    requires d > 0
    ensures (n / d) * d <= n < (n / d + 1) * d
  {
  }

  /** Two multiples of `d` that are ordered have ordered factors. */
  lemma FactorsOrdered(a: int, b: int, d: int)
    requires d > 0 && a * d < (b + 1) * d
    ensures a <= b
  {
    if a > b {
      MulMonotone(d, b + 1, a);
    }
  }

  lemma DivMonotone(p: nat, q: int, d: int)
    requires p <= q && d > 0
    ensures p / d <= q / d
  {
    FloorDivBounds(p, d);
    FloorDivBounds(q, d);
    FactorsOrdered(p / d, q / d, d);
  }

  lemma MulDivCancel(a: nat, d: int)
    requires d > 0
    ensures a * d / d == a
  {
    MulNonNegative(a, d);
    var q := a * d / d;
    FloorDivBounds(a * d, d);
    FactorsOrdered(q, a, d);
    assert a * d < (a * d / d + 1) * d;
    FactorsOrdered(a, q, d);
  }

  lemma ReleasedAtMostLocked(locked: nat, delta: int, duration: int)
    requires 0 < delta <= duration
    ensures locked * delta / duration <= locked
  {
    MulMonotone(locked, delta, duration);
    MulNonNegative(locked, delta);
    DivMonotone(locked * delta, locked * duration, duration);
    assert locked * duration == duration * locked;
    MulDivCancel(locked, duration);
  }

  lemma QuotientTimesDivisor(x: real, y: real)
    requires y > 0.0
    ensures x / y * y == x
    ensures x >= 0.0 ==> x / y >= 0.0
  {
  }

  lemma PercentOfWhole(c: nat, t: nat)
    requires t > 0
    ensures (c * 100) as real / t as real * t as real == (c * 100) as real
    ensures 0.0 <= (c * 100) as real / t as real
    ensures c <= t ==> (c * 100) as real / t as real <= 100.0
  {
    var r := (c * 100) as real / t as real;
    QuotientTimesDivisor((c * 100) as real, t as real);
    if c <= t && r > 100.0 {
      assert (r - 100.0) * t as real > 0.0;
      assert (r - 100.0) * t as real == (c * 100 - t * 100) as real;
    }
  }

  lemma ScaledShareAtMostWhole(c: nat, amount: nat, total: nat)
    requires total > 0
    ensures c <= total ==> c * amount / total <= amount
  {
    if c <= total {
      MulNonNegative(c, amount);
      MulMonotone(amount, c, total);
      assert c * amount <= amount * total;
      DivMonotone(c * amount, amount * total, total);
      MulDivCancel(amount, total);
    }
  }
}
