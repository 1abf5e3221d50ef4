/**
 The debt bucket (crates/pt-admission/src/bucket.rs). WU, rates and times are reals; times
 are in seconds.
 */
module Bucket {

  const MAX_WAIT: real := 60.0

  /** `f64::EPSILON`, two to the power of -52. */
  const EPSILON: real := 1.0 / 4503599627370496.0

  function MaxR(a: real, b: real): real {
    if a > b then a else b
  }

  function MinR(a: real, b: real): real {
    if a < b then a else b
  }

  datatype Bucket = Bucket(rate: real, capacity: real, maxDebt: real, level: real, last: real)

  predicate ValidBucket(b: Bucket) {
    b.rate >= 0.0 && b.capacity >= 0.0 && b.maxDebt >= 0.0 && b.level <= b.capacity
  }

  function Full(rate: real, capacity: real, maxDebt: real, now: real): Bucket {
    Bucket(rate, capacity, maxDebt, capacity, now)
  }

  /** Time not yet refilled; none if `now` is in the past. */
  function Elapsed(b: Bucket, now: real): real {
    MaxR(now - b.last, 0.0)
  }

  function Refilled(b: Bucket, now: real): Bucket {
    b.(level := MinR(b.level + b.rate * Elapsed(b, now), b.capacity), last := MaxR(b.last, now))
  }

  function Overflow(b: Bucket, now: real): real {
    MaxR(b.level + b.rate * Elapsed(b, now) - MaxR(b.capacity, b.level), 0.0)
  }

  predicate CanAdmit(b: Bucket, wu: real) {
    b.level > 0.0 && (b.level - wu >= -b.maxDebt || b.level >= b.capacity)
  }

  /** The least level that would admit: enough for the debt bound or a full bucket, above zero. */
  function Target(b: Bucket, wu: real): real {
    MaxR(MinR(wu - b.maxDebt, b.capacity), EPSILON)
  }

  function TimeUntilAdmit(b: Bucket, wu: real): real {
    if CanAdmit(b, wu) then 0.0
    else if b.rate <= 0.0 then MAX_WAIT
    else MinR(MaxR((Target(b, wu) - b.level) / b.rate, 0.0), MAX_WAIT)
  }

  function AtLevel(b: Bucket, level: real): Bucket {
    b.(level := MinR(level, b.capacity))
  }

  function Debited(b: Bucket, wu: real): Bucket {
    b.(level := b.level - wu)
  }

  function Settled(b: Bucket, delta: real): Bucket {
    b.(level := MinR(b.level - delta, b.capacity))
  }

  predicate CanTakeStrict(b: Bucket, wu: real) {
    b.level >= MinR(wu, b.capacity)
  }

  // ---------------------------------------------------------------------------

  lemma Product(a: real, b: real)
    requires a >= 0.0 && b >= 0.0
    ensures a * b >= 0.0
  {
  }

  lemma RateTimes(rate: real, a: real, b: real)
    requires rate >= 0.0 && a >= b
    ensures rate * a >= rate * b && (rate * a == rate * b <==> rate == 0.0 || a == b)
  {
    assert rate * (a - b) == rate * a - rate * b;
    if rate > 0.0 && a > b {
      assert rate * (a - b) > 0.0;
    }
  }

  lemma Quotient(a: real, b: real)
    requires b > 0.0
    ensures (a / b) * b == a
    ensures a > 0.0 ==> a / b > 0.0
  {
  }

  lemma ProductGrows(c: real, a: real, b: real)
    requires c > 0.0
    ensures a < b <==> c * a < c * b
  {
    if a < b {
      assert c * (b - a) > 0.0;
    } else {
      assert c * (a - b) >= 0.0;
    }
  }

  /** Refilling earns exactly the rate for the time elapsed: part raises the level, the rest
      overflows. */
  lemma RefillEarns(b: Bucket, now: real)
    requires ValidBucket(b)
    ensures Refilled(b, now).level + Overflow(b, now) == b.level + b.rate * Elapsed(b, now)
    ensures ValidBucket(Refilled(b, now)) && Refilled(b, now).level >= b.level && Overflow(b, now) >= 0.0
  {
    Product(b.rate, Elapsed(b, now));
  }

  lemma WaitClosesGap(b: Bucket, wu: real)
    requires ValidBucket(b) && b.rate > 0.0 && !CanAdmit(b, wu) && TimeUntilAdmit(b, wu) < MAX_WAIT
    ensures TimeUntilAdmit(b, wu) > 0.0 && b.rate * TimeUntilAdmit(b, wu) == Target(b, wu) - b.level
  {
    Quotient(Target(b, wu) - b.level, b.rate);
  }

  /** Below the cap, waiting for `TimeUntilAdmit` is enough, if the bucket can hold anything. */
  lemma WaitIsEnough(b: Bucket, wu: real, t: real)
    requires ValidBucket(b) && b.capacity > 0.0 && b.rate > 0.0 && !CanAdmit(b, wu)
    requires TimeUntilAdmit(b, wu) <= t && TimeUntilAdmit(b, wu) < MAX_WAIT
    ensures CanAdmit(Refilled(b, b.last + t), wu)
  {
    WaitClosesGap(b, wu);
    ProductGrows(b.rate, t, TimeUntilAdmit(b, wu));
    assert Elapsed(b, b.last + t) == t;
    assert b.level + b.rate * t >= Target(b, wu);
  }

  /** Waiting for less than it, by the time the epsilon takes to refill, is not. */
  lemma WaitIsNeeded(b: Bucket, wu: real, t: real)
    requires ValidBucket(b) && b.rate > 0.0 && !CanAdmit(b, wu) && TimeUntilAdmit(b, wu) < MAX_WAIT
    requires 0.0 <= t <= TimeUntilAdmit(b, wu) - EPSILON / b.rate
    ensures !CanAdmit(Refilled(b, b.last + t), wu)
  {
    var less := EPSILON / b.rate;
    WaitClosesGap(b, wu);
    Quotient(EPSILON, b.rate);
    ProductGrows(b.rate, TimeUntilAdmit(b, wu) - less, t);
    assert b.rate * (TimeUntilAdmit(b, wu) - less) == b.rate * TimeUntilAdmit(b, wu) - less * b.rate;
    assert Elapsed(b, b.last + t) == t;
    assert b.level + b.rate * t <= Target(b, wu) - EPSILON;
  }

  /** With no capacity, or no rate and no balance, nothing is ever admitted. */
  lemma NeverAdmits(b: Bucket, wu: real, t: real)
    requires ValidBucket(b) && (b.capacity == 0.0 || (b.rate == 0.0 && b.level <= 0.0))
    ensures !CanAdmit(Refilled(b, b.last + t), wu)
  {
  }

  class DebtBucket {
    var rate: real
    var capacity: real
    var maxDebt: real
    var level: real
    var last: real

    ghost function Value(): Bucket
      reads this
    {
      Bucket(rate, capacity, maxDebt, level, last)
    }

    /** Starts full. */
    constructor (rate: real, capacity: real, maxDebt: real, now: real)
      ensures Value() == Full(rate, capacity, maxDebt, now)
    {
      this.rate, this.capacity, this.maxDebt, level, last := rate, capacity, maxDebt, capacity, now;
    }

    /** Refill to `now`; what no longer fits overflows. */
    method Refill(now: real) returns (overflow: real)
      modifies this
      ensures Value() == Refilled(old(Value()), now) && overflow == Overflow(old(Value()), now)
    {
      var dt := MaxR(now - last, 0.0);
      last := MaxR(last, now);
      var filled := level + rate * dt;
      overflow := MaxR(filled - MaxR(capacity, level), 0.0);
      level := MinR(filled, capacity);
    }

    method Level(now: real) returns (r: real)
      modifies this
      ensures Value() == Refilled(old(Value()), now) && r == level
    {
      var overflow := Refill(now);
      r := level;
    }

    method Admits(wu: real) returns (r: bool)
      ensures r == CanAdmit(Value(), wu)
    {
      r := level > 0.0 && (level - wu >= -maxDebt || level >= capacity);
    }

    method Wait(wu: real) returns (r: real)
      ensures r == TimeUntilAdmit(Value(), wu)
    {
      if level > 0.0 && (level - wu >= -maxDebt || level >= capacity) {
        return 0.0;
      }
      if rate <= 0.0 {
        return MAX_WAIT;
      }
      var target := MaxR(MinR(wu - maxDebt, capacity), EPSILON);
      var secs := MaxR((target - level) / rate, 0.0);
      r := MinR(secs, MAX_WAIT);
    }

    method SetLevel(to: real)
      modifies this
      ensures Value() == AtLevel(old(Value()), to)
    {
      level := MinR(to, capacity);
    }

    method Debit(wu: real)
      modifies this
      ensures Value() == Debited(old(Value()), wu)
    {
      level := level - wu;
    }

    method Settle(delta: real)
      modifies this
      ensures Value() == Settled(old(Value()), delta)
    {
      level := MinR(level - delta, capacity);
    }

    method TakesStrict(wu: real) returns (r: bool)
      ensures r == CanTakeStrict(Value(), wu)
    {
      r := level >= MinR(wu, capacity);
    }
  }
}
