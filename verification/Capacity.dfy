/**
 What a CU costs each pool and when pools grow (crates/pt-control-plane/src/capacity.rs).
 Amounts are micro-replicas. A cost is rounded up from a positive quotient, so it is at
 least 1.
 */
module Capacity {
  import opened Prelude

  /** Nanoseconds; the range of the timestamps the control plane uses. */
  const TIMESTAMP_MIN: int := -377705023201_000000000
  const TIMESTAMP_MAX: int := 253402207200_999999999
  type Timestamp = t: int | TIMESTAMP_MIN <= t <= TIMESTAMP_MAX witness 0

  const U32_MAX: nat := 0xFFFF_FFFF

  datatype Tier = Interactive | Agentic | Standard

  datatype Key = Key(region: string, pool: string)

  /** Micro-replicas per CU. */
  type Costs = c: map<(Key, Tier), nat> | forall k :: k in c ==> c[k] >= 1 witness map[]

  datatype PoolShare = PoolShare(region: string, pool: string, cus: nat) {
    function Where(): Key {
      Key(region, pool)
    }
  }

  function PerCu(costs: Costs, key: Key, tier: Tier): (r: Option<nat>)
    ensures r.Some? ==> r.value >= 1
  {
    if (key, tier) in costs then Some(costs[(key, tier)]) else None
  }

  function ShareCost(costs: Costs, tier: Tier, s: PoolShare): Option<nat> {
    match PerCu(costs, s.Where(), tier)
    case None => None
    case Some(c) => Some(c * s.cus)
  }

  /** Whole CUs that fit in `micro`, as a u32. */
  function CusIn(costs: Costs, key: Key, tier: Tier, micro: nat): Option<nat> {
    match PerCu(costs, key, tier)
    case None => None
    case Some(c) => Some(Min(micro / c, U32_MAX))
  }

  datatype Arrival = Arrival(at: Timestamp, micro: nat)

  predicate Sorted(arrivals: seq<Arrival>) {
    forall i, j :: 0 <= i < j < |arrivals| ==> arrivals[i].at <= arrivals[j].at
  }

  /** Each pool's arrivals, sorted by date. */
  type Schedule = s: map<Key, seq<Arrival>> | forall k :: k in s ==> Sorted(s[k]) witness map[]

  function Arrivals(schedule: Schedule, key: Key): (a: seq<Arrival>)
    ensures Sorted(a)
  {
    if key in schedule then schedule[key] else []
  }

  function SumBy(arrivals: seq<Arrival>, at: Timestamp): nat {
    if arrivals == [] then 0
    else (if arrivals[0].at <= at then arrivals[0].micro else 0) + SumBy(arrivals[1..], at)
  }

  function AddedBy(schedule: Schedule, key: Key, at: Timestamp): nat {
    SumBy(Arrivals(schedule, key), at)
  }

  /** Dates after `after` when a pool grows, in order. */
  function DatesAfter(arrivals: seq<Arrival>, after: Timestamp): seq<Timestamp> {
    if arrivals == [] then []
    else (if arrivals[0].at > after then [arrivals[0].at] else []) + DatesAfter(arrivals[1..], after)
  }

  /** The first of `dates` at which `free` plus what arrived since `at` covers `need`. */
  function FirstFit(arrivals: seq<Arrival>, dates: seq<Timestamp>, at: Timestamp, free: nat, need: nat): Option<Timestamp> {
    if dates == [] then None
    else if free + SumBy(arrivals, dates[0]) - SumBy(arrivals, at) >= need then Some(dates[0])
    else FirstFit(arrivals, dates[1..], at, free, need)
  }

  function FitsFrom(schedule: Schedule, key: Key, at: Timestamp, free: nat, need: nat): Option<Timestamp> {
    FirstFit(Arrivals(schedule, key), DatesAfter(Arrivals(schedule, key), at), at, free, need)
  }

  /** What arrives in a pool after `at`, up to and including `t`. */
  function Growth(schedule: Schedule, key: Key, at: Timestamp, t: Timestamp): int {
    AddedBy(schedule, key, t) - AddedBy(schedule, key, at)
  }

  // ---------------------------------------------------------------------------

  /** Capacity only grows. */
  lemma {:induction false} SumByMonotone(arrivals: seq<Arrival>, a: Timestamp, b: Timestamp)
    requires a <= b
    ensures SumBy(arrivals, a) <= SumBy(arrivals, b)
  {
    if arrivals != [] {
      SumByMonotone(arrivals[1..], a, b);
    }
  }

  lemma AddedByMonotone(schedule: Schedule, key: Key, a: Timestamp, b: Timestamp)
    requires a <= b
    ensures AddedBy(schedule, key, a) <= AddedBy(schedule, key, b)
  {
    SumByMonotone(Arrivals(schedule, key), a, b);
  }

  lemma {:induction false} DatesAfterContents(arrivals: seq<Arrival>, after: Timestamp)
    requires Sorted(arrivals)
    ensures forall d :: d in DatesAfter(arrivals, after) <==> d > after && exists a :: a in arrivals && a.at == d
    ensures forall i, j :: 0 <= i < j < |DatesAfter(arrivals, after)| ==>
      DatesAfter(arrivals, after)[i] <= DatesAfter(arrivals, after)[j]
  {
    if arrivals != [] {
      var rest := arrivals[1..];
      DatesAfterContents(rest, after);
      assert arrivals == [arrivals[0]] + rest;
      forall i | 0 <= i < |DatesAfter(rest, after)|
        ensures arrivals[0].at <= DatesAfter(rest, after)[i]
      {
        var d := DatesAfter(rest, after)[i];
        assert d in DatesAfter(rest, after);
        var a :| a in rest && a.at == d;
      }
    }
  }

  /** If nothing arrives in `(a, b]`, the sums agree. */
  lemma {:induction false} SumByFlat(arrivals: seq<Arrival>, a: Timestamp, b: Timestamp)
    requires a <= b && forall x :: x in arrivals ==> !(a < x.at <= b)
    ensures SumBy(arrivals, a) == SumBy(arrivals, b)
  {
    if arrivals != [] {
      SumByFlat(arrivals[1..], a, b);
    }
  }

  /** The last arrival date in `(at, t]`, if capacity grew there. */
  lemma {:induction false} GrowthComesFromADate(arrivals: seq<Arrival>, at: Timestamp, t: Timestamp) returns (d: Timestamp)
    requires Sorted(arrivals) && at < t && SumBy(arrivals, at) < SumBy(arrivals, t)
    ensures at < d <= t && d in DatesAfter(arrivals, at) && SumBy(arrivals, d) == SumBy(arrivals, t)
  {
    DatesAfterContents(arrivals, at);
    var late := set x | x in arrivals && at < x.at <= t :: x.at;
    assert forall x :: x in arrivals && at < x.at <= t ==> x.at in late;
    if late == {} {
      SumByFlat(arrivals, at, t);
      assert false;
    }
    d := MaxOf(late);
    SumByFlat(arrivals, d, t);
  }

  lemma {:induction false} MaxOf(s: set<Timestamp>) returns (m: Timestamp)
    requires s != {}
    ensures m in s && forall x :: x in s ==> x <= m
    decreases s
  {
    m :| m in s;
    var rest := s - {m};
    assert s == rest + {m};
    if rest != {} {
      var n := MaxOf(rest);
      if n > m {
        m := n;
      }
    }
  }

  lemma {:induction false} FirstFitIsFirst(arrivals: seq<Arrival>, dates: seq<Timestamp>, at: Timestamp, free: nat, need: nat)
    requires forall i, j :: 0 <= i < j < |dates| ==> dates[i] <= dates[j]
    ensures var r := FirstFit(arrivals, dates, at, free, need);
      match r
      case None => forall d :: d in dates ==> free + SumBy(arrivals, d) - SumBy(arrivals, at) < need
      case Some(f) =>
        f in dates && free + SumBy(arrivals, f) - SumBy(arrivals, at) >= need
        && forall d :: d in dates && d < f ==> free + SumBy(arrivals, d) - SumBy(arrivals, at) < need
    decreases |dates|
  {
    if dates != [] {
      assert dates == [dates[0]] + dates[1..];
      FirstFitIsFirst(arrivals, dates[1..], at, free, need);
    }
  }

  /** `FitsFrom` is the first moment after `at` when growth since `at` covers what `free`
      leaves uncovered: not just the first listed date. */
  lemma FitsFromIsEarliest(schedule: Schedule, key: Key, at: Timestamp, free: nat, need: nat)
    requires free < need
    ensures var r := FitsFrom(schedule, key, at, free, need);
      match r
      case None => forall t: Timestamp :: t > at ==> free + Growth(schedule, key, at, t) < need
      case Some(f) => f > at && free + Growth(schedule, key, at, f) >= need
                      && forall t: Timestamp :: at < t < f ==> free + Growth(schedule, key, at, t) < need
  {
    var arr := Arrivals(schedule, key);
    var dates := DatesAfter(arr, at);
    var r := FitsFrom(schedule, key, at, free, need);
    DatesAfterContents(arr, at);
    FirstFitIsFirst(arr, dates, at, free, need);
    forall t: Timestamp | t > at && (r.Some? ==> t < r.value)
      ensures free + Growth(schedule, key, at, t) < need
    {
      if SumBy(arr, at) < SumBy(arr, t) {
        var d := GrowthComesFromADate(arr, at, t);
        assert d in dates && (r.Some? ==> d < r.value);
      }
    }
  }
}
