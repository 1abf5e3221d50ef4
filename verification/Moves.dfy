/**
 The arithmetic behind `move_capacity` (crates/pt-control-plane/src/service.rs): counters
 half way through a move, pool by pool.
 */
module Moves {
  import opened Prelude
  import opened Capacity
  import opened Planner
  import opened MemoryPlanner
  import opened Holdings
  import F = Failover

  /** Not oversold, counting everything that will ever arrive. */
  predicate Within(tb: Tables, p: PoolView) {
    p.reserved <= SizeAt(tb, p, TIMESTAMP_MAX)
  }

  /** Pools that were not oversold are not, and neither are those that hold more. */
  predicate StaysWithin(tb: Tables, a: seq<PoolView>, b: seq<PoolView>) {
    SamePools(a, b) && forall k :: 0 <= k < |a| && (Within(tb, a[k]) || a[k].reserved < b[k].reserved) ==> Within(tb, b[k])
  }

  lemma StaysWithinTransitive(tb: Tables, a: seq<PoolView>, b: seq<PoolView>, c: seq<PoolView>)
    requires StaysWithin(tb, a, b) && StaysWithin(tb, b, c)
    ensures StaysWithin(tb, a, c)
  {
    SamePoolsTransitive(a, b, c);
  }

  lemma StaysWithinItself(tb: Tables, a: seq<PoolView>)
    ensures StaysWithin(tb, a, a)
  {
  }

  /** No pool that `pt` draws on is oversold. */
  predicate Own(conf: Conf, pt: Pt, pools: seq<PoolView>) {
    WithinFinal(conf.tb, pt.tier, Pooled(conf, pt), pools)
  }

  /** Every call of the trail kept the same pools, and oversold none that was not. */
  predicate Steady(tb: Tables, trail: Trail) {
    match trail
    case Start(_) => true
    case Then(b, _, p) => Steady(tb, b) && StaysWithin(tb, b.pools, p)
  }

  /** `ops` is a log of planner calls that ends at `pools`, through `trail`. */
  predicate Logged(tb: Tables, trail: Trail, ops: seq<PlanOp>, pools: seq<PoolView>) {
    trail.pools == pools && trail.Ops() == ops && Walked(tb, trail) && Steady(tb, trail)
  }

  /** Every release in the log was on pools that serve `ceiling`. */
  predicate LogServed(tb: Tables, model: string, ceiling: nat, trail: Trail) {
    match trail
    case Start(_) => true
    case Then(b, op, _) =>
      LogServed(tb, model, ceiling, b) && (op.Released? ==> AllServed(tb, Job(model, op.tier, ceiling), op.shares, b.pools))
  }

  /** Every release in the log was from pools that were not oversold. */
  predicate LogWithin(tb: Tables, trail: Trail) {
    match trail
    case Start(_) => true
    case Then(b, op, _) => LogWithin(tb, b) && (op.Released? ==> WithinFinal(tb, op.tier, op.shares, b.pools))
  }

  lemma LogStarts(tb: Tables, model: string, ceiling: nat, pools: seq<PoolView>)
    requires DistinctKeys(pools)
    ensures Logged(tb, Start(pools), [], pools) && LogServed(tb, model, ceiling, Start(pools)) && LogWithin(tb, Start(pools))
  {
  }

  lemma {:induction false} TrailStaysWithin(tb: Tables, trail: Trail)
    requires Steady(tb, trail)
    ensures StaysWithin(tb, trail.First(), trail.pools)
  {
    if trail.Then? {
      TrailStaysWithin(tb, trail.before);
      StaysWithinTransitive(tb, trail.First(), trail.before.pools, trail.pools);
    }
  }

  /** What it takes to undo a log: its releases were served, and from pools not oversold. */
  lemma {:induction false} LogRestorableIff(tb: Tables, model: string, ceiling: nat, trail: Trail)
    ensures LogRestorable(tb, model, ceiling, trail) <==> LogServed(tb, model, ceiling, trail) && LogWithin(tb, trail)
  {
    if trail.Then? {
      LogRestorableIff(tb, model, ceiling, trail.before);
    }
  }

  /** Every pool that was oversold in `a` has the same counter in `b`. */
  predicate Spared(tb: Tables, a: seq<PoolView>, b: seq<PoolView>) {
    SamePools(a, b) && forall k :: 0 <= k < |a| && !Within(tb, a[k]) ==> b[k].reserved == a[k].reserved
  }

  /** A log released from no oversold pool exactly when it left every oversold counter as it
      was: such a counter cannot rise, and once lowered it never gets back. */
  lemma {:induction false} LogWithinIff(tb: Tables, trail: Trail)
    requires Walked(tb, trail) && Steady(tb, trail)
    ensures LogWithin(tb, trail) <==> Spared(tb, trail.First(), trail.pools)
  {
    if trail.Then? {
      LogWithinIff(tb, trail.before);
      TrailStaysWithin(tb, trail.before);
      TrailStaysWithin(tb, trail);
      LogWithinStep(tb, trail.First(), trail.before.pools, trail.op, trail.pools);
    }
  }

  lemma LogWithinStep(tb: Tables, first: seq<PoolView>, a: seq<PoolView>, op: PlanOp, b: seq<PoolView>)
    requires StaysWithin(tb, first, a) && StaysWithin(tb, a, b) && StaysWithin(tb, first, b) && OpStep(tb, a, op, b)
    ensures Spared(tb, first, b)
            <==> Spared(tb, first, a) && (op.Released? ==> WithinFinal(tb, op.tier, op.shares, a))
  {
    SamePoolsKeys(first, a);
    SamePoolsKeys(a, b);
    forall k | 0 <= k < |a|
      ensures SizeAt(tb, a[k], TIMESTAMP_MAX) == SizeAt(tb, first[k], TIMESTAMP_MAX) == SizeAt(tb, b[k], TIMESTAMP_MAX)
      ensures b[k].reserved + (if op.Released? then CostOf(tb, op.tier, op.shares, a[k].key) else 0)
           == a[k].reserved + (if op.Released? then 0 else CostOf(tb, op.tier, op.shares, a[k].key))
    {
      assert a[k].key == first[k].key == b[k].key && a[k].capacity == first[k].capacity == b[k].capacity;
    }
    hide SizeAt, CostOf, OpStep;
    if Spared(tb, first, b) {
      forall k | 0 <= k < |first| && !Within(tb, first[k])
        ensures a[k].reserved == first[k].reserved
      {
        assert b[k].reserved == first[k].reserved;
      }
      if op.Released? {
        forall k | 0 <= k < |a| && CostOf(tb, op.tier, op.shares, a[k].key) > 0
          ensures Within(tb, a[k])
        {
        }
      }
    }
  }

  lemma UndoOneStaysWithin(tb: Tables, model: string, ceiling: nat, op: PlanOp, pools: seq<PoolView>)
    requires DistinctKeys(pools)
    ensures StaysWithin(tb, pools, UndoOne(tb, model, ceiling, op, pools)) && DistinctKeys(UndoOne(tb, model, ceiling, op, pools))
  {
    match op
    case Reserved(tier, shares) =>
      ReleaseStaysWithin(tb, tier, shares, pools);
      SamePoolsKeys(pools, ReleaseAll(tb, tier, shares, pools));
    case Released(tier, shares) =>
      StaysWithinItself(tb, pools);
      if ReserveAll(tb, Job(model, tier, ceiling), TIMESTAMP_MAX, AsClaims(shares), pools).Ok? {
        ReserveKeepsWithin(tb, Job(model, tier, ceiling), TIMESTAMP_MAX, AsClaims(shares), pools);
      }
  }

  lemma {:induction false} UndoStaysWithin(tb: Tables, model: string, ceiling: nat, ops: seq<PlanOp>, pools: seq<PoolView>)
    requires DistinctKeys(pools)
    ensures StaysWithin(tb, pools, UndoAll(tb, model, ceiling, ops, pools)) && DistinctKeys(UndoAll(tb, model, ceiling, ops, pools))
    decreases |ops|
  {
    hide UndoOne, StaysWithin, DistinctKeys;
    if ops == [] {
      StaysWithinItself(tb, pools);
    } else {
      var n := |ops| - 1;
      var one := UndoOne(tb, model, ceiling, ops[n], pools);
      UndoOneStaysWithin(tb, model, ceiling, ops[n], pools);
      UndoStaysWithin(tb, model, ceiling, ops[..n], one);
      StaysWithinTransitive(tb, pools, one, UndoAll(tb, model, ceiling, ops, pools));
    }
  }

  /** A counter once lowered on an oversold pool stays below what it was. */
  lemma NeverRegained(tb: Tables, a: seq<PoolView>, b: seq<PoolView>, c: seq<PoolView>, k: nat)
    requires StaysWithin(tb, a, b) && StaysWithin(tb, b, c) && k < |a| && !Within(tb, a[k]) && b[k].reserved < a[k].reserved
    ensures c[k].reserved < a[k].reserved
  {
    SamePoolsKeys(a, b);
    SamePoolsKeys(b, c);
    assert a[k].key == b[k].key == c[k].key && a[k].capacity == b[k].capacity == c[k].capacity;
  }

  /** Oversold counters of `a` that are lower in `b` are lower in `c`. */
  predicate StillLower(tb: Tables, a: seq<PoolView>, b: seq<PoolView>, c: seq<PoolView>) {
    && |a| == |b| == |c|
    && forall k :: 0 <= k < |a| && !Within(tb, a[k]) && b[k].reserved < a[k].reserved ==> c[k].reserved < a[k].reserved
  }

  /** Undoing a log with a shape its releases were served by restores every counter exactly
      when the log had lowered no oversold one; and one that it had lowered stays lower. */
  lemma UndoIff(tb: Tables, model: string, ceiling: nat, trail: Trail, ops: seq<PlanOp>, pools: seq<PoolView>)
    requires Logged(tb, trail, ops, pools) && LogServed(tb, model, ceiling, trail)
    ensures UndoAll(tb, model, ceiling, ops, pools) == trail.First() <==> Spared(tb, trail.First(), pools)
    ensures StillLower(tb, trail.First(), pools, UndoAll(tb, model, ceiling, ops, pools))
  {
    var first, back := trail.First(), UndoAll(tb, model, ceiling, ops, pools);
    LogWithinIff(tb, trail);
    TrailStaysWithin(tb, trail);
    assert DistinctKeys(pools);
    UndoStaysWithin(tb, model, ceiling, ops, pools);
    if LogWithin(tb, trail) {
      LogRestorableIff(tb, model, ceiling, trail);
      UndoPassesBack(tb, model, ceiling, trail, 0);
      AtStart(trail);
      assert ops[0..] == ops;
    }
    assert SamePools(first, pools) && SamePools(pools, back);
    hide Walked, Steady, LogServed, LogWithin, UndoAll, StaysWithin;
    forall k | 0 <= k < |first| && !Within(tb, first[k]) && pools[k].reserved < first[k].reserved
      ensures back[k].reserved < first[k].reserved
    {
      NeverRegained(tb, first, pools, back, k);
    }
    if !Spared(tb, first, pools) {
      LoweredSomewhere(tb, first, pools);
    }
  }

  lemma LoweredSomewhere(tb: Tables, a: seq<PoolView>, b: seq<PoolView>)
    requires StaysWithin(tb, a, b) && !Spared(tb, a, b)
    ensures exists k :: 0 <= k < |a| && !Within(tb, a[k]) && b[k].reserved < a[k].reserved
  {
    SamePoolsKeys(a, b);
    var k :| 0 <= k < |a| && !Within(tb, a[k]) && b[k].reserved != a[k].reserved;
    assert a[k].key == b[k].key && a[k].capacity == b[k].capacity;
  }

  /** A change that went through, of a reservation that draws on no oversold pool, lowered no
      oversold counter. */
  lemma OwnSpared(tb: Tables, tier: Tier, gone: seq<PoolShare>, tier': Tier, come: seq<PoolShare>, a: seq<PoolView>, b: seq<PoolView>)
    requires StaysWithin(tb, a, b) && Exchanged(tb, tier, gone, tier', come, a, b) && WithinFinal(tb, tier, gone, a)
    ensures Spared(tb, a, b)
  {
    SamePoolsKeys(a, b);
    forall k | 0 <= k < |a| && !Within(tb, a[k])
      ensures b[k].reserved == a[k].reserved
    {
      assert a[k].key == b[k].key && a[k].capacity == b[k].capacity;
    }
  }

  lemma ReserveKeepsWithin(tb: Tables, job: Job, at: Timestamp, claims: seq<Claim>, pools: seq<PoolView>)
    requires DistinctKeys(pools) && ReserveAll(tb, job, at, claims, pools).Ok?
    ensures var r := ReserveAll(tb, job, at, claims, pools).value;
      && StaysWithin(tb, pools, r.1) && DistinctKeys(r.1)
      && OpStep(tb, pools, Reserved(job.tier, r.0), r.1)
      && Exchanged(tb, job.tier, [], job.tier, r.0, pools, r.1)
  {
    var r := ReserveAll(tb, job, at, claims, pools).value;
    ReserveAllAdds(tb, job, at, claims, pools);
    ReservedWithin(tb, job, at, claims, pools);
    SamePoolsKeys(pools, r.1);
    hide ReserveAll;
    forall k | 0 <= k < |pools| && (Within(tb, pools[k]) || pools[k].reserved < r.1[k].reserved)
      ensures Within(tb, r.1[k])
    {
      AddedByMonotone(tb.schedule, pools[k].key, at, TIMESTAMP_MAX);
      assert r.1[k].key == pools[k].key && r.1[k].capacity == pools[k].capacity;
    }
  }

  lemma ReleaseDistinct(tb: Tables, tier: Tier, shares: seq<PoolShare>, pools: seq<PoolView>)
    requires DistinctKeys(pools)
    ensures DistinctKeys(ReleaseAll(tb, tier, shares, pools))
  {
    ReleaseLowers(tb, tier, shares, pools);
    SamePoolsKeys(pools, ReleaseAll(tb, tier, shares, pools));
  }

  lemma ReleaseKeepsWithin(tb: Tables, tier: Tier, shares: seq<PoolShare>, pools: seq<PoolView>)
    requires DistinctKeys(pools) && Covers(tb, tier, shares, pools)
    ensures var r := ReleaseAll(tb, tier, shares, pools);
      && StaysWithin(tb, pools, r) && DistinctKeys(r)
      && OpStep(tb, pools, Released(tier, shares), r)
      && Exchanged(tb, tier, shares, tier, [], pools, r)
  {
    ReleaseAllRemoves(tb, tier, shares, pools);
    var r := ReleaseAll(tb, tier, shares, pools);
    SamePoolsKeys(r, pools);
    SamePoolsKeys(pools, r);
  }

  /** No release raises a counter. */
  lemma {:induction false} ReleaseLowers(tb: Tables, tier: Tier, shares: seq<PoolShare>, pools: seq<PoolView>)
    ensures SamePools(pools, ReleaseAll(tb, tier, shares, pools))
    ensures forall k :: 0 <= k < |pools| ==> ReleaseAll(tb, tier, shares, pools)[k].reserved <= pools[k].reserved
    decreases |shares|
  {
    if shares != [] {
      var lower := Lower(pools, shares[0].Where(), CostOrZero(tb, tier, shares[0]));
      ReleaseLowers(tb, tier, shares[1..], lower);
      SamePoolsTransitive(pools, lower, ReleaseAll(tb, tier, shares[1..], lower));
    }
  }

  lemma ReleaseStaysWithin(tb: Tables, tier: Tier, shares: seq<PoolShare>, pools: seq<PoolView>)
    ensures StaysWithin(tb, pools, ReleaseAll(tb, tier, shares, pools))
  {
    var r := ReleaseAll(tb, tier, shares, pools);
    ReleaseLowers(tb, tier, shares, pools);
    hide ReleaseAll;
    SamePoolsKeys(pools, r);
  }

  lemma CostOfOne(tb: Tables, tier: Tier, s: PoolShare, key: Key)
    ensures CostOf(tb, tier, [s], key) == if s.Where() == key then PoolCost(tb, tier, key, s.cus) else 0
  {
    assert [s][1..] == [];
  }

  // ---------------------------------------------------------------------------
  // One region's part of a holding
  // ---------------------------------------------------------------------------

  function InRegion(shares: seq<F.RegionShare>, region: string): seq<F.RegionShare> {
    if shares == [] then []
    else (if shares[0].region == region then [shares[0]] else []) + InRegion(shares[1..], region)
  }

  lemma {:induction false} InRegionAt(shares: seq<F.RegionShare>, region: string, r: string)
    requires F.DistinctRegions(shares)
    ensures F.CusAt(InRegion(shares, region), r) == if r == region then F.CusAt(shares, region) else 0
    ensures F.DistinctRegions(InRegion(shares, region))
    ensures forall s :: s in InRegion(shares, region) ==> s.region == region && s in shares
    ensures |InRegion(shares, region)| <= 1
  {
    if shares != [] {
      InRegionAt(shares[1..], region, r);
      if shares[0].region == region {
        F.HeadIsNew(shares);
        NoneInRegion(shares[1..], region);
        F.CusAtHas(shares[1..], region);
        assert InRegion(shares, region) == [shares[0]];
        assert [shares[0]][1..] == [];
      } else {
        assert InRegion(shares, region) == InRegion(shares[1..], region);
      }
    }
  }

  lemma {:induction false} NoneInRegion(shares: seq<F.RegionShare>, region: string)
    requires !F.Has(shares, region)
    ensures InRegion(shares, region) == []
  {
    if shares != [] {
      assert shares[0].region != region;
      F.HasHead(shares, region);
      NoneInRegion(shares[1..], region);
    }
  }

  // ---------------------------------------------------------------------------
  // Half way through a move
  // ---------------------------------------------------------------------------

  /** What a region holds once the growth of the regions in `done` has been reserved. */
  function NowAt(done: seq<F.RegionShare>, before: seq<F.RegionShare>, target: seq<F.RegionShare>, region: string): nat {
    if F.Has(done, region) then F.CusAt(target, region) else F.CusAt(before, region)
  }

  ghost predicate Halfway(conf: Conf, pt0: Pt, pt: Pt, done: seq<F.RegionShare>, before: seq<F.RegionShare>, target: seq<F.RegionShare>,
                          start: seq<PoolView>, now: seq<PoolView>)
  {
    && SamePools(start, now) && pt == pt0.(placements := pt.placements)
    && (forall r :: !F.Has(done, r) ==> PoolOf(conf, pt, r) == PoolOf(conf, pt0, r))
    && forall k :: 0 <= k < |start| ==>
         now[k].reserved + HoldCus(conf, pt0, start[k].key, F.CusAt(before, start[k].key.region))
         == start[k].reserved + HoldCus(conf, pt, start[k].key, NowAt(done, before, target, start[k].key.region))
  }

  lemma HalfwayStart(conf: Conf, pt: Pt, before: seq<F.RegionShare>, target: seq<F.RegionShare>, start: seq<PoolView>)
    ensures Halfway(conf, pt, pt, [], before, target, start, start)
  {
  }

  /** A region not yet moved is untouched. */
  lemma HalfwayUntouched(conf: Conf, pt0: Pt, pt: Pt, done: seq<F.RegionShare>, before: seq<F.RegionShare>, target: seq<F.RegionShare>,
                         start: seq<PoolView>, now: seq<PoolView>, k: nat)
    requires Halfway(conf, pt0, pt, done, before, target, start, now) && k < |start|
    requires !F.Has(done, start[k].key.region)
    ensures now[k].reserved == start[k].reserved && now[k].key == start[k].key
  {
    SamePoolsKeys(start, now);
    assert PoolOf(conf, pt, start[k].key.region) == PoolOf(conf, pt0, start[k].key.region);
  }

  /** Region `g.region` now holds its target on pool `pool`: it gave up `gone` and took
      `come` there. */
  lemma HalfwayStep(conf: Conf, pt0: Pt, pt: Pt, done: seq<F.RegionShare>, g: F.RegionShare, before: seq<F.RegionShare>, target: seq<F.RegionShare>,
                    start: seq<PoolView>, a: seq<PoolView>, b: seq<PoolView>, pool: string, gone: seq<PoolShare>, come: seq<PoolShare>)
    requires Halfway(conf, pt0, pt, done, before, target, start, a) && !F.Has(done, g.region)
    requires Exchanged(conf.tb, pt0.tier, gone, pt0.tier, come, a, b)
    requires forall key: Key :: key.region != g.region ==>
      CostOf(conf.tb, pt0.tier, gone, key) == 0 && CostOf(conf.tb, pt0.tier, come, key) == 0
    requires forall key: Key :: key.region == g.region ==>
      HoldCus(conf, pt, key, F.CusAt(before, key.region)) + CostOf(conf.tb, pt0.tier, come, key)
      == CostOf(conf.tb, pt0.tier, gone, key) + (if key.pool == pool then PoolCost(conf.tb, pt0.tier, key, F.CusAt(target, key.region)) else 0)
    ensures Halfway(conf, pt0, pt.(placements := pt.placements[g.region := pool]), done + [g], before, target, start, b)
  {
    var pt' := pt.(placements := pt.placements[g.region := pool]);
    var done' := done + [g];
    SamePoolsTransitive(start, a, b);
    SamePoolsKeys(start, a);
    forall r
      ensures F.Has(done', r) <==> F.Has(done, r) || r == g.region
    {
      HasAppend(done, g, r);
    }
    forall k | 0 <= k < |start|
      ensures b[k].reserved + HoldCus(conf, pt0, start[k].key, F.CusAt(before, start[k].key.region))
              == start[k].reserved + HoldCus(conf, pt', start[k].key, NowAt(done', before, target, start[k].key.region))
    {
      var key := start[k].key;
      assert a[k].key == key;
      if key.region != g.region {
        assert PoolOf(conf, pt', key.region) == PoolOf(conf, pt, key.region);
      }
    }
  }

  lemma HasAppend(done: seq<F.RegionShare>, g: F.RegionShare, r: string)
    ensures F.Has(done + [g], r) <==> F.Has(done, r) || r == g.region
  {
    var d := done + [g];
    if F.Has(done, r) {
      var i :| 0 <= i < |done| && done[i].region == r;
      assert d[i].region == r;
    }
    if r == g.region {
      assert d[|done|].region == r;
    }
    if F.Has(d, r) {
      var i :| 0 <= i < |d| && d[i].region == r;
      assert i < |done| ==> done[i].region == r;
    }
  }

  /** Growth reserved on the region's own pool, or on the first pool of a new region. */
  lemma GrowStep(conf: Conf, pt0: Pt, pt: Pt, done: seq<F.RegionShare>, g: F.RegionShare, before: seq<F.RegionShare>, target: seq<F.RegionShare>,
                 start: seq<PoolView>, a: seq<PoolView>, b: seq<PoolView>, pool: string)
    requires Halfway(conf, pt0, pt, done, before, target, start, a) && !F.Has(done, g.region)
    requires g.cus == F.CusAt(target, g.region) - F.CusAt(before, g.region)
    requires F.CusAt(before, g.region) > 0 ==> PoolOf(conf, pt, g.region) == Some(pool)
    requires Exchanged(conf.tb, pt0.tier, [], pt0.tier, [PoolShare(g.region, pool, g.cus)], a, b)
    ensures Halfway(conf, pt0, pt.(placements := pt.placements[g.region := pool]), done + [g], before, target, start, b)
  {
    var come := [PoolShare(g.region, pool, g.cus)];
    forall key: Key
      ensures CostOf(conf.tb, pt0.tier, come, key) == if key == Key(g.region, pool) then PoolCost(conf.tb, pt0.tier, key, g.cus) else 0
    {
      CostOfOne(conf.tb, pt0.tier, come[0], key);
    }
    forall key: Key | key.region == g.region
      ensures HoldCus(conf, pt, key, F.CusAt(before, key.region)) + CostOf(conf.tb, pt0.tier, come, key)
              == if key.pool == pool then PoolCost(conf.tb, pt0.tier, key, F.CusAt(target, key.region)) else 0
    {
      PoolCostAdds(conf.tb, pt0.tier, key, F.CusAt(before, key.region), g.cus);
    }
    HalfwayStep(conf, pt0, pt, done, g, before, target, start, a, b, pool, [], come);
  }

  /** The whole region moved to another pool, sized at its target. */
  lemma RelocateStep(conf: Conf, pt0: Pt, pt: Pt, done: seq<F.RegionShare>, g: F.RegionShare, before: seq<F.RegionShare>, target: seq<F.RegionShare>,
                     start: seq<PoolView>, a: seq<PoolView>, b: seq<PoolView>, pool: string)
    requires Halfway(conf, pt0, pt, done, before, target, start, a) && !F.Has(done, g.region)
    requires F.DistinctRegions(before)
    requires Exchanged(conf.tb, pt0.tier, OnPools(conf, pt, InRegion(before, g.region)),
                       pt0.tier, [PoolShare(g.region, pool, F.CusAt(target, g.region))], a, b)
    ensures Halfway(conf, pt0, pt.(placements := pt.placements[g.region := pool]), done + [g], before, target, start, b)
  {
    var gone := OnPools(conf, pt, InRegion(before, g.region));
    var come := [PoolShare(g.region, pool, F.CusAt(target, g.region))];
    forall key: Key
      ensures CostOf(conf.tb, pt0.tier, come, key)
              == if key == Key(g.region, pool) then PoolCost(conf.tb, pt0.tier, key, F.CusAt(target, g.region)) else 0
    {
      CostOfOne(conf.tb, pt0.tier, come[0], key);
    }
    forall key: Key
      ensures CostOf(conf.tb, pt0.tier, gone, key) == if key.region == g.region then HoldCus(conf, pt, key, F.CusAt(before, key.region)) else 0
    {
      InRegionAt(before, g.region, key.region);
      OnPoolsCost(conf, pt, InRegion(before, g.region), key);
      PoolCostAdds(conf.tb, pt0.tier, key, 0, 0);
    }
    HalfwayStep(conf, pt0, pt, done, g, before, target, start, a, b, pool, gone, come);
  }

  /** With the growth reserved, a region holds the larger of what it had and its target. */
  lemma NowIsMax(before: seq<F.RegionShare>, target: seq<F.RegionShare>, region: string)
    requires F.DistinctRegions(target)
    ensures NowAt(F.Growth(before, target), before, target, region) == Max(F.CusAt(before, region), F.CusAt(target, region))
  {
    F.GrowthAt(before, target, region);
  }

  lemma HoldSplits(conf: Conf, pt: Pt, key: Key, was: nat, target: nat)
    ensures HoldCus(conf, pt, key, Max(was, target)) == HoldCus(conf, pt, key, target) + HoldCus(conf, pt, key, SaturatingSub(was, target))
  {
    PoolCostAdds(conf.tb, pt.tier, key, target, SaturatingSub(was, target));
  }

  /** What the shrinking part of a move costs a pool, next to what was and will be held. */
  lemma ShrinkAt(conf: Conf, pt: Pt, before: seq<F.RegionShare>, target: seq<F.RegionShare>, key: Key)
    requires F.DistinctRegions(before) && F.DistinctRegions(target)
    ensures HoldCus(conf, pt, key, NowAt(F.Growth(before, target), before, target, key.region))
         == CostOf(conf.tb, pt.tier, OnPools(conf, pt, target), key)
          + CostOf(conf.tb, pt.tier, OnPools(conf, pt, F.Growth(target, before)), key)
  {
    NowIsMax(before, target, key.region);
    F.GrowthAt(target, before, key.region);
    OnPoolsCost(conf, pt, target, key);
    OnPoolsCost(conf, pt, F.Growth(target, before), key);
    HoldSplits(conf, pt, key, F.CusAt(before, key.region), F.CusAt(target, key.region));
  }

  /** All growth reserved, then what shrinks released: the reservation holds its target. */
  lemma MoveEnds(conf: Conf, pt0: Pt, pt: Pt, before: seq<F.RegionShare>, target: seq<F.RegionShare>,
                 start: seq<PoolView>, a: seq<PoolView>, b: seq<PoolView>)
    requires F.DistinctRegions(before) && F.DistinctRegions(target)
    requires Halfway(conf, pt0, pt, F.Growth(before, target), before, target, start, a)
    requires Exchanged(conf.tb, pt0.tier, OnPools(conf, pt, F.Growth(target, before)), pt0.tier, [], a, b)
    ensures Exchanged(conf.tb, pt0.tier, OnPools(conf, pt0, before), pt0.tier, OnPools(conf, pt, target), start, b)
  {
    SamePoolsTransitive(start, a, b);
    SamePoolsKeys(start, a);
    forall k | 0 <= k < |start|
      ensures b[k].reserved + CostOf(conf.tb, pt0.tier, OnPools(conf, pt0, before), start[k].key)
              == start[k].reserved + CostOf(conf.tb, pt0.tier, OnPools(conf, pt, target), start[k].key)
    {
      assert a[k].key == start[k].key;
      ShrinkAt(conf, pt, before, target, start[k].key);
      OnPoolsCost(conf, pt0, before, start[k].key);
    }
  }

  /** What shrinks is still held when the growth is done. */
  lemma ShrinkCovered(conf: Conf, pt0: Pt, pt: Pt, before: seq<F.RegionShare>, target: seq<F.RegionShare>,
                      start: seq<PoolView>, a: seq<PoolView>)
    requires F.DistinctRegions(before) && F.DistinctRegions(target)
    requires Halfway(conf, pt0, pt, F.Growth(before, target), before, target, start, a)
    requires Covers(conf.tb, pt0.tier, OnPools(conf, pt0, before), start)
    ensures Covers(conf.tb, pt0.tier, OnPools(conf, pt, F.Growth(target, before)), a)
  {
    SamePoolsKeys(start, a);
    forall k | 0 <= k < |a|
      ensures CostOf(conf.tb, pt0.tier, OnPools(conf, pt, F.Growth(target, before)), a[k].key) <= a[k].reserved
    {
      assert a[k].key == start[k].key;
      ShrinkAt(conf, pt, before, target, start[k].key);
      OnPoolsCost(conf, pt0, before, start[k].key);
    }
  }
}
