/**
 When capacity has to be there: no operation takes more of a pool than it will hold at the
 moment the capacity is first used (crates/pt-control-plane/src/service.rs, and the dates its
 calls give the planner).
 */
module Dates {
  import opened Prelude
  import opened Capacity
  import opened Planner
  import opened MemoryPlanner
  import opened Holdings
  import opened Moves
  import opened Changes
  import opened Growing
  import opened Releases
  import opened Terms
  import F = Failover

  /** A pool that holds more in `b` than in `a` has room for it all at `at`. */
  predicate RaisedWithin(tb: Tables, at: Timestamp, a: seq<PoolView>, b: seq<PoolView>) {
    SamePools(a, b) && forall k :: 0 <= k < |a| && a[k].reserved < b[k].reserved ==> b[k].reserved <= SizeAt(tb, b[k], at)
  }

  lemma RaisedTransitive(tb: Tables, at: Timestamp, a: seq<PoolView>, b: seq<PoolView>, c: seq<PoolView>)
    requires RaisedWithin(tb, at, a, b) && RaisedWithin(tb, at, b, c)
    ensures RaisedWithin(tb, at, a, c)
  {
    SamePoolsTransitive(a, b, c);
    SamePoolsKeys(b, c);
    forall k | 0 <= k < |a| && a[k].reserved < c[k].reserved
      ensures c[k].reserved <= SizeAt(tb, c[k], at)
    {
      assert b[k].(reserved := 0) == c[k].(reserved := 0);
    }
  }

  lemma ReleaseRaises(tb: Tables, at: Timestamp, tier: Tier, shares: seq<PoolShare>, pools: seq<PoolView>)
    ensures RaisedWithin(tb, at, pools, ReleaseAll(tb, tier, shares, pools))
  {
    ReleaseLowers(tb, tier, shares, pools);
  }

  /** A sale from `at` on. */
  lemma {:induction false} ReserveRaises(tb: Tables, job: Job, at: Timestamp, claims: seq<Claim>, pools: seq<PoolView>)
    requires ReserveAll(tb, job, at, claims, pools).Ok? && DistinctKeys(pools)
    ensures RaisedWithin(tb, at, pools, ReserveAll(tb, job, at, claims, pools).value.1)
    decreases |claims|
  {
    if claims != [] {
      hide Place, Usable, Fits;
      var p := PlaceAtFits(tb, job, claims[0], at, pools);
      var need := Need(tb, job.tier, p, claims[0].cus);
      var raised := Raise(pools, p.key, need);
      hide PlaceAt;
      forall k | 0 <= k < |pools| && pools[k].reserved < raised[k].reserved
        ensures raised[k].reserved <= SizeAt(tb, raised[k], at)
      {
        assert pools[k] == p;
      }
      assert SamePools(pools, raised) && DistinctKeys(raised);
      ReserveRaises(tb, job, at, claims[1..], raised);
      RaisedTransitive(tb, at, pools, raised, ReserveAll(tb, job, at, claims[1..], raised).value.1);
    }
  }

  lemma RelocatedRaises(conf: Conf, pt: Pt, region: string, total: nat, to: Option<string>, ceiling: nat, at: Timestamp, pools: seq<PoolView>)
    requires Relocated(conf, pt, region, total, to, ceiling, at, pools).Ok? && DistinctKeys(pools)
    ensures RaisedWithin(conf.tb, at, pools, Relocated(conf, pt, region, total, to, ceiling, at, pools).value.1)
  {
    hide ReserveAll, ReleaseAll;
    var job, claims := Job(pt.model, pt.tier, ceiling), [Claim(region, to, total)];
    ReserveRaises(conf.tb, job, at, claims, pools);
    var after := ReserveAll(conf.tb, job, at, claims, pools).value.1;
    var gone := OnPools(conf, pt, InRegion(HeldShares(pt), region));
    ReleaseRaises(conf.tb, at, pt.tier, gone, after);
    RaisedTransitive(conf.tb, at, pools, after, ReleaseAll(conf.tb, pt.tier, gone, after));
  }

  lemma GrownRaises(conf: Conf, pt: Pt, g: F.RegionShare, target: seq<F.RegionShare>, ceiling: nat, at: Timestamp, pools: seq<PoolView>)
    requires Grown(conf, pt, g, target, ceiling, at, pools).Ok? && DistinctKeys(pools)
    ensures RaisedWithin(conf.tb, at, pools, Grown(conf, pt, g, target, ceiling, at, pools).value.1)
  {
    hide ReserveAll, Relocated, RaisedWithin;
    var job, claims := Job(pt.model, pt.tier, ceiling), [ClaimFor(conf, pt, g)];
    if ReserveAll(conf.tb, job, at, claims, pools).Ok? {
      ReserveRaises(conf.tb, job, at, claims, pools);
    } else {
      RelocatedRaises(conf, pt, g.region, if F.Has(target, g.region) then F.CusAt(target, g.region) else g.cus, None, ceiling, at, pools);
    }
  }

  lemma {:induction false} AllGrownRaises(conf: Conf, pt: Pt, gs: seq<F.RegionShare>, target: seq<F.RegionShare>, ceiling: nat,
                                          at: Timestamp, pools: seq<PoolView>)
    requires DistinctKeys(pools)
    ensures RaisedWithin(conf.tb, at, pools, AllGrown(conf, pt, gs, target, ceiling, at, pools).2)
    decreases |gs|
  {
    hide Grown;
    if gs != [] {
      var one := Grown(conf, pt, gs[0], target, ceiling, at, pools);
      if one.Ok? {
        GrownRaises(conf, pt, gs[0], target, ceiling, at, pools);
        SamePoolsKeys(pools, one.value.1);
        AllGrownRaises(conf, one.value.0, gs[1..], target, ceiling, at, one.value.1);
        RaisedTransitive(conf.tb, at, pools, one.value.1, AllGrown(conf, pt, gs, target, ceiling, at, pools).2);
      }
    }
  }

  lemma MovedToRaises(conf: Conf, pt: Pt, target: seq<F.RegionShare>, ceiling: nat, at: Timestamp, pools: seq<PoolView>)
    requires DistinctKeys(pools)
    ensures RaisedWithin(conf.tb, at, pools, MovedTo(conf, pt, target, ceiling, at, pools).2)
  {
    hide AllGrown, ReleaseAll, F.Growth, RaisedWithin;
    var grown := AllGrown(conf, pt, F.Growth(HeldShares(pt), target), target, ceiling, at, pools);
    AllGrownRaises(conf, pt, F.Growth(HeldShares(pt), target), target, ceiling, at, pools);
    var shrink := OnPools(conf, grown.1, F.Growth(target, HeldShares(pt)));
    ReleaseRaises(conf.tb, at, pt.tier, shrink, grown.2);
    RaisedTransitive(conf.tb, at, pools, grown.2, ReleaseAll(conf.tb, pt.tier, shrink, grown.2));
  }

  lemma ExchangeRaises(conf: Conf, pt: Pt, job: Job, claims: seq<Claim>, pools: seq<PoolView>)
    requires DistinctKeys(pools)
    ensures RaisedWithin(conf.tb, pt.termStart, pools, Exchange(conf, pt, job, claims, pools).1)
  {
    hide ReserveAll, ReleaseAll, RaisedWithin;
    var b := ReleaseAll(conf.tb, pt.tier, Pooled(conf, pt), pools);
    ReleaseRaises(conf.tb, pt.termStart, pt.tier, Pooled(conf, pt), pools);
    ReleaseDistinct(conf.tb, pt.tier, Pooled(conf, pt), pools);
    if ReserveAll(conf.tb, job, pt.termStart, claims, b).Ok? {
      ReserveRaises(conf.tb, job, pt.termStart, claims, b);
      RaisedTransitive(conf.tb, pt.termStart, pools, b, Exchange(conf, pt, job, claims, pools).1);
    }
  }

  /** From when on an update needs what it takes: the term's start before it, and now after. */
  function NeededFrom(pt: Pt, now: Timestamp): Timestamp {
    if pt.state == Scheduled then pt.termStart else Max(pt.termStart, now)
  }

  lemma RaisedItself(tb: Tables, at: Timestamp, pools: seq<PoolView>)
    ensures RaisedWithin(tb, at, pools, pools)
  {
  }

  lemma UnmovedRaises(conf: Conf, pt: Pt, rebalance: Option<bool>, now: Timestamp, pools: seq<PoolView>)
    requires DistinctKeys(pools) && ValidPt(pt)
    ensures RaisedWithin(conf.tb, NeededFrom(pt, now), pools, Unmoved(conf, pt, rebalance, now, pools).2)
    ensures var u := Unmoved(conf, pt, rebalance, now, pools); u.1.termStart == pt.termStart && u.1.state == pt.state && SamePools(pools, u.2)
  {
    hide MovedTo, RaisedWithin;
    RaisedItself(conf.tb, NeededFrom(pt, now), pools);
    if Unmoves(pt, rebalance) {
      MovedToRaises(conf, pt.(rebalance := false), HeldShares(Contracted(conf, pt)), pt.ceiling, Max(pt.termStart, now), pools);
    }
    RaisedSame(conf.tb, NeededFrom(pt, now), pools, Unmoved(conf, pt, rebalance, now, pools).2);
  }

  lemma RaisedSame(tb: Tables, at: Timestamp, a: seq<PoolView>, b: seq<PoolView>)
    requires RaisedWithin(tb, at, a, b)
    ensures SamePools(a, b)
  {
  }

  lemma RetieredRaises(conf: Conf, pt: Pt, tier: Option<Tier>, ceiling: nat, now: Timestamp, pools: seq<PoolView>)
    requires DistinctKeys(pools)
    ensures RaisedWithin(conf.tb, NeededFrom(pt, now), pools, Retiered(conf, pt, tier, ceiling, pools).2)
    ensures var t := Retiered(conf, pt, tier, ceiling, pools); t.1.termStart == pt.termStart && t.1.state == pt.state && SamePools(pools, t.2)
  {
    hide Exchange, RaisedWithin;
    RaisedItself(conf.tb, NeededFrom(pt, now), pools);
    if Retiers(pt, tier) {
      ExchangeRaises(conf, pt, Job(pt.model, tier.value, ceiling), AsClaims(Pooled(conf, pt)), pools);
    }
    RaisedSame(conf.tb, NeededFrom(pt, now), pools, Retiered(conf, pt, tier, ceiling, pools).2);
  }

  lemma DividedRaises(conf: Conf, pt: Pt, regions: Option<seq<F.RegionShare>>, ceiling: nat, now: Timestamp, salesOpen: bool, pools: seq<PoolView>)
    requires DistinctKeys(pools)
    ensures RaisedWithin(conf.tb, NeededFrom(pt, now), pools, Divided(conf, pt, regions, ceiling, now, salesOpen, pools).2)
  {
    hide Exchange, MovedTo, RaisedWithin, F.Growth, IncreasesOnly;
    RaisedItself(conf.tb, NeededFrom(pt, now), pools);
    if regions.Some? && salesOpen {
      var next := WithRegions(conf, pt, regions.value);
      ExchangeRaises(conf, pt, Job(pt.model, pt.tier, ceiling), ClaimsFor(conf, pt, HeldShares(next)), pools);
      MovedToRaises(conf, pt, HeldShares(next), ceiling, Max(pt.termStart, now), pools);
    }
  }

  /** The counters an update that is not refused leaves. */
  function PoolsAfter(conf: Conf, pt: Pt, req: UpdateRequest, now: Timestamp, salesOpen: bool, pools: seq<PoolView>): seq<PoolView> {
    var b := BegunAs(conf, pt, req, now, pools);
    Divided(conf, b.1, req.regions, NewCeiling(pt, req), now, salesOpen, b.2).2
  }

  lemma UpdateRaises(conf: Conf, pt: Pt, req: UpdateRequest, now: Timestamp, salesOpen: bool, pools: seq<PoolView>)
    requires DistinctKeys(pools) && ValidPt(pt) && !Refused(conf, pt, req, now, salesOpen, pools)
    ensures RaisedWithin(conf.tb, NeededFrom(pt, now), pools, PoolsAfter(conf, pt, req, now, salesOpen, pools))
  {
    hide Unmoved, Retiered, Divided, RaisedWithin, ShapeRefused;
    var base := WithAutoRenew(pt, req.autoRenew);
    var at := NeededFrom(pt, now);
    var u := Unmoved(conf, base, req.rebalance, now, pools);
    UnmovedRaises(conf, base, req.rebalance, now, pools);
    SamePoolsKeys(pools, u.2);
    var t := Retiered(conf, u.1, req.tier, NewCeiling(pt, req), u.2);
    RetieredRaises(conf, u.1, req.tier, NewCeiling(pt, req), now, u.2);
    SamePoolsKeys(u.2, t.2);
    DividedRaises(conf, t.1, req.regions, NewCeiling(pt, req), now, salesOpen, t.2);
    RaisedTransitive(conf.tb, at, pools, u.2, t.2);
    RaisedTransitive(conf.tb, at, pools, t.2, PoolsAfter(conf, pt, req, now, salesOpen, pools));
  }

  /** A swap for the next term: what it takes is there when that term starts. */
  lemma SwapOutRaises(conf: Conf, pt: Pt, job: Job, claims: seq<Claim>, pools: seq<PoolView>)
    requires DistinctKeys(pools) && Healthy(conf, pt, pools) && Covers(conf.tb, pt.tier, Pooled(conf, pt), pools)
    ensures RaisedWithin(conf.tb, pt.termEnd, pools, SwapOut(conf, pt, job, claims, pools).1)
    ensures DistinctKeys(SwapOut(conf, pt, job, claims, pools).1)
  {
    hide ReserveAll, ReleaseAll, RaisedWithin, UndoOne, Covers, Healthy, Own;
    var gone := Pooled(conf, pt);
    var b := ReleaseAll(conf.tb, pt.tier, gone, pools);
    ReleaseRaises(conf.tb, pt.termEnd, pt.tier, gone, pools);
    ReleaseDistinct(conf.tb, pt.tier, gone, pools);
    RaisedItself(conf.tb, pt.termEnd, pools);
    if ReserveAll(conf.tb, job, pt.termEnd, claims, b).Ok? {
      ReserveRaises(conf.tb, job, pt.termEnd, claims, b);
      RaisedTransitive(conf.tb, pt.termEnd, pools, b, SwapOut(conf, pt, job, claims, pools).1);
      RaisedSame(conf.tb, pt.termEnd, pools, SwapOut(conf, pt, job, claims, pools).1);
      SamePoolsKeys(pools, SwapOut(conf, pt, job, claims, pools).1);
    } else {
      PutBack(conf, pt, pools);
    }
  }

  /** A turn with no change kept for it takes nothing. */
  lemma TurnRaises(conf: Conf, pt: Pt, nextEnd: Timestamp, at: Timestamp, pools: seq<PoolView>)
    requires pt.pending.None?
    ensures RaisedWithin(conf.tb, at, pools, TurnedOver(conf, pt, nextEnd, pools).1)
  {
    hide ReleaseAll, RaisedWithin;
    RaisedItself(conf.tb, at, pools);
    ReleaseRaises(conf.tb, at, pt.tier, Pooled(conf, pt), pools);
  }

  /** One more turn of a run from `first`: only the first takes anything. */
  lemma TurningRaises(conf: Conf, pt0: Pt, first: Pt, pt: Pt, now: Timestamp, end: Timestamp, a: seq<PoolView>, b: seq<PoolView>, c: seq<PoolView>,
                      ops: seq<PlanOp>, trail: Trail, sound: bool, turned: bool)
    requires Turning(conf, pt0, first, pt, now, a, b, ops, trail, sound, turned) && RaisedWithin(conf.tb, first.termEnd, a, b)
    requires RaisedWithin(conf.tb, pt.termEnd, b, c) && c == TurnedOver(conf, pt, end, b).1
    ensures RaisedWithin(conf.tb, first.termEnd, a, c)
  {
    hide Turn, TurnsSafe, Quiet, TurnedOver, RaisedWithin;
    if turned {
      TurnRaises(conf, pt, end, first.termEnd, b);
    }
    RaisedTransitive(conf.tb, first.termEnd, a, b, c);
  }
}
