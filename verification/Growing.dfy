/**
 Which regions of a move grow where they are, which move whole, and where a move stops
 (`move_capacity`, crates/pt-control-plane/src/service.rs), read off the counters before it.
 */
module Growing {
  import opened Prelude
  import opened Capacity
  import opened Planner
  import opened MemoryPlanner
  import opened Holdings
  import opened Moves
  import opened Changes
  import F = Failover

  // ---------------------------------------------------------------------------
  // One claim, one region
  // ---------------------------------------------------------------------------

  lemma OneClaim(tb: Tables, job: Job, claim: Claim, at: Timestamp, pools: seq<PoolView>)
    ensures var first := PlaceAt(tb, job, claim, at, pools);
      ReserveAll(tb, job, at, [claim], pools)
      == if first.Err? then Err(first.error)
         else Ok(([PoolShare(claim.region, first.value.0, claim.cus)], Raise(pools, Key(claim.region, first.value.0), first.value.1)))
  {
    hide PlaceAt, Raise;
    var first := PlaceAt(tb, job, claim, at, pools);
    if first.Ok? {
      var raised := Raise(pools, Key(claim.region, first.value.0), first.value.1);
      var share := PoolShare(claim.region, first.value.0, claim.cus);
      assert [claim][1..] == [] && ReserveAll(tb, job, at, [], raised) == Ok(([], raised));
      assert [share] + [] == [share];
    }
  }

  /** The same pools, with the same counters in `region`. */
  predicate AlikeIn(region: string, a: seq<PoolView>, b: seq<PoolView>) {
    SamePools(a, b) && forall k :: 0 <= k < |a| && a[k].key.region == region ==> a[k] == b[k]
  }

  /** The same pools, with the same counters outside `region`. */
  predicate AlikeOutside(region: string, a: seq<PoolView>, b: seq<PoolView>) {
    SamePools(a, b) && forall k :: 0 <= k < |a| && a[k].key.region != region ==> a[k] == b[k]
  }

  lemma {:induction false} CandidatesAlike(claim: Claim, model: string, a: seq<PoolView>, b: seq<PoolView>)
    requires AlikeIn(claim.region, a, b)
    ensures Candidates(claim, model, a) == Candidates(claim, model, b)
  {
    if a != [] {
      assert a[0].(reserved := 0) == b[0].(reserved := 0);
      assert AlikeIn(claim.region, a[1..], b[1..]);
      CandidatesAlike(claim, model, a[1..], b[1..]);
    }
  }

  /** A claim sees only the counters of its region. */
  lemma PlacedAlike(tb: Tables, job: Job, claim: Claim, at: Timestamp, a: seq<PoolView>, b: seq<PoolView>)
    requires AlikeIn(claim.region, a, b)
    ensures PlaceAt(tb, job, claim, at, a) == PlaceAt(tb, job, claim, at, b)
  {
    CandidatesAlike(claim, job.model, a, b);
    hide Candidates, Serving, Costed, Least, Offers, Available, AvailableFrom, MaxContext;
  }

  /** A claim refused for lack of room could have used some pool. */
  lemma RefusedForRoom(tb: Tables, job: Job, claim: Claim, at: Timestamp, pools: seq<PoolView>)
    requires PlaceAt(tb, job, claim, at, pools).Err? && PlaceAt(tb, job, claim, at, pools).error.CapacityUnavailable?
    ensures exists k :: 0 <= k < |pools| && Usable(tb, job, claim, pools[k])
    ensures forall p :: p in pools && Usable(tb, job, claim, p) ==> !Fits(tb, job.tier, p, claim.cus, at)
  {
    PlaceOkIffSomeFits(tb, job, claim, at, pools);
    UsablePoolsContents(tb, job, claim, pools);
    var usable := UsablePools(tb, job, claim, pools);
    assert usable != [];
    assert usable[0] in usable;
  }

  /** More CUs need at least as much. */
  lemma FitsFewer(tb: Tables, tier: Tier, p: PoolView, more: nat, fewer: nat, at: Timestamp)
    requires fewer <= more && Fits(tb, tier, p, more, at)
    ensures Fits(tb, tier, p, fewer, at)
  {
    match PerCu(tb.costs, p.key, tier)
    case None =>
    case Some(c) => MulMonotone(c, fewer, more);
  }

  // ---------------------------------------------------------------------------
  // One growing region
  // ---------------------------------------------------------------------------

  /** What a region grows by fits on the pool it is on, or a new region fits somewhere. */
  predicate GrowsInPlace(conf: Conf, pt: Pt, g: F.RegionShare, ceiling: nat, at: Timestamp, pools: seq<PoolView>) {
    PlaceAt(conf.tb, Job(pt.model, pt.tier, ceiling), ClaimFor(conf, pt, g), at, pools).Ok?
  }

  /** What a region grows by fits in place, or the region fits whole on another pool. */
  predicate Grows(conf: Conf, pt: Pt, g: F.RegionShare, target: seq<F.RegionShare>, ceiling: nat, at: Timestamp, pools: seq<PoolView>) {
    Grown(conf, pt, g, target, ceiling, at, pools).Ok?
  }

  function WholeClaim(g: F.RegionShare, target: seq<F.RegionShare>): Claim {
    Claim(g.region, None, if F.Has(target, g.region) then F.CusAt(target, g.region) else g.cus)
  }

  /** `Grown`, in terms of where its one claim goes. */
  lemma GrownIs(conf: Conf, pt: Pt, g: F.RegionShare, target: seq<F.RegionShare>, ceiling: nat, at: Timestamp, pools: seq<PoolView>)
    ensures var job, claim, whole := Job(pt.model, pt.tier, ceiling), ClaimFor(conf, pt, g), WholeClaim(g, target);
      var here := PlaceAt(conf.tb, job, claim, at, pools);
      var there := PlaceAt(conf.tb, job, whole, at, pools);
      Grown(conf, pt, g, target, ceiling, at, pools)
      == if here.Ok? then
           Ok((pt.(placements := pt.placements[g.region := here.value.0]), Raise(pools, Key(g.region, here.value.0), here.value.1)))
         else if !(here.error.CapacityUnavailable? && claim.pool.Some?) then Err(here.error)
         else if there.Err? then Err(there.error)
         else
           Ok((pt.(placements := pt.placements[g.region := there.value.0]),
               ReleaseAll(conf.tb, pt.tier, OnPools(conf, pt, InRegion(HeldShares(pt), g.region)),
                          Raise(pools, Key(g.region, there.value.0), there.value.1))))
  {
    hide PlaceAt, ReserveAll, Raise, ReleaseAll, OnPools, InRegion, HeldShares;
    var job, claim, whole := Job(pt.model, pt.tier, ceiling), ClaimFor(conf, pt, g), WholeClaim(g, target);
    OneClaim(conf.tb, job, claim, at, pools);
    OneClaim(conf.tb, job, whole, at, pools);
    var here, there := PlaceAt(conf.tb, job, claim, at, pools), PlaceAt(conf.tb, job, whole, at, pools);
    if here.Ok? {
      RecordOne(pt, PoolShare(g.region, here.value.0, claim.cus));
    } else if there.Ok? {
      RecordOne(pt, PoolShare(g.region, there.value.0, whole.cus));
    }
  }

  lemma RecordOne(pt: Pt, s: PoolShare)
    ensures Record(pt, [s]) == pt.(placements := pt.placements[s.region := s.pool])
  {
    assert [s][1..] == [];
  }

  /** How a region grows depends on its own pool and its own region's counters only. */
  lemma GrownAlike(conf: Conf, pt: Pt, pt': Pt, g: F.RegionShare, target: seq<F.RegionShare>, ceiling: nat, at: Timestamp,
                   a: seq<PoolView>, b: seq<PoolView>)
    requires AlikeIn(g.region, a, b) && pt' == pt.(placements := pt'.placements)
    requires PoolOf(conf, pt', g.region) == PoolOf(conf, pt, g.region)
    ensures GrowsInPlace(conf, pt, g, ceiling, at, a) <==> GrowsInPlace(conf, pt', g, ceiling, at, b)
    ensures Grows(conf, pt, g, target, ceiling, at, a) <==> Grows(conf, pt', g, target, ceiling, at, b)
  {
    hide PlaceAt, Grown, Raise, ReleaseAll, OnPools, InRegion, HeldShares;
    var job := Job(pt.model, pt.tier, ceiling);
    HeldAlike(pt, pt');
    PlacedAlike(conf.tb, job, ClaimFor(conf, pt, g), at, a, b);
    PlacedAlike(conf.tb, job, WholeClaim(g, target), at, a, b);
    GrownIs(conf, pt, g, target, ceiling, at, a);
    GrownIs(conf, pt', g, target, ceiling, at, b);
  }

  lemma HeldAlike(pt: Pt, pt': Pt)
    requires pt' == pt.(placements := pt'.placements)
    ensures HeldShares(pt') == HeldShares(pt)
  {
  }

  /** Raising a counter changes its region's counters only. */
  lemma RaiseAlike(pools: seq<PoolView>, key: Key, need: nat)
    ensures AlikeOutside(key.region, pools, Raise(pools, key, need))
  {
  }

  lemma {:induction false} ReleaseAlike(tb: Tables, tier: Tier, shares: seq<PoolShare>, region: string, pools: seq<PoolView>)
    requires forall s :: s in shares ==> s.region == region
    ensures AlikeOutside(region, pools, ReleaseAll(tb, tier, shares, pools))
    decreases |shares|
  {
    if shares != [] {
      var lower := Lower(pools, shares[0].Where(), CostOrZero(tb, tier, shares[0]));
      assert AlikeOutside(region, pools, lower);
      ReleaseAlike(tb, tier, shares[1..], region, lower);
      SamePoolsTransitive(pools, lower, ReleaseAll(tb, tier, shares[1..], lower));
    }
  }

  lemma {:induction false} OnPoolsRegion(conf: Conf, pt: Pt, shares: seq<F.RegionShare>, region: string)
    requires forall s :: s in shares ==> s.region == region
    ensures forall s :: s in OnPools(conf, pt, shares) ==> s.region == region
  {
    if shares != [] {
      OnPoolsRegion(conf, pt, shares[1..], region);
    }
  }

  /** A region that grew is recorded on a pool, and only its region's counters changed. */
  lemma GrownEffect(conf: Conf, pt: Pt, g: F.RegionShare, target: seq<F.RegionShare>, ceiling: nat, at: Timestamp, pools: seq<PoolView>)
    returns (pool: string)
    requires Grows(conf, pt, g, target, ceiling, at, pools)
    ensures var (pt', after) := Grown(conf, pt, g, target, ceiling, at, pools).value;
      pt' == pt.(placements := pt.placements[g.region := pool]) && AlikeOutside(g.region, pools, after)
    ensures var here := PlaceAt(conf.tb, Job(pt.model, pt.tier, ceiling), ClaimFor(conf, pt, g), at, pools);
      if here.Ok? then here.value.0 == pool
      else
        && here.error.CapacityUnavailable? && ClaimFor(conf, pt, g).pool.Some?
        && var there := PlaceAt(conf.tb, Job(pt.model, pt.tier, ceiling), WholeClaim(g, target), at, pools);
           there.Ok? && there.value.0 == pool
  {
    hide PlaceAt, Grown, Raise, ReleaseAll, InRegion, OnPools, HeldShares;
    GrownIs(conf, pt, g, target, ceiling, at, pools);
    var here := PlaceAt(conf.tb, Job(pt.model, pt.tier, ceiling), ClaimFor(conf, pt, g), at, pools);
    if here.Ok? {
      pool := here.value.0;
      RaiseAlike(pools, Key(g.region, pool), here.value.1);
    } else {
      var there := PlaceAt(conf.tb, Job(pt.model, pt.tier, ceiling), WholeClaim(g, target), at, pools);
      pool := there.value.0;
      var raised := Raise(pools, Key(g.region, pool), there.value.1);
      RaiseAlike(pools, Key(g.region, pool), there.value.1);
      InRegionIs(HeldShares(pt), g.region);
      OnPoolsRegion(conf, pt, InRegion(HeldShares(pt), g.region), g.region);
      var gone := OnPools(conf, pt, InRegion(HeldShares(pt), g.region));
      ReleaseAlike(conf.tb, pt.tier, gone, g.region, raised);
      SamePoolsTransitive(pools, raised, ReleaseAll(conf.tb, pt.tier, gone, raised));
    }
  }

  /** A held region that grew stayed on its pool exactly if its growth fits there; and that
      pool serves the shape either way. */
  lemma GrownWhere(conf: Conf, pt: Pt, g: F.RegionShare, target: seq<F.RegionShare>, ceiling: nat, at: Timestamp, pools: seq<PoolView>)
    requires Grows(conf, pt, g, target, ceiling, at, pools) && DistinctKeys(pools)
    requires F.Has(HeldShares(pt), g.region) && PoolOf(conf, pt, g.region).Some? && g.cus <= WholeClaim(g, target).cus
    ensures var pt' := Grown(conf, pt, g, target, ceiling, at, pools).value.0;
      PoolOf(conf, pt', g.region) == PoolOf(conf, pt, g.region) <==> GrowsInPlace(conf, pt, g, ceiling, at, pools)
    ensures ServedAt(conf, pt, ceiling, g.region, pools)
  {
    hide Place, Grown, HeldShares;
    var job, claim := Job(pt.model, pt.tier, ceiling), ClaimFor(conf, pt, g);
    var key := Key(g.region, claim.pool.value);
    var pool := GrownEffect(conf, pt, g, target, ceiling, at, pools);
    if GrowsInPlace(conf, pt, g, ceiling, at, pools) {
      var p := PlaceAtFits(conf.tb, job, claim, at, pools);
      var k :| 0 <= k < |pools| && pools[k] == p;
      assert Serves(conf.tb, job, key, pools[k]);
    } else {
      RefusedForRoom(conf.tb, job, claim, at, pools);
      var k :| 0 <= k < |pools| && Usable(conf.tb, job, claim, pools[k]);
      assert Serves(conf.tb, job, key, pools[k]);
      var q := PlaceAtFits(conf.tb, job, WholeClaim(g, target), at, pools);
      if pool == key.pool {
        FitsFewer(conf.tb, job.tier, q, WholeClaim(g, target).cus, g.cus, at);
        assert false;
      }
    }
  }

  // ---------------------------------------------------------------------------
  // All growing regions in turn
  // ---------------------------------------------------------------------------

  /** Growing regions, each once and by no more than its target. */
  predicate Growths(gs: seq<F.RegionShare>, target: seq<F.RegionShare>) {
    F.DistinctRegions(gs) && forall g :: g in gs ==> g.cus <= WholeClaim(g, target).cus
  }

  lemma GrowthsOf(before: seq<F.RegionShare>, target: seq<F.RegionShare>)
    requires F.DistinctRegions(target)
    ensures Growths(F.Growth(before, target), target)
  {
    var gs := F.Growth(before, target);
    F.GrowthDistinct(before, target);
    forall g | g in gs
      ensures g.cus <= WholeClaim(g, target).cus
    {
      var i :| 0 <= i < |gs| && gs[i] == g;
      GrowthMember(before, target, i);
      F.CusAtHas(target, g.region);
    }
  }

  /** The first `n` regions all grow, on these counters. */
  predicate FirstGrow(conf: Conf, pt: Pt, gs: seq<F.RegionShare>, n: nat, target: seq<F.RegionShare>, ceiling: nat, at: Timestamp, pools: seq<PoolView>)
    requires n <= |gs|
  {
    forall j :: 0 <= j < n ==> Grows(conf, pt, gs[j], target, ceiling, at, pools)
  }

  /** `region` grows, no region before it stops the move, and its own pool has no room. */
  predicate LeavesItsPool(conf: Conf, pt: Pt, gs: seq<F.RegionShare>, target: seq<F.RegionShare>, ceiling: nat, at: Timestamp,
                          pools: seq<PoolView>, region: string)
  {
    exists i :: 0 <= i < |gs| && gs[i].region == region && FirstGrow(conf, pt, gs, i + 1, target, ceiling, at, pools)
                && !GrowsInPlace(conf, pt, gs[i], ceiling, at, pools)
  }

  /** After the first region has grown, the others grow as they would have before. */
  lemma LaterAlike(conf: Conf, pt: Pt, pt': Pt, gs: seq<F.RegionShare>, target: seq<F.RegionShare>, ceiling: nat, at: Timestamp,
                   a: seq<PoolView>, b: seq<PoolView>, pool: string)
    requires gs != [] && F.DistinctRegions(gs) && AlikeOutside(gs[0].region, a, b)
    requires pt' == pt.(placements := pt.placements[gs[0].region := pool])
    ensures forall j :: 0 < j < |gs| ==>
      && (Grows(conf, pt, gs[j], target, ceiling, at, a) <==> Grows(conf, pt', gs[j], target, ceiling, at, b))
      && (GrowsInPlace(conf, pt, gs[j], ceiling, at, a) <==> GrowsInPlace(conf, pt', gs[j], ceiling, at, b))
  {
    hide Grows, GrowsInPlace;
    forall j | 0 < j < |gs|
      ensures Grows(conf, pt, gs[j], target, ceiling, at, a) <==> Grows(conf, pt', gs[j], target, ceiling, at, b)
      ensures GrowsInPlace(conf, pt, gs[j], ceiling, at, a) <==> GrowsInPlace(conf, pt', gs[j], ceiling, at, b)
    {
      GrownAlike(conf, pt, pt', gs[j], target, ceiling, at, a, b);
    }
  }

  /** A move goes through exactly when every growing region grows on the counters before it:
      regions do not get in each other's way. */
  lemma {:induction false} MoveGoesThroughIff(conf: Conf, pt: Pt, gs: seq<F.RegionShare>, target: seq<F.RegionShare>, ceiling: nat,
                                              at: Timestamp, pools: seq<PoolView>)
    requires F.DistinctRegions(gs)
    ensures AllGrown(conf, pt, gs, target, ceiling, at, pools).0.None? <==> FirstGrow(conf, pt, gs, |gs|, target, ceiling, at, pools)
    decreases |gs|
  {
    hide Grown;
    if gs != [] {
      if Grows(conf, pt, gs[0], target, ceiling, at, pools) {
        var pool := GrownEffect(conf, pt, gs[0], target, ceiling, at, pools);
        var (pt', after) := Grown(conf, pt, gs[0], target, ceiling, at, pools).value;
        LaterAlike(conf, pt, pt', gs, target, ceiling, at, pools, after, pool);
        MoveGoesThroughIff(conf, pt', gs[1..], target, ceiling, at, after);
        hide Grows;
        assert FirstGrow(conf, pt', gs[1..], |gs| - 1, target, ceiling, at, after)
          <==> FirstGrow(conf, pt, gs, |gs|, target, ceiling, at, pools) by {
          FirstGrowTail(conf, pt, pt', gs, |gs|, target, ceiling, at, pools, after);
        }
      }
    }
  }

  lemma FirstGrowTail(conf: Conf, pt: Pt, pt': Pt, gs: seq<F.RegionShare>, n: nat, target: seq<F.RegionShare>, ceiling: nat, at: Timestamp,
                      a: seq<PoolView>, b: seq<PoolView>)
    requires 0 < n <= |gs| && Grows(conf, pt, gs[0], target, ceiling, at, a)
    requires forall j :: 0 < j < |gs| ==> (Grows(conf, pt, gs[j], target, ceiling, at, a) <==> Grows(conf, pt', gs[j], target, ceiling, at, b))
    ensures FirstGrow(conf, pt', gs[1..], n - 1, target, ceiling, at, b) <==> FirstGrow(conf, pt, gs, n, target, ceiling, at, a)
  {
    hide Grows;
    assert forall j :: 0 <= j < n - 1 ==> gs[1..][j] == gs[j + 1];
    if FirstGrow(conf, pt', gs[1..], n - 1, target, ceiling, at, b) {
      forall j | 0 <= j < n
        ensures Grows(conf, pt, gs[j], target, ceiling, at, a)
      {
        if j > 0 {
          assert gs[1..][j - 1] == gs[j];
        }
      }
    }
  }

  /** Where a held region is when a move is over or has stopped: off its pool exactly when the
      move reached it and its pool had no room for its growth. */
  lemma {:induction false} MovedOffIff(conf: Conf, pt: Pt, gs: seq<F.RegionShare>, target: seq<F.RegionShare>, ceiling: nat,
                                       at: Timestamp, pools: seq<PoolView>, region: string)
    requires Growths(gs, target) && DistinctKeys(pools) && F.Has(HeldShares(pt), region) && PoolOf(conf, pt, region).Some?
    ensures PoolOf(conf, AllGrown(conf, pt, gs, target, ceiling, at, pools).1, region) != PoolOf(conf, pt, region)
            <==> LeavesItsPool(conf, pt, gs, target, ceiling, at, pools, region)
    ensures AllGrown(conf, pt, gs, target, ceiling, at, pools).0.None? && F.Has(gs, region) ==> ServedAt(conf, pt, ceiling, region, pools)
    decreases |gs|
  {
    hide Grown, GrowsInPlace, HeldShares, ServedAt;
    if gs != [] && Grows(conf, pt, gs[0], target, ceiling, at, pools) {
      var pool := GrownEffect(conf, pt, gs[0], target, ceiling, at, pools);
      var (pt', after) := Grown(conf, pt, gs[0], target, ceiling, at, pools).value;
      LaterAlike(conf, pt, pt', gs, target, ceiling, at, pools, after, pool);
      HeldAlike(pt, pt');
      SamePoolsKeys(pools, after);
      assert Growths(gs[1..], target);
      MovedOffIff(conf, pt', gs[1..], target, ceiling, at, after, region);
      LeavesTail(conf, pt, pt', gs, target, ceiling, at, pools, after, region);
      if region == gs[0].region {
        GrownWhere(conf, pt, gs[0], target, ceiling, at, pools);
      } else {
        F.HasHead(gs, region);
        assert PoolOf(conf, pt', region) == PoolOf(conf, pt, region);
        ServedAlike(conf, pt, pt', ceiling, region, pools, after);
      }
    }
  }

  lemma ServedAlike(conf: Conf, pt: Pt, pt': Pt, ceiling: nat, region: string, a: seq<PoolView>, b: seq<PoolView>)
    requires SamePools(a, b) && pt' == pt.(placements := pt'.placements) && PoolOf(conf, pt', region) == PoolOf(conf, pt, region)
    ensures ServedAt(conf, pt', ceiling, region, b) ==> ServedAt(conf, pt, ceiling, region, a)
  {
    if ServedAt(conf, pt', ceiling, region, b) {
      SamePoolsKeys(a, b);
      ServedAtSame(conf, pt', ceiling, region, b, a);
    }
  }

  lemma LeavesTail(conf: Conf, pt: Pt, pt': Pt, gs: seq<F.RegionShare>, target: seq<F.RegionShare>, ceiling: nat, at: Timestamp,
                   a: seq<PoolView>, b: seq<PoolView>, region: string)
    requires gs != [] && F.DistinctRegions(gs) && Grows(conf, pt, gs[0], target, ceiling, at, a)
    requires forall j :: 0 < j < |gs| ==>
      && (Grows(conf, pt, gs[j], target, ceiling, at, a) <==> Grows(conf, pt', gs[j], target, ceiling, at, b))
      && (GrowsInPlace(conf, pt, gs[j], ceiling, at, a) <==> GrowsInPlace(conf, pt', gs[j], ceiling, at, b))
    ensures LeavesItsPool(conf, pt, gs, target, ceiling, at, a, region)
            <==> if region == gs[0].region then !GrowsInPlace(conf, pt, gs[0], ceiling, at, a)
                 else LeavesItsPool(conf, pt', gs[1..], target, ceiling, at, b, region)
    ensures region == gs[0].region ==> !LeavesItsPool(conf, pt', gs[1..], target, ceiling, at, b, region)
  {
    hide Grows, GrowsInPlace;
    assert forall j :: 0 <= j < |gs| - 1 ==> gs[1..][j] == gs[j + 1];
    forall n | 0 < n <= |gs|
      ensures FirstGrow(conf, pt', gs[1..], n - 1, target, ceiling, at, b) <==> FirstGrow(conf, pt, gs, n, target, ceiling, at, a)
    {
      FirstGrowTail(conf, pt, pt', gs, n, target, ceiling, at, a, b);
    }
    hide FirstGrow;
    if region == gs[0].region {
      assert FirstGrow(conf, pt, gs, 1, target, ceiling, at, a) by {
        FirstOne(conf, pt, gs, target, ceiling, at, a);
      }
    } else {
      if LeavesItsPool(conf, pt', gs[1..], target, ceiling, at, b, region) {
        var i :| 0 <= i < |gs[1..]| && gs[1..][i].region == region && FirstGrow(conf, pt', gs[1..], i + 1, target, ceiling, at, b)
                 && !GrowsInPlace(conf, pt', gs[1..][i], ceiling, at, b);
        assert gs[i + 1].region == region && FirstGrow(conf, pt, gs, i + 2, target, ceiling, at, a);
      }
      if LeavesItsPool(conf, pt, gs, target, ceiling, at, a, region) {
        var i :| 0 <= i < |gs| && gs[i].region == region && FirstGrow(conf, pt, gs, i + 1, target, ceiling, at, a)
                 && !GrowsInPlace(conf, pt, gs[i], ceiling, at, a);
        assert gs[1..][i - 1] == gs[i] && FirstGrow(conf, pt', gs[1..], i, target, ceiling, at, b);
      }
    }
  }

  // ---------------------------------------------------------------------------
  // Which shapes the pools before a move serve
  // ---------------------------------------------------------------------------

  /** An increase of the contract split keeps every region held. */
  lemma IncreaseKeepsRegions(conf: Conf, pt: Pt, regions: seq<F.RegionShare>, region: string)
    requires ValidPt(pt) && pt.moved == [] && Backed(conf, pt) && F.Whole(regions) && IncreasesOnly(pt.regions, regions)
    requires F.Has(HeldShares(pt), region)
    ensures F.Has(HeldShares(WithRegions(conf, pt, regions)), region)
  {
    var next := WithRegions(conf, pt, regions);
    HeldDistinct(pt);
    WithRegionsWhole(conf, pt, regions);
    assert Effective(pt) == pt.regions && HeldShares(next) == F.Footprint(regions, next.headroom);
    assert HeldShares(pt) == F.Footprint(pt.regions, pt.headroom);
    hide F.Headroom, F.Footprint, HeldShares, IncreasesOnly, F.Has;
    WholeAt(HeldShares(pt), region);
    WholeAt(HeldShares(next), region);
    F.FootprintAt(pt.regions, pt.headroom, region);
    F.FootprintAt(regions, next.headroom, region);
    if F.CusAt(pt.regions, region) == 0 {
      F.HeadroomIsHeld(conf.pairs, pt.sku, pt.regions, region);
    }
    WholeAt(pt.regions, region);
    WholeAt(regions, region);
    SameNames(pt.regions, regions, region);
  }

  lemma IncreaseKeepsAll(conf: Conf, pt: Pt, regions: seq<F.RegionShare>)
    requires ValidPt(pt) && F.Whole(regions) && IncreasesOnly(pt.regions, regions)
    ensures pt.moved == [] && Backed(conf, pt) ==>
      forall s :: s in HeldShares(pt) ==> F.Has(HeldShares(WithRegions(conf, pt, regions)), s.region)
  {
    hide HeldShares, WithRegions, Backed, ValidPt, F.Whole, IncreasesOnly;
    if pt.moved == [] && Backed(conf, pt) {
      forall s | s in HeldShares(pt)
        ensures F.Has(HeldShares(WithRegions(conf, pt, regions)), s.region)
      {
        var i :| 0 <= i < |HeldShares(pt)| && HeldShares(pt)[i] == s;
        IncreaseKeepsRegions(conf, pt, regions, s.region);
      }
    }
  }

  lemma SameNames(current: seq<F.RegionShare>, new_: seq<F.RegionShare>, region: string)
    requires F.Whole(current) && F.Whole(new_) && IncreasesOnly(current, new_)
    ensures F.Has(current, region) ==> F.Has(new_, region)
  {
    F.SameRegions(current, new_, region);
  }

  lemma WithRegionsWhole(conf: Conf, pt: Pt, regions: seq<F.RegionShare>)
    requires F.Whole(regions)
    ensures F.Whole(HeldShares(WithRegions(conf, pt, regions))) && F.Whole(WithRegions(conf, pt, regions).headroom)
  {
    F.HeadroomWhole(conf.pairs, pt.sku, regions);
  }

  lemma {:induction false} WholeAt(shares: seq<F.RegionShare>, region: string)
    requires F.Whole(shares)
    ensures F.Has(shares, region) <==> F.CusAt(shares, region) > 0
  {
    if shares != [] {
      assert shares[0] in shares && F.Whole(shares[1..]);
      WholeAt(shares[1..], region);
      F.HasHead(shares, region);
    }
  }

  /** After a move to `next` went through, and if every pool `next` is on serves `ceiling`,
      every pool the reservation was on served it too, as long as no region was given up. */
  lemma ServedBefore(conf: Conf, pt: Pt, next: Pt, ceiling: nat, at: Timestamp, a: seq<PoolView>, b: seq<PoolView>)
    requires ValidPt(pt) && F.DistinctRegions(HeldShares(next)) && DistinctKeys(a) && SamePools(a, b)
    requires next.model == pt.model && next.tier == pt.tier
    requires var grown := AllGrown(conf, pt, F.Growth(HeldShares(pt), HeldShares(next)), HeldShares(next), ceiling, at, a);
      grown.0.None? && next.placements == grown.1.placements
    requires forall s :: s in HeldShares(pt) ==> F.Has(HeldShares(next), s.region)
    requires AllServedAt(conf, next, ceiling, HeldShares(next), b)
    ensures AllServedAt(conf, pt, ceiling, HeldShares(pt), a)
  {
    hide HeldShares, AllGrown, F.Growth;
    var before, target := HeldShares(pt), HeldShares(next);
    var gs := F.Growth(before, target);
    var moved := AllGrown(conf, pt, gs, target, ceiling, at, a).1;
    GrowthsOf(before, target);
    AllGrownPlaces(conf, pt, gs, target, ceiling, at, a);
    forall s | s in before
      ensures ServedAt(conf, pt, ceiling, s.region, a)
    {
      if PoolOf(conf, pt, s.region).Some? {
        assert F.Has(before, s.region) by {
          var i :| 0 <= i < |before| && before[i] == s;
        }
        MovedOffIff(conf, pt, gs, target, ceiling, at, a, s.region);
        if !F.Has(gs, s.region) {
          assert PoolOf(conf, moved, s.region) == PoolOf(conf, pt, s.region);
          var i :| 0 <= i < |target| && target[i].region == s.region;
          assert target[i] in target && ServedAt(conf, next, ceiling, s.region, b);
          SamePoolsKeys(a, b);
          ServedAtSame(conf, next, ceiling, s.region, b, a);
        }
      }
    }
  }

  lemma {:induction false} AllGrownPlaces(conf: Conf, pt: Pt, gs: seq<F.RegionShare>, target: seq<F.RegionShare>, ceiling: nat,
                                          at: Timestamp, pools: seq<PoolView>)
    ensures var moved := AllGrown(conf, pt, gs, target, ceiling, at, pools).1; moved == pt.(placements := moved.placements)
    decreases |gs|
  {
    hide Grown;
    if gs != [] && Grows(conf, pt, gs[0], target, ceiling, at, pools) {
      var pool := GrownEffect(conf, pt, gs[0], target, ceiling, at, pools);
      var (pt', after) := Grown(conf, pt, gs[0], target, ceiling, at, pools).value;
      AllGrownPlaces(conf, pt', gs[1..], target, ceiling, at, after);
    }
  }

  // ---------------------------------------------------------------------------
  // An undo with a shape some pool does not serve
  // ---------------------------------------------------------------------------

  lemma {:induction false} NothingOn(tb: Tables, tier: Tier, shares: seq<PoolShare>, key: Key)
    requires forall s :: s in shares ==> s.Where() != key
    ensures CostOf(tb, tier, shares, key) == 0
  {
    if shares != [] {
      NothingOn(tb, tier, shares[1..], key);
    }
  }

  /** Nothing is put on a pool that does not serve the shape. */
  lemma UndoOneNeverRaises(tb: Tables, model: string, ceiling: nat, op: PlanOp, pools: seq<PoolView>, k: nat)
    requires DistinctKeys(pools) && k < |pools| && pools[k].maxContext < ceiling
    ensures var r := UndoOne(tb, model, ceiling, op, pools);
      SamePools(pools, r) && r[k].reserved <= pools[k].reserved
  {
    match op
    case Reserved(tier, shares) => ReleaseLowers(tb, tier, shares, pools);
    case Released(tier, shares) =>
      var job, claims := Job(model, tier, ceiling), AsClaims(shares);
      if ReserveAll(tb, job, TIMESTAMP_MAX, claims, pools).Ok? {
        ReserveAllAdds(tb, job, TIMESTAMP_MAX, claims, pools);
        ReservedServed(tb, job, TIMESTAMP_MAX, claims, pools);
        var r := ReserveAll(tb, job, TIMESTAMP_MAX, claims, pools).value;
        hide ReserveAll;
        forall s | s in r.0
          ensures s.Where() != pools[k].key
        {
          var j :| 0 <= j < |pools| && Serves(tb, job, s.Where(), pools[j]);
        }
        NothingOn(tb, tier, r.0, pools[k].key);
      }
  }

  lemma {:induction false} UndoNeverRaises(tb: Tables, model: string, ceiling: nat, ops: seq<PlanOp>, pools: seq<PoolView>, k: nat)
    requires DistinctKeys(pools) && k < |pools| && pools[k].maxContext < ceiling
    ensures var r := UndoAll(tb, model, ceiling, ops, pools);
      SamePools(pools, r) && r[k].reserved <= pools[k].reserved
    decreases |ops|
  {
    if ops != [] {
      var one := UndoOne(tb, model, ceiling, ops[|ops| - 1], pools);
      UndoOneNeverRaises(tb, model, ceiling, ops[|ops| - 1], pools, k);
      SamePoolsKeys(pools, one);
      hide UndoOne;
      UndoNeverRaises(tb, model, ceiling, ops[..|ops| - 1], one, k);
      SamePoolsTransitive(pools, one, UndoAll(tb, model, ceiling, ops, pools));
    }
  }

  /** Some pool `pt` holds capacity on has a lower counter in `b` than in `a`. */
  predicate LowerSomewhere(conf: Conf, pt: Pt, a: seq<PoolView>, b: seq<PoolView>) {
    |a| == |b| && exists k :: 0 <= k < |a| && CostOf(conf.tb, pt.tier, Pooled(conf, pt), a[k].key) > 0 && b[k].reserved < a[k].reserved
  }

  /** A reservation that was on a pool not serving `ceiling`, and by now is on none such: an
      undo given `ceiling` cannot put back what it held there. */
  lemma UnservedIsLost(conf: Conf, pt0: Pt, pt: Pt, ceiling: nat, ops: seq<PlanOp>, trail: Trail, pools: seq<PoolView>)
    requires ValidPt(pt0) && OnTrack(conf, pt0, pt, ops, trail, pools) && Healthy(conf, pt0, trail.First())
    requires DistinctKeys(trail.First()) && DistinctKeys(pools)
    requires AllServedAt(conf, pt, ceiling, HeldShares(pt), pools)
    requires !AllServedAt(conf, pt0, ceiling, HeldShares(pt0), trail.First())
    ensures UndoAll(conf.tb, pt0.model, ceiling, ops, pools) != trail.First()
    ensures LowerSomewhere(conf, pt0, trail.First(), UndoAll(conf.tb, pt0.model, ceiling, ops, pools))
  {
    var start := trail.First();
    var s :| s in HeldShares(pt0) && !ServedAt(conf, pt0, ceiling, s.region, start);
    var key := Key(s.region, PoolOf(conf, pt0, s.region).value);
    var k := UnservedPool(conf, pt0, ceiling, s, start);
    LeftBehind(conf, pt0, pt, ceiling, s, ops, trail, pools, k);
    UndoNeverRaises(conf.tb, pt0.model, ceiling, ops, pools, k);
  }

  lemma UnservedUpdate(conf: Conf, pt0: Pt, req: UpdateRequest, pt: Pt, ops: seq<PlanOp>, trail: Trail, pools: seq<PoolView>)
    requires ValidPt(pt0) && OnTrack(conf, pt0, pt, ops, trail, pools) && Healthy(conf, pt0, trail.First())
    requires DistinctKeys(trail.First()) && DistinctKeys(pools)
    requires Healthy(conf, pt, pools) && pt.ceiling == NewCeiling(pt0, req) && !ServesNew(conf, pt0, req, trail.First())
    ensures LowerSomewhere(conf, pt0, trail.First(), UndoAll(conf.tb, pt.model, pt.ceiling, ops, pools))
  {
    hide OnTrack, LowerSomewhere, AllServedAt, DistinctKeys;
    assert pt.model == pt0.model by {
      TrackModel(conf, pt0, pt, ops, trail, pools);
    }
    UnservedIsLost(conf, pt0, pt, pt.ceiling, ops, trail, pools);
  }

  lemma TrackModel(conf: Conf, pt0: Pt, pt: Pt, ops: seq<PlanOp>, trail: Trail, pools: seq<PoolView>)
    requires OnTrack(conf, pt0, pt, ops, trail, pools)
    ensures pt.model == pt0.model
  {
  }

  lemma UnservedPool(conf: Conf, pt: Pt, ceiling: nat, s: F.RegionShare, pools: seq<PoolView>) returns (k: nat)
    requires Healthy(conf, pt, pools) && s in HeldShares(pt) && !ServedAt(conf, pt, ceiling, s.region, pools)
    ensures k < |pools| && pools[k].key == Key(s.region, PoolOf(conf, pt, s.region).value) && pools[k].maxContext < ceiling
    ensures PerCu(conf.tb.costs, pools[k].key, pt.tier).Some?
  {
    assert ServedAt(conf, pt, pt.ceiling, s.region, pools);
    var key := Key(s.region, PoolOf(conf, pt, s.region).value);
    k :| k < |pools| && Serves(conf.tb, Job(pt.model, pt.tier, pt.ceiling), key, pools[k]);
    assert !Serves(conf.tb, Job(pt.model, pt.tier, ceiling), key, pools[k]);
  }

  lemma LeftBehind(conf: Conf, pt0: Pt, pt: Pt, ceiling: nat, s: F.RegionShare, ops: seq<PlanOp>, trail: Trail, pools: seq<PoolView>, k: nat)
    requires ValidPt(pt0) && OnTrack(conf, pt0, pt, ops, trail, pools) && DistinctKeys(pools)
    requires AllServedAt(conf, pt, ceiling, HeldShares(pt), pools)
    requires s in HeldShares(pt0) && PoolOf(conf, pt0, s.region).Some? && k < |trail.First()|
    requires trail.First()[k].key == Key(s.region, PoolOf(conf, pt0, s.region).value) && trail.First()[k].maxContext < ceiling
    requires PerCu(conf.tb.costs, trail.First()[k].key, pt0.tier).Some?
    ensures k < |pools| && pools[k].reserved < trail.First()[k].reserved && pools[k].maxContext < ceiling
    ensures CostOf(conf.tb, pt0.tier, Pooled(conf, pt0), trail.First()[k].key) > 0
  {
    hide HeldShares, Logged, Covers;
    var start := trail.First();
    var key := start[k].key;
    SamePoolsKeys(start, pools);
    HeldDistinct(pt0);
    HeldDistinct(pt);
    OnPoolsCost(conf, pt0, HeldShares(pt0), key);
    OnPoolsCost(conf, pt, HeldShares(pt), key);
    var i :| 0 <= i < |HeldShares(pt0)| && HeldShares(pt0)[i] == s;
    CusAtIndex(HeldShares(pt0), i);
    assert PoolCost(conf.tb, pt0.tier, key, s.cus) > 0 by {
      PositiveCost(PerCu(conf.tb.costs, key, pt0.tier).value, s.cus);
    }
    if HoldCus(conf, pt, key, F.CusAt(HeldShares(pt), key.region)) > 0 {
      HeldIsServed(conf, pt, ceiling, key, pools);
      assert false;
    }
  }

  lemma HeldIsServed(conf: Conf, pt: Pt, ceiling: nat, key: Key, pools: seq<PoolView>)
    requires AllServedAt(conf, pt, ceiling, HeldShares(pt), pools) && HoldCus(conf, pt, key, F.CusAt(HeldShares(pt), key.region)) > 0
    ensures SomeServes(conf.tb, Job(pt.model, pt.tier, ceiling), key, pools)
  {
    PoolCostAdds(conf.tb, pt.tier, key, 0, 0);
    F.CusAtHas(HeldShares(pt), key.region);
    var j :| 0 <= j < |HeldShares(pt)| && HeldShares(pt)[j].region == key.region;
    assert HeldShares(pt)[j] in HeldShares(pt) && ServedAt(conf, pt, ceiling, key.region, pools);
  }

  lemma PositiveCost(c: nat, cus: nat)
    requires c >= 1 && cus >= 1
    ensures c * cus > 0
  {
  }

  lemma FirstOne(conf: Conf, pt: Pt, gs: seq<F.RegionShare>, target: seq<F.RegionShare>, ceiling: nat, at: Timestamp, pools: seq<PoolView>)
    requires gs != [] && Grows(conf, pt, gs[0], target, ceiling, at, pools)
    ensures FirstGrow(conf, pt, gs, 1, target, ceiling, at, pools)
  {
  }
}
