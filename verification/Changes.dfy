/**
 What a change to a reservation keeps while it is in progress
 (crates/pt-control-plane/src/service.rs): its pools serve its shape, its counters are what
 it holds, and its log can be undone.
 */
module Changes {
  import opened Prelude
  import opened Capacity
  import opened Planner
  import opened MemoryPlanner
  import opened Holdings
  import opened Moves
  import F = Failover

  // ---------------------------------------------------------------------------
  // Pools that serve what a reservation holds
  // ---------------------------------------------------------------------------

  predicate SomeServes(tb: Tables, job: Job, key: Key, pools: seq<PoolView>) {
    exists k :: 0 <= k < |pools| && Serves(tb, job, key, pools[k])
  }

  /** The pool `pt` is on in `region`, if any, serves `ceiling`. */
  predicate ServedAt(conf: Conf, pt: Pt, ceiling: nat, region: string, pools: seq<PoolView>) {
    PoolOf(conf, pt, region).Some? ==>
      SomeServes(conf.tb, Job(pt.model, pt.tier, ceiling), Key(region, PoolOf(conf, pt, region).value), pools)
  }

  /** Every pool `pt` holds `shares` on serves `ceiling`. */
  predicate AllServedAt(conf: Conf, pt: Pt, ceiling: nat, shares: seq<F.RegionShare>, pools: seq<PoolView>) {
    forall s :: s in shares ==> ServedAt(conf, pt, ceiling, s.region, pools)
  }

  predicate Healthy(conf: Conf, pt: Pt, pools: seq<PoolView>) {
    AllServedAt(conf, pt, pt.ceiling, HeldShares(pt), pools)
  }

  lemma SomeServesSame(tb: Tables, job: Job, key: Key, a: seq<PoolView>, b: seq<PoolView>)
    requires SamePools(a, b) && SomeServes(tb, job, key, a)
    ensures SomeServes(tb, job, key, b)
  {
    var k :| 0 <= k < |a| && Serves(tb, job, key, a[k]);
    SamePoolsKeys(a, b);
    assert Serves(tb, job, key, b[k]);
  }

  lemma ServedSame(conf: Conf, pt: Pt, ceiling: nat, shares: seq<F.RegionShare>, a: seq<PoolView>, b: seq<PoolView>)
    requires SamePools(a, b) && AllServedAt(conf, pt, ceiling, shares, a)
    ensures AllServedAt(conf, pt, ceiling, shares, b)
  {
    forall s | s in shares
      ensures ServedAt(conf, pt, ceiling, s.region, b)
    {
      if PoolOf(conf, pt, s.region).Some? {
        SomeServesSame(conf.tb, Job(pt.model, pt.tier, ceiling), Key(s.region, PoolOf(conf, pt, s.region).value), a, b);
      }
    }
  }

  lemma {:induction false} ServedOnPools(conf: Conf, pt: Pt, ceiling: nat, shares: seq<F.RegionShare>, pools: seq<PoolView>)
    requires AllServedAt(conf, pt, ceiling, shares, pools)
    ensures AllServed(conf.tb, Job(pt.model, pt.tier, ceiling), OnPools(conf, pt, shares), pools)
  {
    if shares != [] {
      ServedOnPools(conf, pt, ceiling, shares[1..], pools);
      var job := Job(pt.model, pt.tier, ceiling);
      forall s | s in OnPools(conf, pt, shares)
        ensures exists k :: 0 <= k < |pools| && Serves(conf.tb, job, s.Where(), pools[k])
      {
        if s !in OnPools(conf, pt, shares[1..]) {
          assert shares[0] in shares && ServedAt(conf, pt, ceiling, shares[0].region, pools);
          assert s.Where() == Key(shares[0].region, PoolOf(conf, pt, shares[0].region).value);
          assert SomeServes(conf.tb, job, s.Where(), pools);
        }
      }
    }
  }

  /** Pools the planner has are pools the configuration knows. */
  predicate Configured(conf: Conf, pools: seq<PoolView>) {
    forall k :: 0 <= k < |pools| ==> (pools[k].key.region, pools[k].model) in conf.defaults
  }

  datatype Failure = Capacity(error: PlanError) | SalesPaused | NoNextTerm | NotSaved | Inactive | Invalid

  lemma AllServedSame(tb: Tables, job: Job, shares: seq<PoolShare>, a: seq<PoolView>, b: seq<PoolView>)
    requires SamePools(a, b) && AllServed(tb, job, shares, a)
    ensures AllServed(tb, job, shares, b)
  {
    forall s | s in shares
      ensures exists k :: 0 <= k < |b| && Serves(tb, job, s.Where(), b[k])
    {
      var k :| 0 <= k < |a| && Serves(tb, job, s.Where(), a[k]);
      SamePoolsKeys(a, b);
      assert Serves(tb, job, s.Where(), b[k]);
    }
  }

  lemma ConfiguredSame(conf: Conf, a: seq<PoolView>, b: seq<PoolView>)
    requires SamePools(a, b) && Configured(conf, a)
    ensures Configured(conf, b)
  {
    SamePoolsKeys(a, b);
    forall k | 0 <= k < |b|
      ensures (b[k].key.region, b[k].model) in conf.defaults
    {
      assert a[k].key == b[k].key;
    }
  }

  lemma ServedAtSame(conf: Conf, pt: Pt, ceiling: nat, region: string, a: seq<PoolView>, b: seq<PoolView>)
    requires SamePools(a, b) && ServedAt(conf, pt, ceiling, region, a)
    ensures ServedAt(conf, pt, ceiling, region, b)
  {
    if PoolOf(conf, pt, region).Some? {
      SomeServesSame(conf.tb, Job(pt.model, pt.tier, ceiling), Key(region, PoolOf(conf, pt, region).value), a, b);
    }
  }

  /** The pool a region is on serves, so what the region holds there can be put back. */
  lemma RegionServed(conf: Conf, pt: Pt, ceiling: nat, region: string, a: seq<PoolView>, b: seq<PoolView>)
    requires SamePools(a, b) && ServedAt(conf, pt, ceiling, region, a)
    ensures AllServed(conf.tb, Job(pt.model, pt.tier, ceiling), OnPools(conf, pt, InRegion(HeldShares(pt), region)), b)
  {
    ServedAtSame(conf, pt, ceiling, region, a, b);
    InRegionIs(HeldShares(pt), region);
    ServedOnPools(conf, pt, ceiling, InRegion(HeldShares(pt), region), b);
  }

  lemma {:induction false} InRegionIs(shares: seq<F.RegionShare>, region: string)
    ensures forall s :: s in InRegion(shares, region) ==> s.region == region
  {
    if shares != [] {
      InRegionIs(shares[1..], region);
    }
  }

  /** Reserving more leaves what was held still held. */
  lemma CoversGrows(tb: Tables, tier: Tier, held: seq<PoolShare>, job: Job, placed: seq<PoolShare>, a: seq<PoolView>, b: seq<PoolView>)
    requires Covers(tb, tier, held, a) && Exchanged(tb, job.tier, [], job.tier, placed, a, b)
    ensures Covers(tb, tier, held, b)
  {
    SamePoolsKeys(a, b);
    forall k | 0 <= k < |b|
      ensures CostOf(tb, tier, held, b[k].key) <= b[k].reserved
    {
      assert a[k].key == b[k].key;
    }
  }

  /** Reserving `come`, then releasing `gone`. */
  lemma ReservedThenReleased(tb: Tables, tier: Tier, gone: seq<PoolShare>, come: seq<PoolShare>, a: seq<PoolView>, b: seq<PoolView>, c: seq<PoolView>)
    requires Exchanged(tb, tier, [], tier, come, a, b) && Exchanged(tb, tier, gone, tier, [], b, c)
    ensures Exchanged(tb, tier, gone, tier, come, a, c)
  {
    SamePoolsTransitive(a, b, c);
    SamePoolsKeys(a, b);
    forall k | 0 <= k < |a|
      ensures c[k].reserved + CostOf(tb, tier, gone, a[k].key) == a[k].reserved + CostOf(tb, tier, come, a[k].key)
    {
      assert a[k].key == b[k].key;
    }
  }

  /** A placement just recorded is served. */
  lemma PlacedServed(conf: Conf, pt: Pt, ceiling: nat, s: PoolShare, pools: seq<PoolView>)
    requires AllServed(conf.tb, Job(pt.model, pt.tier, ceiling), [s], pools)
    requires PoolOf(conf, pt, s.region) == Some(s.pool)
    ensures ServedAt(conf, pt, ceiling, s.region, pools)
  {
    assert s in [s];
  }

  /** Regions in `done` are on pools that serve; the others are where they were. */
  ghost predicate Relocations(conf: Conf, pt0: Pt, pt: Pt, done: seq<F.RegionShare>, ceiling: nat, pools: seq<PoolView>) {
    && (forall r :: !F.Has(done, r) ==> PoolOf(conf, pt, r) == PoolOf(conf, pt0, r))
    && (forall r :: F.Has(done, r) ==> ServedAt(conf, pt, ceiling, r, pools))
  }

  lemma RelocationsStart(conf: Conf, pt: Pt, ceiling: nat, pools: seq<PoolView>)
    ensures Relocations(conf, pt, pt, [], ceiling, pools)
  {
  }

  lemma RelocationsSame(conf: Conf, pt0: Pt, pt: Pt, done: seq<F.RegionShare>, ceiling: nat, a: seq<PoolView>, b: seq<PoolView>)
    requires Relocations(conf, pt0, pt, done, ceiling, a) && SamePools(a, b)
    ensures Relocations(conf, pt0, pt, done, ceiling, b)
  {
    forall r | F.Has(done, r)
      ensures ServedAt(conf, pt, ceiling, r, b)
    {
      ServedAtSame(conf, pt, ceiling, r, a, b);
    }
  }

  lemma RelocationsStep(conf: Conf, pt0: Pt, pt: Pt, done: seq<F.RegionShare>, g: F.RegionShare, ceiling: nat,
                        a: seq<PoolView>, b: seq<PoolView>, pool: string)
    requires Relocations(conf, pt0, pt, done, ceiling, a) && SamePools(a, b)
    requires ServedAt(conf, pt.(placements := pt.placements[g.region := pool]), ceiling, g.region, b)
    ensures Relocations(conf, pt0, pt.(placements := pt.placements[g.region := pool]), done + [g], ceiling, b)
  {
    var pt' := pt.(placements := pt.placements[g.region := pool]);
    forall r
      ensures F.Has(done + [g], r) <==> F.Has(done, r) || r == g.region
    {
      HasAppend(done, g, r);
    }
    forall r | F.Has(done + [g], r)
      ensures ServedAt(conf, pt', ceiling, r, b)
    {
      if r != g.region {
        ServedAtSame(conf, pt, ceiling, r, a, b);
        assert PoolOf(conf, pt', r) == PoolOf(conf, pt, r);
      }
    }
    forall r | !F.Has(done + [g], r)
      ensures PoolOf(conf, pt', r) == PoolOf(conf, pt0, r)
    {
      assert PoolOf(conf, pt', r) == PoolOf(conf, pt, r);
    }
  }

  /** A held region's growth lands on the pool the region is on. */
  lemma GrownInPlace(conf: Conf, pt: Pt, g: F.RegionShare, s: PoolShare, job: Job, pools: seq<PoolView>)
    requires Answers(ClaimFor(conf, pt, g), s) && job.model == pt.model
    requires AllServed(conf.tb, job, [s], pools) && Configured(conf, pools)
    ensures F.CusAt(HeldShares(pt), g.region) > 0 ==> PoolOf(conf, pt, g.region) == Some(s.pool)
  {
    F.CusAtHas(HeldShares(pt), g.region);
    assert s in [s];
    var k :| 0 <= k < |pools| && Serves(conf.tb, job, s.Where(), pools[k]);
    assert (pools[k].key.region, pools[k].model) in conf.defaults;
    assert PoolOf(conf, pt, g.region).Some?;
  }

  /** The old holding of a region not yet moved is still on its counters. */
  lemma OldCovered(conf: Conf, pt0: Pt, pt: Pt, done: seq<F.RegionShare>, region: string, target: seq<F.RegionShare>,
                   start: seq<PoolView>, a: seq<PoolView>)
    requires ValidPt(pt0) && Halfway(conf, pt0, pt, done, HeldShares(pt0), target, start, a) && !F.Has(done, region)
    requires Covers(conf.tb, pt0.tier, Pooled(conf, pt0), start)
    ensures Covers(conf.tb, pt.tier, OnPools(conf, pt, InRegion(HeldShares(pt), region)), a)
  {
    var before := HeldShares(pt0);
    HeldDistinct(pt0);
    SamePoolsKeys(start, a);
    forall k | 0 <= k < |a|
      ensures CostOf(conf.tb, pt.tier, OnPools(conf, pt, InRegion(before, region)), a[k].key) <= a[k].reserved
    {
      var key := start[k].key;
      assert a[k].key == key;
      InRegionAt(before, region, key.region);
      OnPoolsCost(conf, pt, InRegion(before, region), key);
      PoolCostAdds(conf.tb, pt.tier, key, 0, 0);
      if key.region == region {
        HalfwayUntouched(conf, pt0, pt, done, before, target, start, a, k);
        OnPoolsCost(conf, pt0, before, key);
        assert PoolOf(conf, pt, region) == PoolOf(conf, pt0, region);
      }
    }
  }

  /** A held region not yet moved is still on the pool that served it. */
  lemma OldServed(conf: Conf, pt0: Pt, pt: Pt, done: seq<F.RegionShare>, region: string, target: seq<F.RegionShare>,
                  start: seq<PoolView>, a: seq<PoolView>, ceiling: nat)
    requires Halfway(conf, pt0, pt, done, HeldShares(pt0), target, start, a) && !F.Has(done, region)
    requires F.Has(HeldShares(pt0), region)
    ensures AllServedAt(conf, pt0, ceiling, HeldShares(pt0), start) ==> ServedAt(conf, pt, ceiling, region, a)
  {
    if AllServedAt(conf, pt0, ceiling, HeldShares(pt0), start) {
      var i :| 0 <= i < |HeldShares(pt0)| && HeldShares(pt0)[i].region == region;
      assert HeldShares(pt0)[i] in HeldShares(pt0);
      assert PoolOf(conf, pt, region) == PoolOf(conf, pt0, region);
      ServedAtSame(conf, pt0, ceiling, region, start, a);
    }
  }

  /** A log grown from `trail` to `trail'` while `pt` gave up some of what it held at `start`:
      a shape that can undo the one and is served where `pt` was can undo the other. */
  ghost predicate Carried(conf: Conf, pt: Pt, start: seq<PoolView>, trail: Trail, trail': Trail) {
    forall c: nat :: LogServed(conf.tb, pt.model, c, trail) && AllServedAt(conf, pt, c, HeldShares(pt), start)
                     ==> LogServed(conf.tb, pt.model, c, trail')
  }

  /** The same for what `pt` held in one region. */
  ghost predicate CarriedIn(conf: Conf, pt: Pt, region: string, start: seq<PoolView>, trail: Trail, trail': Trail) {
    forall c: nat :: LogServed(conf.tb, pt.model, c, trail) && ServedAt(conf, pt, c, region, start)
                     ==> LogServed(conf.tb, pt.model, c, trail')
  }

  lemma CarriedInItself(conf: Conf, pt: Pt, region: string, start: seq<PoolView>, trail: Trail)
    ensures CarriedIn(conf, pt, region, start, trail, trail)
  {
  }

  /** Reserving first, then giving up what `pt` held in a region, if anything. */
  lemma RelocatedCarried(conf: Conf, pt: Pt, region: string, trail: Trail, placed: seq<PoolShare>, b: seq<PoolView>)
    requires SamePools(trail.pools, b)
    ensures var gone := OnPools(conf, pt, InRegion(HeldShares(pt), region));
      var t := Then(trail, Reserved(pt.tier, placed), b);
      && CarriedIn(conf, pt, region, trail.pools, trail, t)
      && forall later :: CarriedIn(conf, pt, region, trail.pools, trail, Then(t, Released(pt.tier, gone), later))
  {
    hide AllServed, ServedAt, OnPools, InRegion, HeldShares;
    var gone := OnPools(conf, pt, InRegion(HeldShares(pt), region));
    var t := Then(trail, Reserved(pt.tier, placed), b);
    forall c: nat | ServedAt(conf, pt, c, region, trail.pools)
      ensures AllServed(conf.tb, Job(pt.model, pt.tier, c), gone, b)
    {
      RegionServed(conf, pt, c, region, trail.pools, b);
    }
  }

  lemma CarriedItself(conf: Conf, pt: Pt, start: seq<PoolView>, trail: Trail)
    ensures Carried(conf, pt, start, trail, trail)
  {
  }

  lemma CarriedTransitive(conf: Conf, pt: Pt, start: seq<PoolView>, a: Trail, b: Trail, c: Trail)
    requires Carried(conf, pt, start, a, b) && Carried(conf, pt, start, b, c)
    ensures Carried(conf, pt, start, a, c)
  {
  }

  lemma RegionCarried(conf: Conf, pt0: Pt, pt: Pt, done: seq<F.RegionShare>, region: string, target: seq<F.RegionShare>,
                      start: seq<PoolView>, a: seq<PoolView>, trail: Trail, trail': Trail)
    requires ValidPt(pt0) && Halfway(conf, pt0, pt, done, HeldShares(pt0), target, start, a) && !F.Has(done, region)
    requires F.Has(HeldShares(pt0), region)
    requires CarriedIn(conf, pt, region, a, trail, trail')
    ensures Carried(conf, pt0, start, trail, trail')
  {
    hide LogServed;
    forall c: nat | LogServed(conf.tb, pt0.model, c, trail) && AllServedAt(conf, pt0, c, HeldShares(pt0), start)
      ensures LogServed(conf.tb, pt0.model, c, trail')
    {
      OldServed(conf, pt0, pt, done, region, target, start, a, c);
    }
  }

  lemma ShrinkCarried(conf: Conf, pt0: Pt, pt: Pt, target: seq<F.RegionShare>, start: seq<PoolView>, now: seq<PoolView>,
                      trail: Trail, later: seq<PoolView>)
    requires ValidPt(pt0) && F.DistinctRegions(target) && trail.pools == now
    requires Halfway(conf, pt0, pt, F.Growth(HeldShares(pt0), target), HeldShares(pt0), target, start, now)
    ensures Carried(conf, pt0, start, trail, Then(trail, Released(pt0.tier, OnPools(conf, pt, F.Growth(target, HeldShares(pt0)))), later))
  {
    hide AllServedAt, AllServed, F.Growth;
    var gone := OnPools(conf, pt, F.Growth(target, HeldShares(pt0)));
    var trail' := Then(trail, Released(pt0.tier, gone), later);
    forall c: nat | LogServed(conf.tb, pt0.model, c, trail) && AllServedAt(conf, pt0, c, HeldShares(pt0), start)
      ensures LogServed(conf.tb, pt0.model, c, trail')
    {
      ShrinkServed(conf, pt0, pt, target, c, start, now);
    }
  }

  /** Giving up everything. */
  lemma DropCarried(conf: Conf, pt: Pt, trail: Trail, later: seq<PoolView>)
    ensures Carried(conf, pt, trail.pools, trail, Then(trail, Released(pt.tier, Pooled(conf, pt)), later))
  {
    hide AllServedAt, AllServed;
    var trail' := Then(trail, Released(pt.tier, Pooled(conf, pt)), later);
    forall c: nat | LogServed(conf.tb, pt.model, c, trail) && AllServedAt(conf, pt, c, HeldShares(pt), trail.pools)
      ensures LogServed(conf.tb, pt.model, c, trail')
    {
      ServedOnPools(conf, pt, c, HeldShares(pt), trail.pools);
    }
  }

  lemma TakeCarried(conf: Conf, pt: Pt, start: seq<PoolView>, trail: Trail, tier: Tier, shares: seq<PoolShare>, later: seq<PoolView>)
    ensures Carried(conf, pt, start, trail, Then(trail, Reserved(tier, shares), later))
  {
  }

  /** What shrinks is on pools that served. */
  lemma ShrinkServed(conf: Conf, pt0: Pt, pt: Pt, target: seq<F.RegionShare>, ceiling: nat, start: seq<PoolView>, now: seq<PoolView>)
    requires ValidPt(pt0) && F.DistinctRegions(target)
    requires Halfway(conf, pt0, pt, F.Growth(HeldShares(pt0), target), HeldShares(pt0), target, start, now)
    ensures AllServedAt(conf, pt0, ceiling, HeldShares(pt0), start)
      ==> AllServed(conf.tb, Job(pt0.model, pt0.tier, ceiling), OnPools(conf, pt, F.Growth(target, HeldShares(pt0))), now)
  {
    if AllServedAt(conf, pt0, ceiling, HeldShares(pt0), start) {
      var before := HeldShares(pt0);
      var gone := F.Growth(target, before);
      HeldDistinct(pt0);
      forall s | s in gone
        ensures ServedAt(conf, pt, ceiling, s.region, now)
      {
        var i :| 0 <= i < |gone| && gone[i] == s;
        GrowthMember(target, before, i);
        F.GrowthAt(before, target, s.region);
        F.CusAtHas(before, s.region);
        OldServed(conf, pt0, pt, F.Growth(before, target), s.region, target, start, now, ceiling);
      }
      ServedOnPools(conf, pt, ceiling, gone, now);
    }
  }

  /** Each region that grows appears once, with the amount it grows by. */
  lemma GrowthMember(old_: seq<F.RegionShare>, new_: seq<F.RegionShare>, i: nat)
    requires F.DistinctRegions(new_) && i < |F.Growth(old_, new_)|
    ensures var gs := F.Growth(old_, new_);
      && !F.Has(gs[..i], gs[i].region) && gs[i].cus > 0
      && gs[i].cus == F.CusAt(new_, gs[i].region) - F.CusAt(old_, gs[i].region)
  {
    var gs := F.Growth(old_, new_);
    F.GrowthAt(old_, new_, gs[i].region);
    CusAtIndex(gs, i);
    assert gs[i] in gs;
  }

  lemma {:induction false} CusAtIndex(shares: seq<F.RegionShare>, i: nat)
    requires F.DistinctRegions(shares) && i < |shares|
    ensures F.CusAt(shares, shares[i].region) == shares[i].cus
  {
    if i > 0 {
      CusAtIndex(shares[1..], i - 1);
    }
  }

  /** The region's growth went on its own pool, or the region is new. */
  lemma GrewInPlace(conf: Conf, pt0: Pt, pt: Pt, done: seq<F.RegionShare>, g: F.RegionShare, target: seq<F.RegionShare>, ceiling: nat,
                    start: seq<PoolView>, a: seq<PoolView>, b: seq<PoolView>, s: PoolShare)
    requires Halfway(conf, pt0, pt, done, HeldShares(pt0), target, start, a) && !F.Has(done, g.region)
    requires Relocations(conf, pt0, pt, done, ceiling, a) && Configured(conf, b)
    requires g.cus == F.CusAt(target, g.region) - F.CusAt(HeldShares(pt0), g.region)
    requires Answers(ClaimFor(conf, pt, g), s) && AllServed(conf.tb, Job(pt.model, pt.tier, ceiling), [s], b)
    requires Exchanged(conf.tb, pt.tier, [], pt.tier, [s], a, b)
    ensures Halfway(conf, pt0, Record(pt, [s]), done + [g], HeldShares(pt0), target, start, b)
    ensures Relocations(conf, pt0, Record(pt, [s]), done + [g], ceiling, b)
  {
    var pt' := pt.(placements := pt.placements[g.region := s.pool]);
    assert Record(pt, [s]) == pt' && s == PoolShare(g.region, s.pool, g.cus);
    GrownInPlace(conf, pt, g, s, Job(pt.model, pt.tier, ceiling), b);
    GrowStep(conf, pt0, pt, done, g, HeldShares(pt0), target, start, a, b, s.pool);
    PlacedServed(conf, pt', ceiling, s, b);
    RelocationsStep(conf, pt0, pt, done, g, ceiling, a, b, s.pool);
  }

  /** The region moved whole. */
  lemma GrewByMoving(conf: Conf, pt0: Pt, pt: Pt, done: seq<F.RegionShare>, g: F.RegionShare, target: seq<F.RegionShare>, ceiling: nat,
                     start: seq<PoolView>, a: seq<PoolView>, b: seq<PoolView>, pool: string)
    requires ValidPt(pt0) && Halfway(conf, pt0, pt, done, HeldShares(pt0), target, start, a) && !F.Has(done, g.region)
    requires Relocations(conf, pt0, pt, done, ceiling, a)
    requires Exchanged(conf.tb, pt0.tier, OnPools(conf, pt, InRegion(HeldShares(pt0), g.region)),
                       pt0.tier, [PoolShare(g.region, pool, F.CusAt(target, g.region))], a, b)
    requires ServedAt(conf, pt.(placements := pt.placements[g.region := pool]), ceiling, g.region, b)
    ensures Halfway(conf, pt0, pt.(placements := pt.placements[g.region := pool]), done + [g], HeldShares(pt0), target, start, b)
    ensures Relocations(conf, pt0, pt.(placements := pt.placements[g.region := pool]), done + [g], ceiling, b)
  {
    HeldDistinct(pt0);
    RelocateStep(conf, pt0, pt, done, g, HeldShares(pt0), target, start, a, b, pool);
    RelocationsStep(conf, pt0, pt, done, g, ceiling, a, b, pool);
  }

  // ---------------------------------------------------------------------------
  // A change in progress
  // ---------------------------------------------------------------------------

  /** The log grew while `pt`, which is what `pt0` has become, gave up some of what it held. */
  lemma StillServed(conf: Conf, pt0: Pt, pt: Pt, ops: seq<PlanOp>, trail: Trail, pools: seq<PoolView>, trail': Trail)
    requires OnTrack(conf, pt0, pt, ops, trail, pools) && AllServedAt(conf, pt, pt0.ceiling, HeldShares(pt), pools)
    requires Carried(conf, pt, pools, trail, trail') && trail'.First() == trail.First()
    ensures LogServed(conf.tb, pt0.model, pt0.ceiling, trail')
  {
    hide LogServed, AllServedAt, Exchanged, Walked, Steady, Covers;
  }

  /** The counters moved from what `pt0` held to what `pt` holds, through a log whose
      releases are on pools that serve `pt0`'s shape. */
  ghost predicate OnTrack(conf: Conf, pt0: Pt, pt: Pt, ops: seq<PlanOp>, trail: Trail, pools: seq<PoolView>) {
    && Logged(conf.tb, trail, ops, pools) && LogServed(conf.tb, pt0.model, pt0.ceiling, trail)
    && Covers(conf.tb, pt0.tier, Pooled(conf, pt0), trail.First())
    && Exchanged(conf.tb, pt0.tier, Pooled(conf, pt0), pt.tier, Pooled(conf, pt), trail.First(), pools)
    && ValidPt(pt) && pt.model == pt0.model
  }

  lemma ExchangedCovers(tb: Tables, t1: Tier, s1: seq<PoolShare>, t2: Tier, s2: seq<PoolShare>, a: seq<PoolView>, b: seq<PoolView>)
    requires Exchanged(tb, t1, s1, t2, s2, a, b) && Covers(tb, t1, s1, a)
    ensures Covers(tb, t2, s2, b)
  {
    SamePoolsKeys(a, b);
    forall k | 0 <= k < |b|
      ensures CostOf(tb, t2, s2, b[k].key) <= b[k].reserved
    {
      assert a[k].key == b[k].key;
    }
  }

  /** Releasing `gone`, then reserving `come`. */
  lemma ReleasedThenReserved(tb: Tables, t1: Tier, gone: seq<PoolShare>, t2: Tier, come: seq<PoolShare>, a: seq<PoolView>, b: seq<PoolView>, c: seq<PoolView>)
    requires Exchanged(tb, t1, gone, t1, [], a, b) && Exchanged(tb, t2, [], t2, come, b, c)
    ensures Exchanged(tb, t1, gone, t2, come, a, c)
  {
    SamePoolsTransitive(a, b, c);
    SamePoolsKeys(a, b);
    forall k | 0 <= k < |a|
      ensures c[k].reserved + CostOf(tb, t1, gone, a[k].key) == a[k].reserved + CostOf(tb, t2, come, a[k].key)
    {
      assert a[k].key == b[k].key;
    }
  }

  /** A pool that serves a shape serves every smaller one. */
  lemma ServesSmaller(conf: Conf, pt: Pt, ceiling: nat, smaller: nat, region: string, pools: seq<PoolView>)
    requires smaller <= ceiling && ServedAt(conf, pt, ceiling, region, pools)
    ensures ServedAt(conf, pt, smaller, region, pools)
  {
    if PoolOf(conf, pt, region).Some? {
      var key := Key(region, PoolOf(conf, pt, region).value);
      var k :| 0 <= k < |pools| && Serves(conf.tb, Job(pt.model, pt.tier, ceiling), key, pools[k]);
      assert Serves(conf.tb, Job(pt.model, pt.tier, smaller), key, pools[k]);
    }
  }

  /** After a move, every region is on a pool that serves what both shapes need. */
  lemma MovedServed(conf: Conf, pt: Pt, pt': Pt, target: seq<F.RegionShare>, was: nat, ceiling: nat, a: seq<PoolView>, b: seq<PoolView>)
    requires ValidPt(pt) && F.Whole(target) && SamePools(a, b) && pt' == pt.(placements := pt'.placements)
    requires AllServedAt(conf, pt, was, HeldShares(pt), a)
    requires Relocations(conf, pt, pt', F.Growth(HeldShares(pt), target), ceiling, b)
    ensures AllServedAt(conf, pt', Min(was, ceiling), target, b)
  {
    var before := HeldShares(pt);
    var grown := F.Growth(before, target);
    forall s | s in target
      ensures ServedAt(conf, pt', Min(was, ceiling), s.region, b)
    {
      if F.Has(grown, s.region) {
        ServesSmaller(conf, pt', ceiling, Min(was, ceiling), s.region, b);
      } else {
        StayedHeld(before, target, s);
        var i :| 0 <= i < |before| && before[i].region == s.region;
        assert before[i] in before;
        ServedAtSame(conf, pt, was, s.region, a, b);
        assert PoolOf(conf, pt', s.region) == PoolOf(conf, pt, s.region);
        ServesSmaller(conf, pt', was, Min(was, ceiling), s.region, b);
      }
    }
  }

  /** A share that does not grow was held before. */
  lemma StayedHeld(before: seq<F.RegionShare>, target: seq<F.RegionShare>, s: F.RegionShare)
    requires F.Whole(target) && s in target && !F.Has(F.Growth(before, target), s.region)
    ensures F.Has(before, s.region)
  {
    var i :| 0 <= i < |target| && target[i] == s;
    CusAtIndex(target, i);
    F.GrowthAt(before, target, s.region);
    F.CusAtHas(before, s.region);
  }

  lemma ServedSplit(conf: Conf, a: Pt, b: Pt, ceiling: nat, shares: seq<F.RegionShare>, pools: seq<PoolView>)
    requires b == a.(regions := b.regions, moved := b.moved, headroom := b.headroom)
    requires AllServedAt(conf, a, ceiling, shares, pools)
    ensures AllServedAt(conf, b, ceiling, shares, pools)
  {
    forall s | s in shares
      ensures ServedAt(conf, b, ceiling, s.region, pools)
    {
      assert ServedAt(conf, a, ceiling, s.region, pools);
    }
  }

  lemma {:induction false} OnPoolsHas(conf: Conf, pt: Pt, shares: seq<F.RegionShare>, s: F.RegionShare)
    requires s in shares && PoolOf(conf, pt, s.region).Some?
    ensures PoolShare(s.region, PoolOf(conf, pt, s.region).value, s.cus) in OnPools(conf, pt, shares)
  {
    if s != shares[0] {
      OnPoolsHas(conf, pt, shares[1..], s);
    }
  }

  /** Placed and recorded, every region is on a pool that serves. */
  lemma OnPoolsServed(conf: Conf, pt: Pt, ceiling: nat, shares: seq<F.RegionShare>, pools: seq<PoolView>)
    requires AllServed(conf.tb, Job(pt.model, pt.tier, ceiling), OnPools(conf, pt, shares), pools)
    ensures AllServedAt(conf, pt, ceiling, shares, pools)
  {
    forall s | s in shares
      ensures ServedAt(conf, pt, ceiling, s.region, pools)
    {
      if PoolOf(conf, pt, s.region).Some? {
        OnPoolsHas(conf, pt, shares, s);
        assert PoolShare(s.region, PoolOf(conf, pt, s.region).value, s.cus).Where() == Key(s.region, PoolOf(conf, pt, s.region).value);
      }
    }
  }

  /** The same pools at another tier: they serve the old shape still, and the tier now. */
  lemma RetierServed(conf: Conf, pt: Pt, tier: Tier, was: nat, ceiling: nat, a: seq<PoolView>, b: seq<PoolView>)
    requires SamePools(a, b) && DistinctKeys(b)
    requires AllServedAt(conf, pt, was, HeldShares(pt), a)
    requires AllServed(conf.tb, Job(pt.model, tier, ceiling), Pooled(conf, pt), b)
    ensures AllServedAt(conf, pt.(tier := tier), Max(was, ceiling), HeldShares(pt), b)
  {
    var pt' := pt.(tier := tier);
    ServedSame(conf, pt, was, HeldShares(pt), a, b);
    OnPoolsSame(conf, pt, pt', HeldShares(pt));
    OnPoolsServed(conf, pt', ceiling, HeldShares(pt), b);
    forall s | s in HeldShares(pt)
      ensures ServedAt(conf, pt', Max(was, ceiling), s.region, b)
    {
      assert ServedAt(conf, pt, was, s.region, b) && ServedAt(conf, pt', ceiling, s.region, b);
      if PoolOf(conf, pt, s.region).Some? {
        BothServe(conf.tb, Job(pt.model, pt.tier, was), Job(pt.model, tier, ceiling), Key(s.region, PoolOf(conf, pt, s.region).value), b);
      }
    }
  }

  lemma BothServe(tb: Tables, a: Job, b: Job, key: Key, pools: seq<PoolView>)
    requires DistinctKeys(pools) && a.model == b.model && SomeServes(tb, a, key, pools) && SomeServes(tb, b, key, pools)
    ensures SomeServes(tb, Job(b.model, b.tier, Max(a.ceiling, b.ceiling)), key, pools)
  {
    var i :| 0 <= i < |pools| && Serves(tb, a, key, pools[i]);
    var j :| 0 <= j < |pools| && Serves(tb, b, key, pools[j]);
    assert i == j;
    assert Serves(tb, Job(b.model, b.tier, Max(a.ceiling, b.ceiling)), key, pools[i]);
  }

  lemma AllServedSmaller(conf: Conf, pt: Pt, ceiling: nat, smaller: nat, shares: seq<F.RegionShare>, pools: seq<PoolView>)
    requires smaller <= ceiling && AllServedAt(conf, pt, ceiling, shares, pools)
    ensures AllServedAt(conf, pt, smaller, shares, pools)
  {
    forall s | s in shares
      ensures ServedAt(conf, pt, smaller, s.region, pools)
    {
      ServesSmaller(conf, pt, ceiling, smaller, s.region, pools);
    }
  }

  /** Claims that name their pools come back as the shares they were. */
  lemma NamedComeBack(shares: seq<PoolShare>, placed: seq<PoolShare>)
    requires |placed| == |shares| && forall i :: 0 <= i < |shares| ==> Answers(AsClaims(shares)[i], placed[i])
    ensures placed == shares
  {
    forall i | 0 <= i < |shares|
      ensures placed[i] == shares[i]
    {
      assert Answers(AsClaims(shares)[i], placed[i]);
    }
  }

  lemma RecordKeeps(pt: Pt, placed: seq<PoolShare>)
    ensures Record(pt, placed) == pt.(placements := Record(pt, placed).placements)
    decreases |placed|
  {
    if placed != [] {
      RecordKeeps(pt.(placements := pt.placements[placed[0].region := placed[0].pool]), placed[1..]);
    }
  }

  /** The split of `next` fits before the term starts, once `pt` has given up all it holds. */
  predicate FitsAfresh(conf: Conf, pt: Pt, next: Pt, ceiling: nat, pools: seq<PoolView>) {
    ReserveAll(conf.tb, Job(pt.model, pt.tier, ceiling), pt.termStart, ClaimsFor(conf, pt, HeldShares(next)),
               ReleaseAll(conf.tb, pt.tier, Pooled(conf, pt), pools)).Ok?
  }

  lemma PlacedSomewhere(conf: Conf, pt: Pt, shares: seq<F.RegionShare>, claims: seq<Claim>, placed: seq<PoolShare>)
    requires F.DistinctRegions(shares) && |claims| == |shares| == |placed|
    requires forall i :: 0 <= i < |shares| ==> claims[i].region == shares[i].region
    requires forall i :: 0 <= i < |shares| ==> Answers(claims[i], placed[i])
    ensures forall s :: s in shares ==> PoolOf(conf, Record(pt, placed), s.region).Some?
  {
    forall s | s in shares
      ensures PoolOf(conf, Record(pt, placed), s.region).Some?
    {
      var i :| 0 <= i < |shares| && shares[i] == s;
      assert placed[i].region == s.region;
      RecordPlaces(pt, placed, s.region);
    }
  }

  /** Everything `next` holds was placed and recorded. */
  lemma Replanned(conf: Conf, pt: Pt, next: Pt, placed: seq<PoolShare>, ceiling: nat, pools: seq<PoolView>)
    requires ValidPt(next) && |placed| == |HeldShares(next)|
    requires forall i :: 0 <= i < |placed| ==> Answers(ClaimsFor(conf, pt, HeldShares(next))[i], placed[i])
    requires AllServed(conf.tb, Job(next.model, next.tier, ceiling), placed, pools)
    ensures var pt' := Record(next, placed);
      && pt' == next.(placements := pt'.placements) && Pooled(conf, pt') == placed
      && AllServedAt(conf, pt', ceiling, HeldShares(pt'), pools)
      && forall s :: s in HeldShares(pt') ==> PoolOf(conf, pt', s.region).Some?
  {
    HeldDistinct(next);
    RecordKeeps(next, placed);
    PlacedSomewhere(conf, next, HeldShares(next), ClaimsFor(conf, pt, HeldShares(next)), placed);
    RecordedOnPools(conf, next, HeldShares(next), ClaimsFor(conf, pt, HeldShares(next)), placed);
    OnPoolsServed(conf, Record(next, placed), ceiling, HeldShares(next), pools);
  }

  // ---------------------------------------------------------------------------
  // Changing the shape
  // ---------------------------------------------------------------------------

  /** `place` with no start date: some candidate pool serves the shape. */
  predicate ShapeOk(tb: Tables, model: string, ceiling: nat, claim: Claim, pools: seq<PoolView>) {
    Place(tb, Job(model, Standard, ceiling), claim, None, pools).Ok?
  }

  lemma ShapeOkServes(tb: Tables, model: string, ceiling: nat, claim: Claim, pools: seq<PoolView>)
    requires ShapeOk(tb, model, ceiling, claim, pools)
    ensures exists p :: p in pools && Candidate(claim, model, p) && ceiling <= p.maxContext
  {
    var candidates := Candidates(claim, model, pools);
    var serving := Serving(ceiling, candidates);
    ServingContents(ceiling, candidates);
    CandidatesContents(claim, model, pools);
    assert serving[0] in serving;
  }

  lemma {:induction false} ServingContents(ceiling: nat, pools: seq<PoolView>)
    ensures forall p :: p in Serving(ceiling, pools) ==> p in pools && ceiling <= p.maxContext
  {
    if pools != [] {
      ServingContents(ceiling, pools[1..]);
    }
  }

  lemma {:induction false} CandidatesContents(claim: Claim, model: string, pools: seq<PoolView>)
    ensures forall p :: p in Candidates(claim, model, pools) ==> p in pools && Candidate(claim, model, p)
  {
    if pools != [] {
      CandidatesContents(claim, model, pools[1..]);
    }
  }

  /** A shape checked against what `pt` holds is served by it. */
  lemma ShapeChecked(conf: Conf, pt: Pt, was: nat, ceiling: nat, pools: seq<PoolView>)
    requires DistinctKeys(pools) && AllServedAt(conf, pt, was, HeldShares(pt), pools)
    requires forall c :: c in ClaimsFor(conf, pt, HeldShares(pt)) ==> ShapeOk(conf.tb, pt.model, ceiling, c, pools)
    ensures AllServedAt(conf, pt, ceiling, HeldShares(pt), pools)
  {
    var held := HeldShares(pt);
    forall s | s in held
      ensures ServedAt(conf, pt, ceiling, s.region, pools)
    {
      var i :| 0 <= i < |held| && held[i] == s;
      assert ClaimsFor(conf, pt, held)[i] in ClaimsFor(conf, pt, held);
      ShapeOkServes(conf.tb, pt.model, ceiling, ClaimFor(conf, pt, s), pools);
      var p :| p in pools && Candidate(ClaimFor(conf, pt, s), pt.model, p) && ceiling <= p.maxContext;
      assert ServedAt(conf, pt, was, s.region, pools);
      if PoolOf(conf, pt, s.region).Some? {
        var key := Key(s.region, PoolOf(conf, pt, s.region).value);
        var k :| 0 <= k < |pools| && Serves(conf.tb, Job(pt.model, pt.tier, was), key, pools[k]);
        assert p.key == key && pools[k] == p;
        assert Serves(conf.tb, Job(pt.model, pt.tier, ceiling), key, pools[k]);
      }
    }
  }

  // ---------------------------------------------------------------------------
  // Requests
  // ---------------------------------------------------------------------------

  datatype UpdateRequest = UpdateRequest(
    autoRenew: Option<bool>, rebalance: Option<bool>, tier: Option<Tier>, regions: Option<seq<F.RegionShare>>, ceiling: Option<nat>)

  /** Every region of `current`, none smaller, and no other. */
  predicate IncreasesOnly(current: seq<F.RegionShare>, new_: seq<F.RegionShare>) {
    |current| == |new_| && forall n :: n in new_ ==> F.Has(current, n.region) && F.CusAt(current, n.region) <= n.cus
  }

  function WithAutoRenew(pt: Pt, autoRenew: Option<bool>): Pt {
    if autoRenew == Some(true) && pt.state == PendingCancellation then pt.(state := Active, autoRenew := true)
    else if autoRenew.Some? then pt.(autoRenew := autoRenew.value)
    else pt
  }

  /** The contract split of `regions`, with the headroom it needs. */
  function WithRegions(conf: Conf, pt: Pt, regions: seq<F.RegionShare>): Pt {
    pt.(regions := regions, moved := [], headroom := F.Headroom(conf.pairs, pt.sku, regions))
  }

  /** Switching rebalancing off goes back to the contract split. */
  function WithRebalance(conf: Conf, pt: Pt, rebalance: Option<bool>): Pt {
    if rebalance.None? || rebalance.value == pt.rebalance then pt
    else if !rebalance.value && pt.moved != [] then WithRegions(conf, pt.(rebalance := false), pt.regions)
    else pt.(rebalance := rebalance.value)
  }

  /** A new tier takes effect at once before the term starts. */
  function WithTier(pt: Pt, tier: Option<Tier>): Pt {
    if tier.Some? && pt.state == Scheduled then pt.(tier := tier.value) else pt
  }

  function LaterTier(pt: Pt, tier: Option<Tier>): Option<Option<Tier>> {
    if tier.None? || pt.state == Scheduled then None else if tier.value != pt.tier then Some(tier) else Some(None)
  }

  /** A new split takes effect at once before the term starts, and after if it only grows. */
  function WithNewRegions(conf: Conf, pt: Pt, regions: Option<seq<F.RegionShare>>): Pt {
    if regions.None? || regions.value == pt.regions then pt
    else if pt.state == Scheduled || (IncreasesOnly(pt.regions, regions.value) && F.Growth(pt.regions, regions.value) != [])
    then WithRegions(conf, pt, regions.value)
    else pt
  }

  function LaterRegions(pt: Pt, regions: Option<seq<F.RegionShare>>): Option<Option<seq<F.RegionShare>>> {
    if regions.None? || pt.state == Scheduled then None
    else if !IncreasesOnly(pt.regions, regions.value) then Some(regions)
    else if pt.pending.Some? && pt.pending.value.regions.Some? then Some(None)
    else None
  }

  /** What an update that goes through makes of a reservation, placements aside. */
  function Updated(conf: Conf, pt0: Pt, req: UpdateRequest): Pt {
    var held := Begun(conf, pt0, req);
    var split := WithNewRegions(conf, held, req.regions);
    WithPending(split.(ceiling := if req.ceiling.Some? then req.ceiling.value else split.ceiling),
                LaterTier(held, req.tier), LaterRegions(held, req.regions))
  }

  function NewCeiling(pt: Pt, req: UpdateRequest): nat {
    if req.ceiling.Some? then req.ceiling.value else pt.ceiling
  }

  /** Every pool `pt` is on serves the shape the request asks for. */
  predicate ServesNew(conf: Conf, pt: Pt, req: UpdateRequest, pools: seq<PoolView>) {
    AllServedAt(conf, pt, NewCeiling(pt, req), HeldShares(pt), pools)
  }

  /** A new split and a shape, before the term starts. */
  predicate Replans(pt: Pt, req: UpdateRequest) {
    && pt.state == Scheduled && req.rebalance.None? && req.tier.None?
    && req.regions.Some? && req.regions.value != pt.regions && req.ceiling.Some?
  }

  /** Nothing else of such a request changes what is held. */
  lemma ReplansAsIs(conf: Conf, pt0: Pt, req: UpdateRequest, pt: Pt, ceiling: nat, pools: seq<PoolView>)
    requires Replans(pt0, req) && pt == WithTier(WithAutoRenew(pt0, req.autoRenew), req.tier)
    ensures pt.state == Scheduled && req.regions.value != pt.regions
    ensures FitsAfresh(conf, pt, WithRegions(conf, pt, req.regions.value), ceiling, pools)
            <==> FitsAfresh(conf, pt0, WithRegions(conf, pt0, req.regions.value), ceiling, pools)
  {
    hide ReserveAll, ReleaseAll;
    OnPoolsSame(conf, pt, pt0, HeldShares(pt));
    var held := HeldShares(WithRegions(conf, pt, req.regions.value));
    assert ClaimsFor(conf, pt, held) == ClaimsFor(conf, pt0, held);
  }

  /** Such a request keeps nothing for the next term. */
  lemma ReplansAtOnce(conf: Conf, pt0: Pt, req: UpdateRequest)
    ensures Replans(pt0, req) ==>
      && LaterTier(Begun(conf, pt0, req), req.tier) == None && LaterRegions(Begun(conf, pt0, req), req.regions) == None
      && Updated(conf, pt0, req).regions == req.regions.value
  {
  }

  lemma CarriedSame(conf: Conf, a: Pt, b: Pt, start: seq<PoolView>, trail: Trail, trail': Trail)
    requires SameHolding(a, b) && Carried(conf, b, start, trail, trail')
    ensures Carried(conf, a, start, trail, trail')
  {
    hide LogServed;
    OnPoolsSame(conf, a, b, HeldShares(a));
    forall c: nat | LogServed(conf.tb, a.model, c, trail) && AllServedAt(conf, a, c, HeldShares(a), start)
      ensures LogServed(conf.tb, a.model, c, trail')
    {
      ServedSameHolding(conf, a, b, c, start);
    }
  }

  lemma ServedSameHolding(conf: Conf, a: Pt, b: Pt, ceiling: nat, pools: seq<PoolView>)
    requires SameHolding(a, b) && AllServedAt(conf, a, ceiling, HeldShares(a), pools)
    ensures AllServedAt(conf, b, ceiling, HeldShares(b), pools)
  {
    forall s | s in HeldShares(b)
      ensures ServedAt(conf, b, ceiling, s.region, pools)
    {
      assert ServedAt(conf, a, ceiling, s.region, pools);
    }
  }

  /** What an update has made of a reservation keeps the headroom it needs; and where it has
      left the moved split, it holds the contract split. */
  lemma BegunBacked(conf: Conf, pt0: Pt, req: UpdateRequest, ptA: Pt, pt1: Pt, pt2: Pt)
    requires Backed(conf, pt0) && ptA == WithAutoRenew(pt0, req.autoRenew) && ValidPt(ptA)
    requires SameButPlaced(pt1, WithRebalance(conf, ptA, req.rebalance)) && pt2 == WithTier(pt1, req.tier)
    ensures Backed(conf, pt2)
    ensures !(ptA.moved == [] || !ptA.rebalance || req.rebalance != Some(false)) ==> pt2 == pt1 && pt2.moved == [] && pt2.state != Scheduled
  {
    hide F.Headroom;
  }

  lemma CarriedServed(conf: Conf, pt: Pt, ceiling: nat, start: seq<PoolView>, trail: Trail, trail': Trail)
    requires Carried(conf, pt, start, trail, trail') && AllServedAt(conf, pt, ceiling, HeldShares(pt), start)
    requires LogServed(conf.tb, pt.model, ceiling, trail)
    ensures LogServed(conf.tb, pt.model, ceiling, trail')
  {
    hide LogServed, AllServedAt;
  }

  /** If the pools before the first two parts of an update all serve a shape, and those after
      them if the split was moved back, so did every pool they released from. */
  lemma BegunServed(conf: Conf, pt0: Pt, base: Pt, pt1: Pt, pt2: Pt, ceiling: nat,
                    start: seq<PoolView>, p1: seq<PoolView>, p2: seq<PoolView>, t1: Trail, t2: Trail)
    requires SameHolding(pt0, base) && pt1.model == pt0.model && pt2.model == pt0.model
    requires Carried(conf, base, start, Start(start), t1) && Carried(conf, pt1, p1, t1, t2)
    requires AllServedAt(conf, pt0, ceiling, HeldShares(pt0), start)
    requires AllServedAt(conf, pt1, ceiling, HeldShares(pt1), p1) ==> AllServedAt(conf, pt2, ceiling, HeldShares(pt2), p2)
    requires (SameHolding(base, pt1) && p1 == start) || (pt2 == pt1 && p2 == p1)
    ensures SameHolding(base, pt1) && p1 == start ==> AllServedAt(conf, pt2, ceiling, HeldShares(pt2), p2)
    ensures AllServedAt(conf, pt2, ceiling, HeldShares(pt2), p2) ==> LogServed(conf.tb, pt0.model, ceiling, t2)
  {
    hide AllServedAt, HeldShares;
    ServedSameHolding(conf, pt0, base, ceiling, start);
    assert LogServed(conf.tb, pt0.model, ceiling, t1);
    if SameHolding(base, pt1) && p1 == start {
      ServedSameHolding(conf, base, pt1, ceiling, start);
    }
  }

  /** Pools that serve a shape pass its check. */
  lemma ServedShapeOk(conf: Conf, pt: Pt, ceiling: nat, pools: seq<PoolView>)
    ensures AllServedAt(conf, pt, ceiling, HeldShares(pt), pools) && (forall s :: s in HeldShares(pt) ==> PoolOf(conf, pt, s.region).Some?)
      ==> forall c :: c in ClaimsFor(conf, pt, HeldShares(pt)) ==> ShapeOk(conf.tb, pt.model, ceiling, c, pools)
  {
    var held := HeldShares(pt);
    if AllServedAt(conf, pt, ceiling, held, pools) && forall s :: s in held ==> PoolOf(conf, pt, s.region).Some? {
      forall c | c in ClaimsFor(conf, pt, held)
        ensures ShapeOk(conf.tb, pt.model, ceiling, c, pools)
      {
        var i :| 0 <= i < |held| && ClaimFor(conf, pt, held[i]) == c;
        assert held[i] in held && ServedAt(conf, pt, ceiling, held[i].region, pools);
        assert F.Has(held, held[i].region);
        var k :| 0 <= k < |pools| && Serves(conf.tb, Job(pt.model, pt.tier, ceiling), Key(c.region, c.pool.value), pools[k]);
        CandidateThere(c, pt.model, ceiling, pools, k);
      }
    }
  }

  lemma {:induction false} CandidateThere(claim: Claim, model: string, ceiling: nat, pools: seq<PoolView>, k: nat)
    requires k < |pools| && Candidate(claim, model, pools[k]) && ceiling <= pools[k].maxContext
    ensures pools[k] in Candidates(claim, model, pools) && Serving(ceiling, Candidates(claim, model, pools)) != []
  {
    CandidateIn(claim, model, pools, k);
    ServingSome(ceiling, Candidates(claim, model, pools), pools[k]);
  }

  lemma {:induction false} CandidateIn(claim: Claim, model: string, pools: seq<PoolView>, k: nat)
    requires k < |pools| && Candidate(claim, model, pools[k])
    ensures pools[k] in Candidates(claim, model, pools)
  {
    if k > 0 {
      CandidateIn(claim, model, pools[1..], k - 1);
    }
  }

  lemma {:induction false} ServingSome(ceiling: nat, pools: seq<PoolView>, p: PoolView)
    requires p in pools && ceiling <= p.maxContext
    ensures Serving(ceiling, pools) != []
  {
    if p != pools[0] {
      ServingSome(ceiling, pools[1..], p);
    }
  }

  /** `a` is `b` but for where it is placed. */
  predicate SameButPlaced(a: Pt, b: Pt) {
    a == b.(placements := a.placements)
  }

  lemma TidyPlaces(pt: Pt)
    ensures SameButPlaced(Tidy(pt), pt) && Tidy(pt).state == pt.state && Tidy(pt).tier == pt.tier
    ensures forall p :: SameButPlaced(pt, p) ==> SameButPlaced(Tidy(pt), p)
  {
  }

  /** None of the steps of an update looks at placements. */
  lemma StepsIgnorePlacements(conf: Conf, a: Pt, b: Pt, req: UpdateRequest)
    requires SameButPlaced(a, b)
    ensures SameButPlaced(WithTier(a, req.tier), WithTier(b, req.tier)) && LaterTier(a, req.tier) == LaterTier(b, req.tier)
    ensures SameButPlaced(WithNewRegions(conf, a, req.regions), WithNewRegions(conf, b, req.regions))
    ensures LaterRegions(a, req.regions) == LaterRegions(b, req.regions)
  {
  }

  lemma PendingIgnoresPlacements(a: Pt, b: Pt, tier: Option<Option<Tier>>, regions: Option<Option<seq<F.RegionShare>>>)
    requires SameButPlaced(a, b)
    ensures SameButPlaced(WithPending(a, tier, regions), WithPending(b, tier, regions))
  {
  }

  /** What a request has made of a reservation before its regions are looked at. */
  function Begun(conf: Conf, pt0: Pt, req: UpdateRequest): Pt {
    WithTier(WithRebalance(conf, WithAutoRenew(pt0, req.autoRenew), req.rebalance), req.tier)
  }

  /** The rest of an update, from what its regions came to. */
  lemma UpdatedFrom(conf: Conf, pt0: Pt, req: UpdateRequest, split: Pt)
    requires SameButPlaced(split, WithNewRegions(conf, Begun(conf, pt0, req), req.regions))
    ensures SameButPlaced(WithPending(split.(ceiling := if req.ceiling.Some? then req.ceiling.value else split.ceiling),
                                      LaterTier(Begun(conf, pt0, req), req.tier), LaterRegions(Begun(conf, pt0, req), req.regions)),
                          Updated(conf, pt0, req))
    ensures split.state == Begun(conf, pt0, req).state
  {
    assert split.state == Begun(conf, pt0, req).state;
    hide WithNewRegions, LaterTier, LaterRegions, Begun;
    var b := WithNewRegions(conf, Begun(conf, pt0, req), req.regions);
    var c := if req.ceiling.Some? then req.ceiling.value else split.ceiling;
    PendingIgnoresPlacements(split.(ceiling := c), b.(ceiling := c), LaterTier(Begun(conf, pt0, req), req.tier), LaterRegions(Begun(conf, pt0, req), req.regions));
  }

  /** A share that stays the same does not grow. */
  lemma {:induction false} NoGrowth(shares: seq<F.RegionShare>, all: seq<F.RegionShare>)
    requires forall s :: s in shares ==> s.cus <= F.CusAt(all, s.region)
    ensures F.Growth(all, shares) == []
  {
    if shares != [] {
      assert shares[0] in shares;
      NoGrowth(shares[1..], all);
    }
  }

  lemma SameSplitNoGrowth(shares: seq<F.RegionShare>)
    requires F.DistinctRegions(shares)
    ensures F.Growth(shares, shares) == []
  {
    forall s | s in shares
      ensures s.cus <= F.CusAt(shares, s.region)
    {
      var i :| 0 <= i < |shares| && shares[i] == s;
      CusAtIndex(shares, i);
    }
    NoGrowth(shares, shares);
  }

  lemma UpdatedLives(conf: Conf, pt0: Pt, req: UpdateRequest, pt: Pt)
    requires IsLive(pt0.state) && SameButPlaced(pt, Updated(conf, pt0, req))
    ensures IsLive(pt.state) && HeldBy(conf, pt) == Pooled(conf, pt) && HeldBy(conf, pt0) == Pooled(conf, pt0)
  {
    hide Pooled, Updated, WithRebalance, WithNewRegions;
    UpdatedState(conf, pt0, req);
  }

  lemma UpdatedState(conf: Conf, pt0: Pt, req: UpdateRequest)
    ensures Updated(conf, pt0, req).state == WithAutoRenew(pt0, req.autoRenew).state
  {
    hide F.Growth, F.Headroom, IncreasesOnly;
    BegunState(conf, pt0, req);
    var held := Begun(conf, pt0, req);
    hide Begun, WithAutoRenew, LaterTier, LaterRegions;
    assert WithNewRegions(conf, held, req.regions).state == held.state;
    hide WithNewRegions;
  }

  lemma BegunState(conf: Conf, pt0: Pt, req: UpdateRequest)
    ensures Begun(conf, pt0, req).state == WithAutoRenew(pt0, req.autoRenew).state
  {
    hide F.Headroom;
  }

  lemma UpdatedBacked(conf: Conf, pt0: Pt, req: UpdateRequest, pt: Pt)
    requires Backed(conf, pt0)
    ensures SameButPlaced(pt, Updated(conf, pt0, req)) ==> Backed(conf, pt)
  {
    hide F.Headroom, Begun, WithNewRegions, Updated;
    assert Backed(conf, Begun(conf, pt0, req)) by {
      BegunKeepsBacked(conf, pt0, req);
    }
    NewRegionsBacked(conf, Begun(conf, pt0, req), req.regions);
    UpdatedHolds(conf, pt0, req);
  }

  lemma BegunKeepsBacked(conf: Conf, pt: Pt, req: UpdateRequest)
    requires Backed(conf, pt)
    ensures Backed(conf, Begun(conf, pt, req))
  {
    hide F.Headroom, WithRebalance;
    var a := WithAutoRenew(pt, req.autoRenew);
    RebalanceBacked(conf, a, req.rebalance);
    hide WithAutoRenew;
  }

  lemma RebalanceBacked(conf: Conf, pt: Pt, rebalance: Option<bool>)
    requires Backed(conf, pt)
    ensures Backed(conf, WithRebalance(conf, pt, rebalance))
  {
    hide F.Headroom;
  }

  lemma NewRegionsBacked(conf: Conf, pt: Pt, regions: Option<seq<F.RegionShare>>)
    requires Backed(conf, pt)
    ensures Backed(conf, WithNewRegions(conf, pt, regions))
  {
    hide F.Headroom, F.Growth, IncreasesOnly;
  }

  /** The rest of an update changes no split. */
  lemma UpdatedHolds(conf: Conf, pt0: Pt, req: UpdateRequest)
    ensures var a, b := Updated(conf, pt0, req), WithNewRegions(conf, Begun(conf, pt0, req), req.regions);
      a.sku == b.sku && a.regions == b.regions && a.moved == b.moved && a.headroom == b.headroom
  {
    hide WithNewRegions, Begun, LaterTier, LaterRegions;
  }

  lemma LaterWhole(pt: Pt, regions: Option<seq<F.RegionShare>>)
    requires regions.Some? ==> F.Whole(regions.value)
    ensures var later := LaterRegions(pt, regions);
      later.Some? && later.value.Some? ==> F.Whole(later.value.value)
  {
  }

  /** What deleting makes of a reservation. */
  function Deleted(pt: Pt): Pt {
    match pt.state
    case Scheduled => pt.(state := Cancelled, pending := None)
    case Active => pt.(state := PendingCancellation, autoRenew := false, pending := None)
    case _ => pt
  }

  lemma WithRegionsValid(conf: Conf, pt: Pt, regions: seq<F.RegionShare>)
    requires ValidPt(pt) && F.Whole(regions)
    ensures ValidPt(WithRegions(conf, pt, regions))
  {
    F.HeadroomWhole(conf.pairs, pt.sku, regions);
  }

  /** A change to keep for the next term: `None` says nothing, `Some(None)` cancels. */
  function WithPending(pt: Pt, tier: Option<Option<Tier>>, regions: Option<Option<seq<F.RegionShare>>>): Pt {
    if tier.None? && regions.None? then pt
    else
      var was := if pt.pending.Some? then pt.pending.value else PendingChanges(None, None);
      var t := if tier.Some? then tier.value else was.tier;
      var r := if regions.None? then was.regions
               else if regions.value.Some? && regions.value.value != pt.regions then regions.value
               else None;
      pt.(pending := if t.Some? || r.Some? then Some(PendingChanges(t, r)) else None)
  }

  /** `a` and `b` hold the same, on the same pools. */
  predicate SameHolding(a: Pt, b: Pt) {
    && a.model == b.model && a.tier == b.tier && a.placements == b.placements
    && a.regions == b.regions && a.moved == b.moved && a.headroom == b.headroom
  }

  lemma SameHoldingOnTrack(conf: Conf, pt0: Pt, a: Pt, b: Pt, ceiling: nat, ops: seq<PlanOp>, trail: Trail, pools: seq<PoolView>)
    requires SameHolding(a, b) && ValidPt(b)
    ensures Pooled(conf, a) == Pooled(conf, b)
    ensures OnTrack(conf, pt0, a, ops, trail, pools) ==> OnTrack(conf, pt0, b, ops, trail, pools)
    ensures AllServedAt(conf, a, ceiling, HeldShares(a), pools) ==> AllServedAt(conf, b, ceiling, HeldShares(b), pools)
  {
    OnPoolsSame(conf, a, b, HeldShares(a));
    if AllServedAt(conf, a, ceiling, HeldShares(a), pools) {
      forall s | s in HeldShares(b)
        ensures ServedAt(conf, b, ceiling, s.region, pools)
      {
        assert ServedAt(conf, a, ceiling, s.region, pools);
      }
    }
  }

  /** Keeping a change for the next term changes nothing held now. */
  lemma PendingOnTrack(conf: Conf, pt0: Pt, pt: Pt, tier: Option<Option<Tier>>, regions: Option<Option<seq<F.RegionShare>>>,
                       ops: seq<PlanOp>, trail: Trail, pools: seq<PoolView>)
    requires OnTrack(conf, pt0, pt, ops, trail, pools) && Healthy(conf, pt, pools)
    requires regions.Some? && regions.value.Some? ==> F.Whole(regions.value.value)
    ensures var pt' := WithPending(pt, tier, regions);
      && OnTrack(conf, pt0, pt', ops, trail, pools) && Healthy(conf, pt', pools)
      && pt' == pt.(pending := pt'.pending)
  {
    SameHoldingOnTrack(conf, pt0, pt, WithPending(pt, tier, regions), pt.ceiling, ops, trail, pools);
  }

  /** A change about to start. */
  lemma UntouchedOnTrack(conf: Conf, pt0: Pt, pt: Pt, pools: seq<PoolView>)
    requires ValidPt(pt0) && ValidPt(pt) && SameHolding(pt0, pt) && DistinctKeys(pools)
    requires Covers(conf.tb, pt0.tier, Pooled(conf, pt0), pools)
    ensures OnTrack(conf, pt0, pt, [], Start(pools), pools)
    ensures Healthy(conf, pt0, pools) ==> AllServedAt(conf, pt, pt0.ceiling, HeldShares(pt), pools)
  {
    SameHoldingOnTrack(conf, pt0, pt0, pt, pt0.ceiling, [], Start(pools), pools);
  }

  // ---------------------------------------------------------------------------
  // The whole store
  // ---------------------------------------------------------------------------

  function HeldBy(conf: Conf, pt: Pt): seq<PoolShare> {
    if IsLive(pt.state) then Pooled(conf, pt) else []
  }

  function PtCost(conf: Conf, pt: Pt, key: Key): nat {
    CostOf(conf.tb, pt.tier, HeldBy(conf, pt), key)
  }

  /** Micro-replicas all reservations in the store hold in one pool. */
  function StoreCost(conf: Conf, store: seq<Pt>, key: Key): nat {
    if store == [] then 0 else PtCost(conf, store[0], key) + StoreCost(conf, store[1..], key)
  }

  /** Every counter is exactly what the live reservations hold. */
  predicate Conserved(conf: Conf, store: seq<Pt>, pools: seq<PoolView>) {
    forall k :: 0 <= k < |pools| ==> pools[k].reserved == StoreCost(conf, store, pools[k].key)
  }

  /** Every live reservation is on pools that serve it. */
  predicate AllHealthy(conf: Conf, store: seq<Pt>, pools: seq<PoolView>) {
    forall pt :: pt in store ==> ValidPt(pt) && Backed(conf, pt) && (IsLive(pt.state) ==> Healthy(conf, pt, pools))
  }

  function AsHeld(conf: Conf, store: seq<Pt>): seq<Held> {
    if store == [] then []
    else (if IsLive(store[0].state) then [Held(store[0].tier, Pooled(conf, store[0]))] else []) + AsHeld(conf, store[1..])
  }

  /** What the store holds is what a reconciliation run expects. */
  lemma {:induction false} StoreCostIsExpected(conf: Conf, store: seq<Pt>, key: Key)
    ensures StoreCost(conf, store, key) == ExpectedMicro(conf.tb, AsHeld(conf, store), key)
  {
    if store != [] {
      var rest := AsHeld(conf, store[1..]);
      StoreCostIsExpected(conf, store[1..], key);
      if IsLive(store[0].state) {
        assert AsHeld(conf, store)[1..] == rest;
      } else {
        assert AsHeld(conf, store) == rest;
      }
    }
  }

  /** With every counter exact, a reconciliation run has nothing to report. */
  lemma {:induction false} NoDriftWhenConserved(conf: Conf, store: seq<Pt>, pools: seq<PoolView>, pending: map<Key, (nat, nat)>,
                                                expected: map<Key, nat>, n: nat)
    requires n <= |pools| && Conserved(conf, store, pools)
    requires forall k :: 0 <= k < |pools| ==> Wanted(expected, pools[k].key) == ExpectedMicro(conf.tb, AsHeld(conf, store), pools[k].key)
    ensures DriftsOf(pools, pending, expected, n) == []
  {
    if n > 0 {
      NoDriftWhenConserved(conf, store, pools, pending, expected, n - 1);
      StoreCostIsExpected(conf, store, pools[n - 1].key);
    }
  }

  lemma {:induction false} StoreCostUpdate(conf: Conf, store: seq<Pt>, i: nat, pt: Pt, key: Key)
    requires i < |store|
    ensures StoreCost(conf, store[i := pt], key) + PtCost(conf, store[i], key) == StoreCost(conf, store, key) + PtCost(conf, pt, key)
  {
    if i == 0 {
      assert store[0 := pt][1..] == store[1..];
    } else {
      assert store[i := pt][1..] == store[1..][i - 1 := pt];
      StoreCostUpdate(conf, store[1..], i - 1, pt, key);
    }
  }

  lemma {:induction false} StoreCostAppend(conf: Conf, store: seq<Pt>, pt: Pt, key: Key)
    ensures StoreCost(conf, store + [pt], key) == StoreCost(conf, store, key) + PtCost(conf, pt, key)
  {
    if store == [] {
      assert store + [pt] == [pt] && [pt][1..] == [];
    } else {
      assert (store + [pt])[1..] == store[1..] + [pt];
      StoreCostAppend(conf, store[1..], pt, key);
    }
  }

  lemma {:induction false} PtWithinStore(conf: Conf, store: seq<Pt>, i: nat, key: Key)
    requires i < |store|
    ensures PtCost(conf, store[i], key) <= StoreCost(conf, store, key)
  {
    if i > 0 {
      PtWithinStore(conf, store[1..], i - 1, key);
    }
  }

  lemma ConservedCovers(conf: Conf, store: seq<Pt>, i: nat, pools: seq<PoolView>)
    requires i < |store| && Conserved(conf, store, pools)
    ensures Covers(conf.tb, store[i].tier, HeldBy(conf, store[i]), pools)
  {
    forall k | 0 <= k < |pools|
      ensures CostOf(conf.tb, store[i].tier, HeldBy(conf, store[i]), pools[k].key) <= pools[k].reserved
    {
      PtWithinStore(conf, store, i, pools[k].key);
    }
  }

  /** Replacing one reservation, its counters exchanged, keeps every counter exact. */
  lemma ConservedExchange(conf: Conf, store: seq<Pt>, i: nat, pt: Pt, a: seq<PoolView>, b: seq<PoolView>)
    requires i < |store| && Conserved(conf, store, a)
    requires Exchanged(conf.tb, store[i].tier, HeldBy(conf, store[i]), pt.tier, HeldBy(conf, pt), a, b)
    ensures Conserved(conf, store[i := pt], b)
  {
    SamePoolsKeys(a, b);
    forall k | 0 <= k < |b|
      ensures b[k].reserved == StoreCost(conf, store[i := pt], b[k].key)
    {
      assert a[k].key == b[k].key;
      StoreCostUpdate(conf, store, i, pt, a[k].key);
    }
  }

  lemma HealthySame(conf: Conf, store: seq<Pt>, a: seq<PoolView>, b: seq<PoolView>)
    requires AllHealthy(conf, store, a) && SamePools(a, b)
    ensures AllHealthy(conf, store, b)
  {
    forall pt | pt in store
      ensures ValidPt(pt) && Backed(conf, pt) && (IsLive(pt.state) ==> Healthy(conf, pt, b))
    {
      if IsLive(pt.state) {
        ServedSame(conf, pt, pt.ceiling, HeldShares(pt), a, b);
      }
    }
  }

  lemma HealthyUpdate(conf: Conf, store: seq<Pt>, i: nat, pt: Pt, a: seq<PoolView>, b: seq<PoolView>)
    requires i < |store| && AllHealthy(conf, store, a) && SamePools(a, b)
    requires ValidPt(pt) && Backed(conf, pt) && (IsLive(pt.state) ==> Healthy(conf, pt, b))
    ensures AllHealthy(conf, store[i := pt], b)
  {
    HealthySame(conf, store, a, b);
    forall p | p in store[i := pt]
      ensures p == pt || p in store
    {
    }
  }

  // ---------------------------------------------------------------------------
  // Saving, creating, moving
  // ---------------------------------------------------------------------------

  lemma TidyHealthy(conf: Conf, pt: Pt, pools: seq<PoolView>)
    requires ValidPt(pt)
    ensures ValidPt(Tidy(pt)) && (Healthy(conf, pt, pools) ==> Healthy(conf, Tidy(pt), pools))
    ensures HeldBy(conf, Tidy(pt)) == HeldBy(conf, pt)
  {
    TidyKeepsPooled(conf, pt);
    if Healthy(conf, pt, pools) {
      forall s | s in HeldShares(pt)
        ensures ServedAt(conf, Tidy(pt), pt.ceiling, s.region, pools)
      {
        var i :| 0 <= i < |HeldShares(pt)| && HeldShares(pt)[i] == s;
        assert ServedAt(conf, pt, pt.ceiling, s.region, pools);
        assert PoolOf(conf, Tidy(pt), s.region) == PoolOf(conf, pt, s.region);
      }
    }
  }

  lemma TidyPlace(conf: Conf, pt: Pt, region: string)
    requires F.Has(HeldShares(pt), region)
    ensures PoolOf(conf, Tidy(pt), region) == PoolOf(conf, pt, region) && HeldShares(Tidy(pt)) == HeldShares(pt)
  {
  }

  /** A new reservation, placed and recorded, keeps every counter exact. */
  lemma CreatedConserved(conf: Conf, store: seq<Pt>, pt: Pt, a: seq<PoolView>, b: seq<PoolView>)
    requires Conserved(conf, store, a) && AllHealthy(conf, store, a)
    requires ValidPt(pt) && Backed(conf, pt) && IsLive(pt.state) && Healthy(conf, pt, b)
    requires Exchanged(conf.tb, pt.tier, [], pt.tier, Pooled(conf, pt), a, b)
    ensures Conserved(conf, store + [pt], b) && AllHealthy(conf, store + [pt], b)
  {
    SamePoolsKeys(a, b);
    forall k | 0 <= k < |b|
      ensures b[k].reserved == StoreCost(conf, store + [pt], b[k].key)
    {
      assert a[k].key == b[k].key;
      StoreCostAppend(conf, store, pt, a[k].key);
    }
    HealthySame(conf, store, a, b);
  }

  /** Unplaced claims for all that `pt` holds, placed and recorded. */
  lemma CreatedPlaced(conf: Conf, pt: Pt, placed: seq<PoolShare>, pools: seq<PoolView>)
    requires ValidPt(pt) && |placed| == |HeldShares(pt)|
    requires forall i :: 0 <= i < |placed| ==> Answers(Unplaced(HeldShares(pt))[i], placed[i])
    requires AllServed(conf.tb, Job(pt.model, pt.tier, pt.ceiling), placed, pools)
    ensures var pt' := Record(pt, placed);
      && pt' == pt.(placements := pt'.placements) && Pooled(conf, pt') == placed && Healthy(conf, pt', pools)
  {
    HeldDistinct(pt);
    RecordKeeps(pt, placed);
    RecordedOnPools(conf, pt, HeldShares(pt), Unplaced(HeldShares(pt)), placed);
    OnPoolsServed(conf, Record(pt, placed), pt.ceiling, HeldShares(pt), pools);
  }

  lemma HeldRegionServed(conf: Conf, pt: Pt, region: string, pools: seq<PoolView>)
    requires Healthy(conf, pt, pools) && F.Has(HeldShares(pt), region)
    ensures ServedAt(conf, pt, pt.ceiling, region, pools)
  {
    var i :| 0 <= i < |HeldShares(pt)| && HeldShares(pt)[i].region == region;
    assert HeldShares(pt)[i] in HeldShares(pt);
  }

  /** What `pt` holds in one region is on the counters, on a pool that serves. */
  lemma RegionCovered(conf: Conf, pt: Pt, region: string, pools: seq<PoolView>)
    requires ValidPt(pt) && Healthy(conf, pt, pools) && F.Has(HeldShares(pt), region)
    requires Covers(conf.tb, pt.tier, Pooled(conf, pt), pools)
    ensures Covers(conf.tb, pt.tier, OnPools(conf, pt, InRegion(HeldShares(pt), region)), pools)
    ensures ServedAt(conf, pt, pt.ceiling, region, pools)
  {
    HalfwayStart(conf, pt, HeldShares(pt), HeldShares(pt), pools);
    OldCovered(conf, pt, pt, [], region, HeldShares(pt), pools, pools);
    HeldRegionServed(conf, pt, region, pools);
  }

  /** The log of a first change, which `pt` itself could take back. */
  lemma FirstServed(conf: Conf, pt: Pt, a: seq<PoolView>, trail: Trail)
    requires Healthy(conf, pt, a) && Carried(conf, pt, a, Start(a), trail) && trail.First() == a
    ensures LogServed(conf.tb, pt.model, pt.ceiling, trail)
  {
    assert LogServed(conf.tb, pt.model, pt.ceiling, Start(a));
  }

  lemma MoveServed(conf: Conf, pt: Pt, region: string, a: seq<PoolView>, trail: Trail)
    requires ValidPt(pt) && Healthy(conf, pt, a) && F.Has(HeldShares(pt), region)
    requires CarriedIn(conf, pt, region, a, Start(a), trail) && trail.First() == a
    ensures LogServed(conf.tb, pt.model, pt.ceiling, trail)
  {
    HalfwayStart(conf, pt, HeldShares(pt), HeldShares(pt), a);
    RegionCarried(conf, pt, pt, [], region, HeldShares(pt), a, a, Start(a), trail);
    FirstServed(conf, pt, a, trail);
  }

  /** Counters restored from nothing are what the store holds. */
  lemma RestoredConserved(conf: Conf, store: seq<Pt>, a: seq<PoolView>, b: seq<PoolView>)
    requires SamePools(a, b) && forall k :: 0 <= k < |a| ==> a[k].reserved == 0
    requires forall k :: 0 <= k < |b| ==> b[k].reserved == a[k].reserved + ExpectedMicro(conf.tb, AsHeld(conf, store), b[k].key)
    ensures Conserved(conf, store, b)
  {
    forall k | 0 <= k < |b|
      ensures b[k].reserved == StoreCost(conf, store, b[k].key)
    {
      StoreCostIsExpected(conf, store, b[k].key);
    }
  }

  /** One region moved to another pool, its size kept: all else is held where it was. */
  lemma RelocatedHolding(conf: Conf, pt: Pt, region: string, pool: string, a: seq<PoolView>, b: seq<PoolView>)
    requires ValidPt(pt)
    requires Exchanged(conf.tb, pt.tier, OnPools(conf, pt, InRegion(HeldShares(pt), region)),
                       pt.tier, [PoolShare(region, pool, F.CusAt(HeldShares(pt), region))], a, b)
    ensures Exchanged(conf.tb, pt.tier, Pooled(conf, pt), pt.tier, Pooled(conf, pt.(placements := pt.placements[region := pool])), a, b)
  {
    var pt' := pt.(placements := pt.placements[region := pool]);
    var before := HeldShares(pt);
    HeldDistinct(pt);
    HalfwayStart(conf, pt, before, before, a);
    RelocateStep(conf, pt, pt, [], F.RegionShare(region, 0), before, before, a, a, b, pool);
    forall k | 0 <= k < |a|
      ensures b[k].reserved + CostOf(conf.tb, pt.tier, Pooled(conf, pt), a[k].key)
              == a[k].reserved + CostOf(conf.tb, pt.tier, Pooled(conf, pt'), a[k].key)
    {
      OnPoolsCost(conf, pt, before, a[k].key);
      OnPoolsCost(conf, pt', before, a[k].key);
    }
  }

  lemma RelocatedHealthy(conf: Conf, pt: Pt, region: string, pool: string, a: seq<PoolView>, b: seq<PoolView>)
    requires Healthy(conf, pt, a) && SamePools(a, b)
    requires ServedAt(conf, pt.(placements := pt.placements[region := pool]), pt.ceiling, region, b)
    ensures Healthy(conf, pt.(placements := pt.placements[region := pool]), b)
  {
    var pt' := pt.(placements := pt.placements[region := pool]);
    forall s | s in HeldShares(pt)
      ensures ServedAt(conf, pt', pt.ceiling, s.region, b)
    {
      if s.region != region {
        assert ServedAt(conf, pt, pt.ceiling, s.region, a);
        ServedAtSame(conf, pt, pt.ceiling, s.region, a, b);
        assert PoolOf(conf, pt', s.region) == PoolOf(conf, pt, s.region);
      }
    }
  }

  // ---------------------------------------------------------------------------
  // A move that fails and is not undone
  // ---------------------------------------------------------------------------

  /** Relocation, as its effect: the reservation and the counters after it. */
  function Relocated(conf: Conf, pt: Pt, region: string, total: nat, to: Option<string>, ceiling: nat, at: Timestamp, pools: seq<PoolView>)
    : Result<(Pt, seq<PoolView>), PlanError>
  {
    match ReserveAll(conf.tb, Job(pt.model, pt.tier, ceiling), at, [Claim(region, to, total)], pools)
    case Err(e) => Err(e)
    case Ok((placed, after)) =>
      Ok((Record(pt, placed), ReleaseAll(conf.tb, pt.tier, OnPools(conf, pt, InRegion(HeldShares(pt), region)), after)))
  }

  function Outcome(err: Option<PlanError>, pt: Pt, pools: seq<PoolView>): Result<(Pt, seq<PoolView>), PlanError> {
    if err.Some? then Err(err.value) else Ok((pt, pools))
  }

  /** One region's growth, as its effect. */
  function Grown(conf: Conf, pt: Pt, g: F.RegionShare, target: seq<F.RegionShare>, ceiling: nat, at: Timestamp, pools: seq<PoolView>)
    : Result<(Pt, seq<PoolView>), PlanError>
  {
    var claim := ClaimFor(conf, pt, g);
    match ReserveAll(conf.tb, Job(pt.model, pt.tier, ceiling), at, [claim], pools)
    case Ok((placed, after)) => Ok((Record(pt, placed), after))
    case Err(e) =>
      if e.CapacityUnavailable? && claim.pool.Some? then
        Relocated(conf, pt, g.region, if F.Has(target, g.region) then F.CusAt(target, g.region) else g.cus, None, ceiling, at, pools)
      else Err(e)
  }

  /** Regions growing in turn until one does not fit: how far it got. */
  function AllGrown(conf: Conf, pt: Pt, gs: seq<F.RegionShare>, target: seq<F.RegionShare>, ceiling: nat, at: Timestamp, pools: seq<PoolView>)
    : (Option<PlanError>, Pt, seq<PoolView>)
    decreases |gs|
  {
    if gs == [] then (None, pt, pools)
    else
      match Grown(conf, pt, gs[0], target, ceiling, at, pools)
      case Err(e) => (Some(e), pt, pools)
      case Ok((pt', after)) => AllGrown(conf, pt', gs[1..], target, ceiling, at, after)
  }

  lemma AllGrownNone(conf: Conf, pt: Pt, gs: seq<F.RegionShare>, target: seq<F.RegionShare>, ceiling: nat, at: Timestamp, pools: seq<PoolView>)
    ensures AllGrown(conf, pt, gs[|gs|..], target, ceiling, at, pools) == (None, pt, pools)
    ensures gs[..|gs|] == gs && gs[0..] == gs
  {
    assert gs[|gs|..] == [];
  }

  lemma AllGrownStep(conf: Conf, pt: Pt, gs: seq<F.RegionShare>, i: nat, target: seq<F.RegionShare>, ceiling: nat, at: Timestamp, pools: seq<PoolView>)
    requires i < |gs|
    ensures var one := Grown(conf, pt, gs[i], target, ceiling, at, pools);
      AllGrown(conf, pt, gs[i..], target, ceiling, at, pools)
      == if one.Err? then (Some(one.error), pt, pools) else AllGrown(conf, one.value.0, gs[i + 1..], target, ceiling, at, one.value.1)
  {
    assert gs[i..][0] == gs[i] && gs[i..][1..] == gs[i + 1..];
  }

  /** A pool's counter ends too low exactly where the move had already taken a held region
      off it. */
  lemma TooLowIff(conf: Conf, pt0: Pt, pt: Pt, done: seq<F.RegionShare>, before: seq<F.RegionShare>, target: seq<F.RegionShare>,
                  start: seq<PoolView>, now: seq<PoolView>, k: nat)
    requires F.DistinctRegions(target) && Halfway(conf, pt0, pt, done, before, target, start, now)
    requires done <= F.Growth(before, target) && k < |start|
    ensures var key := start[k].key;
      now[k].reserved < start[k].reserved <==>
      && PoolOf(conf, pt0, key.region) == Some(key.pool) && PoolOf(conf, pt, key.region) != Some(key.pool)
      && PoolCost(conf.tb, pt0.tier, key, F.CusAt(before, key.region)) > 0
  {
    var key := start[k].key;
    NowAtLeast(done, before, target, key.region);
    PoolCostMonotone(conf.tb, pt0.tier, key, F.CusAt(before, key.region), NowAt(done, before, target, key.region));
    assert now[k].reserved + HoldCus(conf, pt0, key, F.CusAt(before, key.region))
        == start[k].reserved + HoldCus(conf, pt, key, NowAt(done, before, target, key.region));
    if PoolOf(conf, pt, key.region) == Some(key.pool) {
      assert PoolOf(conf, pt0, key.region) != Some(key.pool) ==> HoldCus(conf, pt0, key, F.CusAt(before, key.region)) == 0;
    }
  }

  /** No region holds less while a move is growing. */
  lemma NowAtLeast(done: seq<F.RegionShare>, before: seq<F.RegionShare>, target: seq<F.RegionShare>, region: string)
    requires F.DistinctRegions(target) && done <= F.Growth(before, target)
    ensures NowAt(done, before, target, region) >= F.CusAt(before, region)
  {
    if F.Has(done, region) {
      var i :| 0 <= i < |done| && done[i].region == region;
      assert F.Growth(before, target)[i].region == region;
      F.GrowthAt(before, target, region);
    }
  }

  lemma PoolCostMonotone(tb: Tables, tier: Tier, key: Key, less: nat, more: nat)
    requires less <= more
    ensures PoolCost(tb, tier, key, less) <= PoolCost(tb, tier, key, more)
  {
    PoolCostAdds(tb, tier, key, less, more - less);
  }

  /** A move of at most one growing region either goes through or changes nothing. */
  lemma OneRegionMoves(conf: Conf, pt0: Pt, pt: Pt, done: seq<F.RegionShare>, before: seq<F.RegionShare>, target: seq<F.RegionShare>,
                       start: seq<PoolView>, now: seq<PoolView>)
    requires Halfway(conf, pt0, pt, done, before, target, start, now)
    requires done <= F.Growth(before, target) && done != F.Growth(before, target) && |F.Growth(before, target)| <= 1
    ensures now == start
  {
    assert done == [];
    forall k | 0 <= k < |start|
      ensures now[k] == start[k]
    {
      HalfwayUntouched(conf, pt0, pt, done, before, target, start, now, k);
      assert start[k].(reserved := 0) == now[k].(reserved := 0);
    }
  }

  // ---------------------------------------------------------------------------
  // Rebalancing
  // ---------------------------------------------------------------------------

  /** `pt` with the effective split `target`; none is kept when it is the contract split. */
  function WithSplit(conf: Conf, pt: Pt, target: seq<F.RegionShare>): Pt {
    pt.(moved := if target == pt.regions then [] else target, headroom := F.Headroom(conf.pairs, pt.sku, target))
  }

  function NextHeld(conf: Conf, pt: Pt, target: seq<F.RegionShare>): seq<F.RegionShare> {
    F.Footprint(target, F.Headroom(conf.pairs, pt.sku, target))
  }

  /** A rebalancing move stopped at the first region that does not fit, `done` before it. */
  ghost predicate Stopped(conf: Conf, pt: Pt, target: seq<F.RegionShare>, now: Timestamp, moved: Pt, done: seq<F.RegionShare>,
                          start: seq<PoolView>, pools: seq<PoolView>)
  {
    var before, next := HeldShares(pt), NextHeld(conf, pt, target);
    var grown := AllGrown(conf, pt, F.Growth(before, next), next, pt.ceiling, Max(pt.termStart, now), start);
    && grown.0.Some? && grown.1 == moved && grown.2 == pools
    && done <= F.Growth(before, next) && done != F.Growth(before, next)
    && Halfway(conf, pt, moved, done, before, next, start, pools)
  }

  lemma WithSplitValid(conf: Conf, pt: Pt, target: seq<F.RegionShare>)
    requires ValidPt(pt) && F.Whole(target)
    ensures pt.state != Scheduled ==> ValidPt(WithSplit(conf, pt, target))
    ensures F.Whole(NextHeld(conf, pt, target)) && (target != [] ==> Backed(conf, WithSplit(conf, pt, target)))
    ensures target != [] ==> HeldShares(WithSplit(conf, pt, target)) == NextHeld(conf, pt, target)
  {
    F.HeadroomWhole(conf.pairs, pt.sku, target);
  }

  /** A move that went through, saved with its new split. */
  lemma Resplitted(conf: Conf, pt: Pt, moved: Pt, next: Pt, target: seq<F.RegionShare>, a: seq<PoolView>, b: seq<PoolView>)
    requires ValidPt(pt) && F.Whole(target) && Healthy(conf, pt, a) && IsLive(pt.state) && HeldShares(next) == target
    requires moved == pt.(placements := moved.placements) && next == moved.(moved := next.moved, headroom := next.headroom)
    requires Exchanged(conf.tb, pt.tier, Pooled(conf, pt), pt.tier, OnPools(conf, moved, target), a, b)
    requires Relocations(conf, pt, moved, F.Growth(HeldShares(pt), target), pt.ceiling, b)
    ensures Exchanged(conf.tb, pt.tier, HeldBy(conf, pt), next.tier, HeldBy(conf, next), a, b) && Healthy(conf, next, b)
  {
    OnPoolsSame(conf, moved, next, target);
    MovedServed(conf, pt, moved, target, pt.ceiling, pt.ceiling, a, b);
    ServedSplit(conf, moved, next, pt.ceiling, target, b);
  }
}