/**
 Reservation operations over the planner's counters
 (crates/pt-control-plane/src/service.rs): what every operation leaves reserved, and what a
 failed one puts back. The clock, the store's answers and whether sales are open are
 parameters; prices, events and names are not part of the model.
 */
module Service {
  import opened Prelude
  import opened Capacity
  import opened Planner
  import opened MemoryPlanner
  import opened Holdings
  import opened Moves
  import opened Changes
  import opened Growing
  import opened Releases
  import opened Terms
  import opened Dates
  import opened Outcomes
  import F = Failover

  class Service {
    const conf: Conf
    const planner: Counters
    var store: seq<Pt>

    constructor (conf: Conf, planner: Counters)
      requires planner.tb == conf.tb
      ensures this.conf == conf && this.planner == planner && store == []
      ensures Ready() && (forall k :: 0 <= k < |planner.pools| ==> planner.pools[k].reserved == 0) ==> Valid()
    {
      this.conf, this.planner, store := conf, planner, [];
    }

    /** Start up: put on empty counters what the stored reservations hold. */
    method RestoreCapacity()
      requires Ready() && AllHealthy(conf, store, planner.pools)
      requires forall k :: 0 <= k < |planner.pools| ==> planner.pools[k].reserved == 0
      modifies planner`pools
      ensures Valid() && SamePools(old(planner.pools), planner.pools)
    {
      ghost var a := planner.pools;
      planner.Restore(AsHeld(conf, store));
      RestoredConserved(conf, store, a, planner.pools);
      SamePoolsKeys(a, planner.pools);
      HealthySame(conf, store, a, planner.pools);
      ConfiguredSame(conf, a, planner.pools);
    }

    ghost predicate Ready()
      reads planner
    {
      planner.tb == conf.tb && DistinctKeys(planner.pools) && Configured(conf, planner.pools)
    }

    /** `planner.reserve`, logged. */
    method Take(job: Job, claims: seq<Claim>, at: Timestamp, ops: seq<PlanOp>, ghost trail: Trail)
      returns (r: Result<seq<PoolShare>, PlanError>, ops': seq<PlanOp>, ghost trail': Trail)
      requires Ready() && Logged(conf.tb, trail, ops, planner.pools)
      modifies planner`pools
      ensures Ready() && Logged(conf.tb, trail', ops', planner.pools)
      ensures SamePools(old(planner.pools), planner.pools) && StaysWithin(conf.tb, old(planner.pools), planner.pools)
      ensures var spec := ReserveAll(conf.tb, job, at, claims, old(planner.pools));
        if spec.Err? then r == Err(spec.error) && planner.pools == old(planner.pools) && ops' == ops && trail' == trail
        else r == Ok(spec.value.0) && planner.pools == spec.value.1
             && ops' == ops + [Reserved(job.tier, r.value)] && trail' == Then(trail, Reserved(job.tier, r.value), planner.pools)
      ensures r.Ok? ==>
        && Exchanged(conf.tb, job.tier, [], job.tier, r.value, old(planner.pools), planner.pools)
        && |r.value| == |claims| && (forall i :: 0 <= i < |claims| ==> Answers(claims[i], r.value[i]))
        && AllServed(conf.tb, job, r.value, planner.pools)
    {
      ghost var before := planner.pools;
      r := planner.Reserve(job, claims, at);
      ops', trail' := ops, trail;
      if r.Ok? {
        ops', trail' := ops + [Reserved(job.tier, r.value)], Then(trail, Reserved(job.tier, r.value), planner.pools);
        ReserveKeepsWithin(conf.tb, job, at, claims, before);
        ReserveAllAdds(conf.tb, job, at, claims, before);
        ReservedWithin(conf.tb, job, at, claims, before);
        AllServedSame(conf.tb, job, r.value, before, planner.pools);
        ConfiguredSame(conf, before, planner.pools);
      } else {
        StaysWithinItself(conf.tb, before);
      }
    }

    /** `planner.release`, logged. */
    method Drop(tier: Tier, shares: seq<PoolShare>, ops: seq<PlanOp>, ghost trail: Trail)
      returns (ops': seq<PlanOp>, ghost trail': Trail)
      requires Ready() && Logged(conf.tb, trail, ops, planner.pools)
      requires Covers(conf.tb, tier, shares, planner.pools)
      modifies planner`pools
      ensures Ready() && Logged(conf.tb, trail', ops', planner.pools)
      ensures SamePools(old(planner.pools), planner.pools) && StaysWithin(conf.tb, old(planner.pools), planner.pools)
      ensures planner.pools == ReleaseAll(conf.tb, tier, shares, old(planner.pools))
      ensures ops' == ops + [Released(tier, shares)] && trail' == Then(trail, Released(tier, shares), planner.pools)
      ensures Exchanged(conf.tb, tier, shares, tier, [], old(planner.pools), planner.pools)
    {
      ghost var before := planner.pools;
      planner.Release(tier, shares);
      ops', trail' := ops + [Released(tier, shares)], Then(trail, Released(tier, shares), planner.pools);
      ReleaseKeepsWithin(conf.tb, tier, shares, before);
      ConfiguredSame(conf, before, planner.pools);
    }

    /** Move the whole holding in `region` to `to`, or to the best-fitting pool, sized at
        `total` there: reserve first, then release the old pool. */
    method Relocate(pt: Pt, region: string, total: nat, to: Option<string>, ceiling: nat, at: Timestamp,
                    ops: seq<PlanOp>, ghost trail: Trail)
      returns (err: Option<PlanError>, pt': Pt, ops': seq<PlanOp>, ghost trail': Trail)
      requires Ready() && Logged(conf.tb, trail, ops, planner.pools)
      requires Covers(conf.tb, pt.tier, OnPools(conf, pt, InRegion(HeldShares(pt), region)), planner.pools)
      modifies planner`pools
      ensures Ready() && Logged(conf.tb, trail', ops', planner.pools) && trail'.First() == trail.First()
      ensures SamePools(old(planner.pools), planner.pools) && StaysWithin(conf.tb, old(planner.pools), planner.pools)
      ensures err.Some? ==> pt' == pt && planner.pools == old(planner.pools) && ops' == ops && trail' == trail
      ensures Outcome(err, pt', planner.pools) == Relocated(conf, pt, region, total, to, ceiling, at, old(planner.pools))
      ensures err.None? ==>
        && region in pt'.placements && (to.Some? ==> pt'.placements[region] == to.value)
        && pt' == pt.(placements := pt.placements[region := pt'.placements[region]])
        && Exchanged(conf.tb, pt.tier, OnPools(conf, pt, InRegion(HeldShares(pt), region)),
                     pt.tier, [PoolShare(region, pt'.placements[region], total)], old(planner.pools), planner.pools)
        && ServedAt(conf, pt', ceiling, region, planner.pools)
      ensures CarriedIn(conf, pt, region, old(planner.pools), trail, trail')
    {
      hide ReserveAll, Walked, Steady, LogServed, CarriedIn, StaysWithin, WithinFinal;
      ghost var a := planner.pools;
      var gone := OnPools(conf, pt, InRegion(HeldShares(pt), region));
      pt' := pt;
      var r;
      r, ops', trail' := Take(Job(pt.model, pt.tier, ceiling), [Claim(region, to, total)], at, ops, trail);
      if r.Err? {
        CarriedInItself(conf, pt, region, a, trail);
        return Some(r.error), pt', ops', trail';
      }
      var placed := r.value;
      ghost var b := planner.pools;
      assert placed == [placed[0]] && Answers([Claim(region, to, total)][0], placed[0]);
      CoversGrows(conf.tb, pt.tier, gone, Job(pt.model, pt.tier, ceiling), placed, a, b);
      pt' := pt.(placements := pt.placements[region := placed[0].pool]);
      assert Record(pt, placed) == pt';
      PlacedServed(conf, pt', ceiling, placed[0], b);
      RelocatedCarried(conf, pt, region, trail, placed, b);
      if gone != [] {
        ops', trail' := Drop(pt.tier, gone, ops', trail');
        StaysWithinTransitive(conf.tb, a, b, planner.pools);
      } else {
        assert Exchanged(conf.tb, pt.tier, gone, pt.tier, [], b, b);
      }
      ReservedThenReleased(conf.tb, pt.tier, gone, placed, a, b, planner.pools);
      ServedAtSame(conf, pt', ceiling, region, b, planner.pools);
      SamePoolsTransitive(a, b, planner.pools);
      err := None;
    }

    /** A region with no room for its growth moves whole to the best-fitting pool. */
    method MoveRegion(pt0: Pt, pt: Pt, g: F.RegionShare, ghost done: seq<F.RegionShare>, target: seq<F.RegionShare>, ceiling: nat, at: Timestamp,
                      ops: seq<PlanOp>, ghost trail: Trail, ghost start: seq<PoolView>)
      returns (err: Option<PlanError>, pt': Pt, ops': seq<PlanOp>, ghost trail': Trail)
      requires Ready() && Logged(conf.tb, trail, ops, planner.pools)
      requires ValidPt(pt0) && F.DistinctRegions(target)
      requires Halfway(conf, pt0, pt, done, HeldShares(pt0), target, start, planner.pools)
      requires Relocations(conf, pt0, pt, done, ceiling, planner.pools)
      requires !F.Has(done, g.region) && g.cus > 0
      requires g.cus == F.CusAt(target, g.region) - F.CusAt(HeldShares(pt0), g.region)
      requires Covers(conf.tb, pt0.tier, Pooled(conf, pt0), start) && StaysWithin(conf.tb, start, planner.pools)
      requires F.Has(HeldShares(pt0), g.region)
      modifies planner`pools
      ensures Ready() && Logged(conf.tb, trail', ops', planner.pools) && trail'.First() == trail.First()
      ensures err.Some? ==> pt' == pt && planner.pools == old(planner.pools) && ops' == ops && trail' == trail
      ensures Outcome(err, pt', planner.pools)
           == Relocated(conf, pt, g.region, if F.Has(target, g.region) then F.CusAt(target, g.region) else g.cus, None, ceiling, at, old(planner.pools))
      ensures err.None? ==>
        && Halfway(conf, pt0, pt', done + [g], HeldShares(pt0), target, start, planner.pools)
        && Relocations(conf, pt0, pt', done + [g], ceiling, planner.pools)
      ensures Carried(conf, pt0, start, trail, trail') && StaysWithin(conf.tb, start, planner.pools)
    {
      hide Relocated, Relocations, Walked, Steady, LogServed, CarriedIn, Carried, StaysWithin;
      ghost var a := planner.pools;
      F.CusAtHas(target, g.region);
      var total := if F.Has(target, g.region) then F.CusAt(target, g.region) else g.cus;
      OldCovered(conf, pt0, pt, done, g.region, target, start, a);
      err, pt', ops', trail' := Relocate(pt, g.region, total, None, ceiling, at, ops, trail);
      RegionCarried(conf, pt0, pt, done, g.region, target, start, a, trail, trail');
      StaysWithinTransitive(conf.tb, start, a, planner.pools);
      if err.None? {
        GrewByMoving(conf, pt0, pt, done, g, target, ceiling, start, a, planner.pools, pt'.placements[g.region]);
      }
    }

    /** One growing region of a move: on its own pool, or moved whole if that has no room. */
    method GrowRegion(pt0: Pt, pt: Pt, g: F.RegionShare, ghost done: seq<F.RegionShare>, target: seq<F.RegionShare>, ceiling: nat, at: Timestamp,
                      ops: seq<PlanOp>, ghost trail: Trail, ghost start: seq<PoolView>)
      returns (err: Option<PlanError>, pt': Pt, ops': seq<PlanOp>, ghost trail': Trail)
      requires Ready() && Logged(conf.tb, trail, ops, planner.pools)
      requires ValidPt(pt0) && F.DistinctRegions(target)
      requires Halfway(conf, pt0, pt, done, HeldShares(pt0), target, start, planner.pools)
      requires Relocations(conf, pt0, pt, done, ceiling, planner.pools)
      requires !F.Has(done, g.region) && g.cus > 0
      requires g.cus == F.CusAt(target, g.region) - F.CusAt(HeldShares(pt0), g.region)
      requires Covers(conf.tb, pt0.tier, Pooled(conf, pt0), start) && StaysWithin(conf.tb, start, planner.pools)
      modifies planner`pools
      ensures Ready() && Logged(conf.tb, trail', ops', planner.pools) && trail'.First() == trail.First()
      ensures err.Some? ==> pt' == pt && planner.pools == old(planner.pools) && ops' == ops && trail' == trail
      ensures Outcome(err, pt', planner.pools) == Grown(conf, pt, g, target, ceiling, at, old(planner.pools))
      ensures err.None? ==>
        && Halfway(conf, pt0, pt', done + [g], HeldShares(pt0), target, start, planner.pools)
        && Relocations(conf, pt0, pt', done + [g], ceiling, planner.pools)
      ensures Carried(conf, pt0, start, trail, trail') && StaysWithin(conf.tb, start, planner.pools)
    {
      hide ReserveAll, Relocated, Relocations, Walked, Steady;
      ghost var a := planner.pools;
      var claim := ClaimFor(conf, pt, g);
      pt' := pt;
      var r;
      r, ops', trail' := Take(Job(pt.model, pt.tier, ceiling), [claim], at, ops, trail);
      if r.Ok? {
        var placed := r.value;
        assert placed == [placed[0]] && Answers([claim][0], placed[0]);
        pt' := Record(pt, placed);
        GrewInPlace(conf, pt0, pt, done, g, target, ceiling, start, a, planner.pools, placed[0]);
        TakeCarried(conf, pt0, start, trail, pt.tier, placed, planner.pools);
        StaysWithinTransitive(conf.tb, start, a, planner.pools);
        return None, pt', ops', trail';
      }
      if r.error.CapacityUnavailable? && claim.pool.Some? {
        err, pt', ops', trail' := MoveRegion(pt0, pt, g, done, target, ceiling, at, ops', trail', start);
        return;
      }
      CarriedItself(conf, pt0, start, trail);
      err := Some(r.error);
    }

    /** Reserve what grows from what `pt0` holds to `target`, region by region. `done` are the
        regions whose growth is in. */
    method GrowAll(pt0: Pt, target: seq<F.RegionShare>, ceiling: nat, at: Timestamp,
                   ops0: seq<PlanOp>, ghost trail0: Trail)
      returns (err: Option<PlanError>, pt: Pt, ops: seq<PlanOp>, ghost trail: Trail, ghost done: seq<F.RegionShare>)
      requires Ready() && Logged(conf.tb, trail0, ops0, planner.pools)
      requires ValidPt(pt0) && F.DistinctRegions(target)
      requires Covers(conf.tb, pt0.tier, Pooled(conf, pt0), planner.pools)
      modifies planner`pools
      ensures Ready() && Logged(conf.tb, trail, ops, planner.pools) && trail.First() == trail0.First()
      ensures done <= F.Growth(HeldShares(pt0), target)
      ensures (err, pt, planner.pools) == AllGrown(conf, pt0, F.Growth(HeldShares(pt0), target), target, ceiling, at, old(planner.pools))
      ensures err.None? <==> done == F.Growth(HeldShares(pt0), target)
      ensures Halfway(conf, pt0, pt, done, HeldShares(pt0), target, old(planner.pools), planner.pools)
      ensures Relocations(conf, pt0, pt, done, ceiling, planner.pools)
      ensures Carried(conf, pt0, old(planner.pools), trail0, trail) && StaysWithin(conf.tb, old(planner.pools), planner.pools)
    {
      hide Grown, AllGrown, Halfway, Relocations, LogServed, AllServedAt, Walked, Steady, Covers, ValidPt, F.Growth, Carried, StaysWithin;
      var gs := F.Growth(HeldShares(pt0), target);
      pt, ops, trail, done := pt0, ops0, trail0, [];
      ghost var start := planner.pools;
      HalfwayStart(conf, pt0, HeldShares(pt0), target, start);
      RelocationsStart(conf, pt0, ceiling, start);
      CarriedItself(conf, pt0, start, trail);
      StaysWithinItself(conf.tb, start);
      for i := 0 to |gs|
        invariant Ready() && Logged(conf.tb, trail, ops, planner.pools) && trail.First() == trail0.First()
        invariant done == gs[..i]
        invariant AllGrown(conf, pt0, gs, target, ceiling, at, start) == AllGrown(conf, pt, gs[i..], target, ceiling, at, planner.pools)
        invariant Halfway(conf, pt0, pt, done, HeldShares(pt0), target, start, planner.pools)
        invariant Relocations(conf, pt0, pt, done, ceiling, planner.pools)
        invariant Carried(conf, pt0, start, trail0, trail) && StaysWithin(conf.tb, start, planner.pools)
      {
        GrowthMember(HeldShares(pt0), target, i);
        AllGrownStep(conf, pt, gs, i, target, ceiling, at, planner.pools);
        ghost var t := trail;
        err, pt, ops, trail := GrowRegion(pt0, pt, gs[i], done, target, ceiling, at, ops, trail, start);
        CarriedTransitive(conf, pt0, start, trail0, t, trail);
        if err.Some? {
          return;
        }
        done := done + [gs[i]];
      }
      AllGrownNone(conf, pt, gs, target, ceiling, at, planner.pools);
      err := None;
    }

    /** Change what `pt0` holds to `target`: reserve what grows first, then release what
        shrinks. */
    method MoveCapacity(pt0: Pt, target: seq<F.RegionShare>, ceiling: nat, now: Timestamp,
                        ops0: seq<PlanOp>, ghost trail0: Trail)
      returns (err: Option<PlanError>, pt: Pt, ops: seq<PlanOp>, ghost trail: Trail, ghost done: seq<F.RegionShare>)
      requires Ready() && Logged(conf.tb, trail0, ops0, planner.pools)
      requires ValidPt(pt0) && F.DistinctRegions(target)
      requires Covers(conf.tb, pt0.tier, Pooled(conf, pt0), planner.pools)
      modifies planner`pools
      ensures Ready() && Logged(conf.tb, trail, ops, planner.pools) && trail.First() == trail0.First()
      ensures SamePools(old(planner.pools), planner.pools)
      ensures done <= F.Growth(HeldShares(pt0), target) && pt == pt0.(placements := pt.placements)
      ensures err.None? <==> done == F.Growth(HeldShares(pt0), target)
      ensures err.Some? ==> Halfway(conf, pt0, pt, done, HeldShares(pt0), target, old(planner.pools), planner.pools)
      ensures var grown := AllGrown(conf, pt0, F.Growth(HeldShares(pt0), target), target, ceiling, Max(pt0.termStart, now), old(planner.pools));
        err == grown.0 && pt == grown.1 && (err.Some? ==> planner.pools == grown.2)
      ensures (err, pt, planner.pools) == MovedTo(conf, pt0, target, ceiling, Max(pt0.termStart, now), old(planner.pools))
      ensures Lowers(conf, pt0, MoveReleased(conf, pt0, target, ceiling, Max(pt0.termStart, now), old(planner.pools)), old(planner.pools), planner.pools)
      ensures err.None? ==>
        Exchanged(conf.tb, pt0.tier, Pooled(conf, pt0), pt0.tier, OnPools(conf, pt, target), old(planner.pools), planner.pools)
      ensures Relocations(conf, pt0, pt, done, ceiling, planner.pools)
      ensures Carried(conf, pt0, old(planner.pools), trail0, trail) && StaysWithin(conf.tb, old(planner.pools), planner.pools)
    {
      hide Grown, AllGrown, Relocations, Walked, Steady, LogServed, AllServedAt, F.Growth, Carried, StaysWithin, Lowers, MoveReleased;
      ghost var start := planner.pools;
      err, pt, ops, trail, done := GrowAll(pt0, target, ceiling, Max(pt0.termStart, now), ops0, trail0);
      MovedPlaces(conf, pt0, target, ceiling, Max(pt0.termStart, now), start);
      if err.Some? {
        StoppedLowers(conf, pt0, pt, done, target, ceiling, Max(pt0.termStart, now), start, planner.pools);
        return;
      }
      ghost var grown, t := planner.pools, trail;
      ops, trail := Shrink(pt0, pt, target, start, ops, trail);
      CarriedTransitive(conf, pt0, start, trail0, t, trail);
      ThroughLowers(conf, pt0, pt, target, ceiling, Max(pt0.termStart, now), start, planner.pools);
      RelocationsSame(conf, pt0, pt, done, ceiling, grown, planner.pools);
    }

    /** Everything that grows is in: release what shrinks. */
    method Shrink(ghost pt0: Pt, pt: Pt, target: seq<F.RegionShare>, ghost start: seq<PoolView>,
                  ops: seq<PlanOp>, ghost trail: Trail)
      returns (ops': seq<PlanOp>, ghost trail': Trail)
      requires Ready() && Logged(conf.tb, trail, ops, planner.pools) && ValidPt(pt0) && F.DistinctRegions(target)
      requires Halfway(conf, pt0, pt, F.Growth(HeldShares(pt0), target), HeldShares(pt0), target, start, planner.pools)
      requires Covers(conf.tb, pt0.tier, Pooled(conf, pt0), start) && StaysWithin(conf.tb, start, planner.pools)
      modifies planner`pools
      ensures Ready() && Logged(conf.tb, trail', ops', planner.pools) && trail'.First() == trail.First()
      ensures SamePools(old(planner.pools), planner.pools) && StaysWithin(conf.tb, start, planner.pools)
      ensures Exchanged(conf.tb, pt0.tier, Pooled(conf, pt0), pt0.tier, OnPools(conf, pt, target), start, planner.pools)
      ensures Carried(conf, pt0, start, trail, trail')
      ensures planner.pools == ReleaseAll(conf.tb, pt0.tier, OnPools(conf, pt, F.Growth(target, HeldShares(pt0))), old(planner.pools))
    {
      hide Walked, Steady, AllServedAt, F.Growth, Carried, StaysWithin, LogServed;
      ghost var grown := planner.pools;
      var shrink := OnPools(conf, pt, F.Growth(target, HeldShares(pt)));
      HeldDistinct(pt0);
      ShrinkCovered(conf, pt0, pt, HeldShares(pt0), target, start, grown);
      CarriedItself(conf, pt0, start, trail);
      ops', trail' := ops, trail;
      if shrink != [] {
        ops', trail' := Drop(pt.tier, shrink, ops, trail);
        ShrinkCarried(conf, pt0, pt, target, start, grown, trail, planner.pools);
        StaysWithinTransitive(conf.tb, start, grown, planner.pools);
      } else {
        assert Exchanged(conf.tb, pt0.tier, shrink, pt0.tier, [], grown, grown);
      }
      MoveEnds(conf, pt0, pt, HeldShares(pt0), target, start, grown, planner.pools);
    }

    /** Move `pt` to the split of `next`, which differs from it only in that. */
    method Resplit(ghost pt0: Pt, pt: Pt, next: Pt, ceiling: nat, now: Timestamp, ops: seq<PlanOp>, ghost trail: Trail)
      returns (err: Option<PlanError>, pt': Pt, ops': seq<PlanOp>, ghost trail': Trail)
      requires Ready() && OnTrack(conf, pt0, pt, ops, trail, planner.pools)
      requires AllServedAt(conf, pt, pt0.ceiling, HeldShares(pt), planner.pools)
      requires ValidPt(pt) && ValidPt(next) && next == pt.(regions := next.regions, moved := next.moved, headroom := next.headroom)
      modifies planner`pools
      ensures Ready() && Logged(conf.tb, trail', ops', planner.pools) && trail'.First() == trail.First()
      ensures LogServed(conf.tb, pt0.model, pt0.ceiling, trail') && Carried(conf, pt, old(planner.pools), trail, trail')
      ensures err.Some? ==> pt' == pt
      ensures var m := MovedTo(conf, pt, HeldShares(next), ceiling, Max(pt.termStart, now), old(planner.pools));
        err == m.0 && planner.pools == m.2 && (err.None? ==> pt' == next.(placements := m.1.placements))
      ensures Lowers(conf, pt, MoveReleased(conf, pt, HeldShares(next), ceiling, Max(pt.termStart, now), old(planner.pools)),
                     old(planner.pools), planner.pools)
      ensures err.None? && (forall s :: s in HeldShares(pt) ==> F.Has(HeldShares(next), s.region))
        && AllServedAt(conf, pt', ceiling, HeldShares(pt'), planner.pools)
        ==> AllServedAt(conf, pt, ceiling, HeldShares(pt), old(planner.pools))
      ensures err.None? ==>
        && pt' == next.(placements := pt'.placements) && OnTrack(conf, pt0, pt', ops', trail', planner.pools)
        && AllServedAt(conf, pt', Min(pt0.ceiling, ceiling), HeldShares(pt'), planner.pools)
    {
      hide Carried, Walked, Steady, AllGrown, F.Growth, StaysWithin, Halfway, Lowers, MoveReleased;
      hide Covers, Exchanged, LogServed, Relocations, AllServedAt, ServedAt, F.Footprint, ReleaseAll, CostOf;
      ghost var a := planner.pools;
      ExchangedCovers(conf.tb, pt0.tier, Pooled(conf, pt0), pt.tier, Pooled(conf, pt), trail.First(), a);
      HeldDistinct(next);
      var moved;
      ghost var done;
      err, moved, ops', trail', done := MoveCapacity(pt, HeldShares(next), ceiling, now, ops, trail);
      StillServed(conf, pt0, pt, ops, trail, a, trail');
      if err.Some? {
        pt' := pt;
        return;
      }
      pt' := next.(placements := moved.placements);
      OnPoolsSame(conf, moved, pt', HeldShares(next));
      ExchangedTransitive(conf.tb, pt0.tier, Pooled(conf, pt0), pt.tier, Pooled(conf, pt), pt.tier, Pooled(conf, pt'), trail.First(), a, planner.pools);
      MovedServed(conf, pt, moved, HeldShares(next), pt0.ceiling, ceiling, a, planner.pools);
      ServedSplit(conf, moved, pt', Min(pt0.ceiling, ceiling), HeldShares(next), planner.pools);
      if (forall s :: s in HeldShares(pt) ==> F.Has(HeldShares(next), s.region)) && AllServedAt(conf, pt', ceiling, HeldShares(pt'), planner.pools) {
        ServedBefore(conf, pt, pt', ceiling, Max(pt.termStart, now), a, planner.pools);
      }
    }

    /** Release all that `pt` holds and reserve `claims` instead. */
    method Swap(pt: Pt, job: Job, claims: seq<Claim>, ops: seq<PlanOp>, ghost trail: Trail)
      returns (r: Result<seq<PoolShare>, PlanError>, ops': seq<PlanOp>, ghost trail': Trail)
      requires Ready() && Logged(conf.tb, trail, ops, planner.pools)
      requires Covers(conf.tb, pt.tier, Pooled(conf, pt), planner.pools)
      modifies planner`pools
      ensures Ready() && Logged(conf.tb, trail', ops', planner.pools) && trail'.First() == trail.First()
      ensures SamePools(old(planner.pools), planner.pools)
      ensures Carried(conf, pt, old(planner.pools), trail, trail')
      ensures Lowers(conf, pt, All(), old(planner.pools), planner.pools)
      ensures (r, planner.pools) == Exchange(conf, pt, job, claims, old(planner.pools))
      ensures r.Ok? ==>
        && Exchanged(conf.tb, pt.tier, Pooled(conf, pt), job.tier, r.value, old(planner.pools), planner.pools)
        && |r.value| == |claims| && (forall i :: 0 <= i < |claims| ==> Answers(claims[i], r.value[i]))
        && AllServed(conf.tb, job, r.value, planner.pools)
    {
      hide ReserveAll, ReleaseAll, Carried, Walked, Steady, StaysWithin, Lowers;
      ghost var a := planner.pools;
      var gone := Pooled(conf, pt);
      ops', trail' := Drop(pt.tier, gone, ops, trail);
      ghost var b, t := planner.pools, trail';
      DropCarried(conf, pt, trail, b);
      r, ops', trail' := Take(job, claims, pt.termStart, ops', trail');
      SamePoolsTransitive(a, b, planner.pools);
      DropLowers(conf, pt, job.tier, if r.Ok? then r.value else [], a, b, planner.pools);
      if r.Ok? {
        TakeCarried(conf, pt, a, t, job.tier, r.value, planner.pools);
        CarriedTransitive(conf, pt, a, trail, t, trail');
        ReleasedThenReserved(conf.tb, pt.tier, gone, job.tier, r.value, a, b, planner.pools);
      }
    }

    /** A reservation not yet started holds the same shares at another tier's cost. */
    method Retier(ghost pt0: Pt, pt: Pt, tier: Tier, ceiling: nat, ops: seq<PlanOp>, ghost trail: Trail)
      returns (err: Option<PlanError>, pt': Pt, ops': seq<PlanOp>, ghost trail': Trail)
      requires Ready() && OnTrack(conf, pt0, pt, ops, trail, planner.pools)
      requires AllServedAt(conf, pt, pt0.ceiling, HeldShares(pt), planner.pools)
      modifies planner`pools
      ensures Ready() && Logged(conf.tb, trail', ops', planner.pools) && trail'.First() == trail.First()
      ensures LogServed(conf.tb, pt0.model, pt0.ceiling, trail') && Carried(conf, pt, old(planner.pools), trail, trail')
      ensures err.Some? ==> pt' == pt
      ensures var w := Exchange(conf, pt, Job(pt.model, tier, ceiling), AsClaims(Pooled(conf, pt)), old(planner.pools));
        err == (if w.0.Err? then Some(w.0.error) else None) && planner.pools == w.1
      ensures Lowers(conf, pt, All(), old(planner.pools), planner.pools)
      ensures err.None? ==>
        && pt' == pt.(tier := tier) && OnTrack(conf, pt0, pt', ops', trail', planner.pools)
        && AllServedAt(conf, pt', Max(pt0.ceiling, ceiling), HeldShares(pt'), planner.pools)
    {
      hide Carried, Walked, Steady, ReserveAll, ReleaseAll, Lowers, Exchange;
      ghost var a := planner.pools;
      var current := Pooled(conf, pt);
      ExchangedCovers(conf.tb, pt0.tier, Pooled(conf, pt0), pt.tier, current, trail.First(), a);
      var r;
      r, ops', trail' := Swap(pt, Job(pt.model, tier, ceiling), AsClaims(current), ops, trail);
      StillServed(conf, pt0, pt, ops, trail, a, trail');
      if r.Err? {
        return Some(r.error), pt, ops', trail';
      }
      err, pt' := None, pt.(tier := tier);
      NamedComeBack(current, r.value);
      OnPoolsSame(conf, pt, pt', HeldShares(pt));
      RetierServed(conf, pt, tier, pt0.ceiling, ceiling, a, planner.pools);
      ExchangedTransitive(conf.tb, pt0.tier, Pooled(conf, pt0), pt.tier, current, tier, current, trail.First(), a, planner.pools);
    }

    /** A reservation not yet started takes the split of `next` afresh. */
    method Replan(ghost pt0: Pt, pt: Pt, next: Pt, ceiling: nat, ops: seq<PlanOp>, ghost trail: Trail)
      returns (err: Option<PlanError>, pt': Pt, ops': seq<PlanOp>, ghost trail': Trail)
      requires Ready() && OnTrack(conf, pt0, pt, ops, trail, planner.pools)
      requires AllServedAt(conf, pt, pt0.ceiling, HeldShares(pt), planner.pools)
      requires ValidPt(next) && next == pt.(regions := next.regions, moved := next.moved, headroom := next.headroom)
      modifies planner`pools
      ensures Ready() && Logged(conf.tb, trail', ops', planner.pools) && trail'.First() == trail.First()
      ensures LogServed(conf.tb, pt0.model, pt0.ceiling, trail') && Carried(conf, pt, old(planner.pools), trail, trail')
      ensures err.Some? ==> pt' == pt
      ensures err.None? <==> FitsAfresh(conf, pt, next, ceiling, old(planner.pools))
      ensures var w := Exchange(conf, pt, Job(pt.model, pt.tier, ceiling), ClaimsFor(conf, pt, HeldShares(next)), old(planner.pools));
        planner.pools == w.1 && if w.0.Err? then err == Some(w.0.error) else err.None? && pt' == Record(next, w.0.value)
      ensures Lowers(conf, pt, All(), old(planner.pools), planner.pools)
      ensures err.None? ==>
        && pt' == next.(placements := pt'.placements) && OnTrack(conf, pt0, pt', ops', trail', planner.pools)
        && AllServedAt(conf, pt', ceiling, HeldShares(pt'), planner.pools)
    {
      hide Carried, Walked, Steady, ReserveAll, ReleaseAll, Lowers;
      ghost var a := planner.pools;
      ExchangedCovers(conf.tb, pt0.tier, Pooled(conf, pt0), pt.tier, Pooled(conf, pt), trail.First(), a);
      var claims := ClaimsFor(conf, pt, HeldShares(next));
      var r;
      r, ops', trail' := Swap(pt, Job(pt.model, pt.tier, ceiling), claims, ops, trail);
      StillServed(conf, pt0, pt, ops, trail, a, trail');
      if r.Err? {
        return Some(r.error), pt, ops', trail';
      }
      err, pt' := None, Record(next, r.value);
      Replanned(conf, pt, next, r.value, ceiling, planner.pools);
      ExchangedTransitive(conf.tb, pt0.tier, Pooled(conf, pt0), pt.tier, Pooled(conf, pt), pt.tier, r.value, trail.First(), a, planner.pools);
    }

    /** Undo a log, last call first. */
    method Undo(model: string, ceiling: nat, ops: seq<PlanOp>)
      requires Ready()
      modifies planner`pools
      ensures Ready() && planner.pools == UndoAll(conf.tb, model, ceiling, ops, old(planner.pools))
      ensures StaysWithin(conf.tb, old(planner.pools), planner.pools)
    {
      hide StaysWithin;
      StaysWithinItself(conf.tb, planner.pools);
      var n := |ops|;
      assert ops[..n] == ops;
      while n > 0
        invariant 0 <= n <= |ops| && Ready() && StaysWithin(conf.tb, old(planner.pools), planner.pools)
        invariant UndoAll(conf.tb, model, ceiling, ops, old(planner.pools)) == UndoAll(conf.tb, model, ceiling, ops[..n], planner.pools)
      {
        n := n - 1;
        assert ops[..n + 1][..n] == ops[..n] && ops[..n + 1][n] == ops[n];
        ghost var a := planner.pools;
        match ops[n] {
          case Reserved(tier, shares) =>
            planner.Release(tier, shares);
            ReleaseLowers(conf.tb, tier, shares, a);
            ReleaseStaysWithin(conf.tb, tier, shares, a);
          case Released(tier, shares) =>
            var r := planner.Reserve(Job(model, tier, ceiling), AsClaims(shares), TIMESTAMP_MAX);
            if r.Ok? {
              ReserveKeepsWithin(conf.tb, Job(model, tier, ceiling), TIMESTAMP_MAX, AsClaims(shares), a);
            } else {
              StaysWithinItself(conf.tb, a);
            }
        }
        StaysWithinTransitive(conf.tb, old(planner.pools), a, planner.pools);
        assert planner.pools == UndoOne(conf.tb, model, ceiling, ops[n], a);
        if planner.pools != a {
          ConfiguredSame(conf, a, planner.pools);
        }
      }
    }

    /** `planner.check_shape`: every claim has a pool that serves. */
    method CheckShape(model: string, claims: seq<Claim>, ceiling: nat) returns (err: Option<PlanError>)
      ensures err.None? <==> forall c :: c in claims ==> ShapeOk(planner.tb, model, ceiling, c, planner.pools)
    {
      for i := 0 to |claims|
        invariant forall j :: 0 <= j < i ==> ShapeOk(planner.tb, model, ceiling, claims[j], planner.pools)
      {
        var r := PlaceByScan(planner.tb, Job(model, Standard, ceiling), claims[i], None, planner.pools);
        if r.Err? {
          assert !ShapeOk(planner.tb, model, ceiling, claims[i], planner.pools);
          return Some(r.error);
        }
      }
      return None;
    }

    /** Rebalancing switched off goes back to the contract split. */
    method ApplyRebalance(pt0: Pt, pt: Pt, rebalance: Option<bool>, now: Timestamp, ops: seq<PlanOp>, ghost trail: Trail)
      returns (err: Option<Failure>, pt': Pt, ops': seq<PlanOp>, ghost trail': Trail)
      requires Ready() && OnTrack(conf, pt0, pt, ops, trail, planner.pools) && pt.ceiling == pt0.ceiling
      requires AllServedAt(conf, pt, pt0.ceiling, HeldShares(pt), planner.pools)
      modifies planner`pools
      ensures Ready() && Logged(conf.tb, trail', ops', planner.pools) && trail'.First() == trail.First()
      ensures LogServed(conf.tb, pt0.model, pt0.ceiling, trail') && Carried(conf, pt, old(planner.pools), trail, trail')
      ensures pt'.ceiling == pt0.ceiling && pt'.model == pt0.model && (err.Some? ==> err.value.Capacity?)
      ensures err.None? ==>
        && OnTrack(conf, pt0, pt', ops', trail', planner.pools)
        && AllServedAt(conf, pt', pt0.ceiling, HeldShares(pt'), planner.pools)
        && SameButPlaced(pt', WithRebalance(conf, pt, rebalance))
      ensures !Unmoves(pt, rebalance) ==>
        err.None? && SameHolding(pt, pt') && planner.pools == old(planner.pools) && trail' == trail && (rebalance.None? ==> pt' == pt)
      ensures var u := Unmoved(conf, pt, rebalance, now, old(planner.pools));
        err == Passed(u.0) && planner.pools == u.2 && (err.None? ==> pt' == u.1)
      ensures Lowers(conf, pt, UnmoveReleased(conf, pt, rebalance, now, old(planner.pools)), old(planner.pools), planner.pools)
    {
      hide Carried, Lowers, MoveReleased;
      NothingLowered(conf, pt, iset{}, planner.pools);
      CarriedItself(conf, pt, planner.pools, trail);
      err, pt', ops', trail' := None, pt, ops, trail;
      if rebalance.Some? && rebalance.value != pt.rebalance {
        pt' := pt.(rebalance := rebalance.value);
        SameHoldingOnTrack(conf, pt0, pt, pt', pt0.ceiling, ops, trail, planner.pools);
        if !rebalance.value && pt.moved != [] {
          WithRegionsValid(conf, pt', pt.regions);
          var e;
          ghost var flipped, a := pt', planner.pools;
          e, pt', ops', trail' := Resplit(pt0, pt', WithRegions(conf, pt', pt.regions), pt.ceiling, now, ops, trail);
          CarriedSame(conf, pt, flipped, a, trail, trail');
          LowersSame(conf, pt, flipped, UnmoveReleased(conf, pt, rebalance, now, a), a, planner.pools);
          if e.Some? {
            err := Some(Failure.Capacity(e.value));
          }
        }
      }
    }

    /** Before the term starts a new tier is held at once; after, it waits for the next term. */
    method ApplyTier(pt0: Pt, pt: Pt, tier: Option<Tier>, ceiling: nat, ops: seq<PlanOp>, ghost trail: Trail)
      returns (err: Option<Failure>, pt': Pt, later: Option<Option<Tier>>, ops': seq<PlanOp>, ghost trail': Trail)
      requires Ready() && OnTrack(conf, pt0, pt, ops, trail, planner.pools) && pt.ceiling == pt0.ceiling
      requires AllServedAt(conf, pt, pt0.ceiling, HeldShares(pt), planner.pools)
      modifies planner`pools
      ensures Ready() && Logged(conf.tb, trail', ops', planner.pools) && trail'.First() == trail.First()
      ensures LogServed(conf.tb, pt0.model, pt0.ceiling, trail') && Carried(conf, pt, old(planner.pools), trail, trail')
      ensures pt'.ceiling == pt0.ceiling && pt'.model == pt0.model && (err.Some? ==> err.value.Capacity?)
      ensures err.None? ==>
        && OnTrack(conf, pt0, pt', ops', trail', planner.pools)
        && AllServedAt(conf, pt', pt0.ceiling, HeldShares(pt'), planner.pools)
        && pt' == WithTier(pt, tier) && later == LaterTier(pt', tier)
      ensures !Retiers(pt, tier) ==> err.None? && pt' == pt && planner.pools == old(planner.pools) && trail' == trail
      ensures var t := Retiered(conf, pt, tier, ceiling, old(planner.pools));
        err == Passed(t.0) && pt' == t.1 && planner.pools == t.2
      ensures Lowers(conf, pt, RetierReleased(pt, tier), old(planner.pools), planner.pools)
      ensures err.None? && AllServedAt(conf, pt, ceiling, HeldShares(pt), old(planner.pools))
        ==> AllServedAt(conf, pt', ceiling, HeldShares(pt'), planner.pools)
    {
      hide Carried, Lowers, Exchange;
      CarriedItself(conf, pt, planner.pools, trail);
      NothingLowered(conf, pt, iset{}, planner.pools);
      err, pt', later, ops', trail' := None, pt, None, ops, trail;
      if tier.Some? {
        if pt.state == Scheduled {
          if tier.value != pt.tier {
            var e;
            e, pt', ops', trail' := Retier(pt0, pt, tier.value, ceiling, ops, trail);
            if e.Some? {
              err := Some(Failure.Capacity(e.value));
            } else {
              AllServedSmaller(conf, pt', Max(pt0.ceiling, ceiling), pt0.ceiling, HeldShares(pt'), planner.pools);
              AllServedSmaller(conf, pt', Max(pt0.ceiling, ceiling), ceiling, HeldShares(pt'), planner.pools);
            }
          }
        } else if tier.value != pt.tier {
          later := Some(tier);
        } else {
          later := Some(None);
        }
      }
    }

    /** Before the term starts a new split is taken afresh; after, an increase is taken at
        once and anything else waits for the next term. */
    method ApplyRegions(pt0: Pt, pt: Pt, regions: Option<seq<F.RegionShare>>, ceiling: nat, now: Timestamp, salesOpen: bool,
                        ops: seq<PlanOp>, ghost trail: Trail)
      returns (err: Option<Failure>, pt': Pt, later: Option<Option<seq<F.RegionShare>>>, ops': seq<PlanOp>, ghost trail': Trail)
      requires Ready() && OnTrack(conf, pt0, pt, ops, trail, planner.pools) && pt.ceiling == pt0.ceiling
      requires AllServedAt(conf, pt, pt0.ceiling, HeldShares(pt), planner.pools)
      requires regions.Some? ==> F.Whole(regions.value)
      modifies planner`pools
      ensures Ready() && Logged(conf.tb, trail', ops', planner.pools) && trail'.First() == trail.First()
      ensures LogServed(conf.tb, pt0.model, pt0.ceiling, trail') && Carried(conf, pt, old(planner.pools), trail, trail')
      ensures pt'.ceiling == pt0.ceiling && pt'.model == pt0.model
      ensures err.Some? ==> err.value.Capacity? || err.value.SalesPaused?
      ensures err.None? ==>
        && OnTrack(conf, pt0, pt', ops', trail', planner.pools)
        && AllServedAt(conf, pt', Min(pt0.ceiling, ceiling), HeldShares(pt'), planner.pools)
        && SameButPlaced(pt', WithNewRegions(conf, pt, regions)) && later == LaterRegions(pt, regions)
        && (regions.Some? ==> salesOpen)
      ensures (err, pt', planner.pools) == Divided(conf, pt, regions, ceiling, now, salesOpen, old(planner.pools))
      ensures Lowers(conf, pt, SplitReleased(conf, pt, regions, ceiling, now, salesOpen, old(planner.pools)), old(planner.pools), planner.pools)
      ensures err.None? && pt.state != Scheduled && pt.moved == [] && Backed(conf, pt)
        && AllServedAt(conf, pt', ceiling, HeldShares(pt'), planner.pools)
        ==> AllServedAt(conf, pt, ceiling, HeldShares(pt), old(planner.pools))
    {
      hide Carried, FitsAfresh, Lowers, MoveReleased, MovedTo, Exchange, Covers, Exchanged, LogServed, Walked, Steady, AllServedAt, F.Footprint, F.Headroom;
      CarriedItself(conf, pt, planner.pools, trail);
      NothingLowered(conf, pt, iset{}, planner.pools);
      err, pt', later, ops', trail' := None, pt, None, ops, trail;
      AllServedSmaller(conf, pt, pt0.ceiling, Min(pt0.ceiling, ceiling), HeldShares(pt), planner.pools);
      if regions.None? {
        return;
      }
      if !salesOpen {
        err := Some(SalesPaused);
        return;
      }
      var next := WithRegions(conf, pt, regions.value);
      WithRegionsValid(conf, pt, regions.value);
      SameSplitNoGrowth(pt.regions);
      var e := None;
      if pt.state == Scheduled {
        if regions.value != pt.regions {
          e, pt', ops', trail' := Replan(pt0, pt, next, ceiling, ops, trail);
          if e.None? {
            AllServedSmaller(conf, pt', ceiling, Min(pt0.ceiling, ceiling), HeldShares(pt'), planner.pools);
          }
        }
      } else if IncreasesOnly(pt.regions, regions.value) {
        if F.Growth(pt.regions, regions.value) != [] {
          IncreaseKeepsAll(conf, pt, regions.value);
          e, pt', ops', trail' := Resplit(pt0, pt, next, ceiling, now, ops, trail);
        }
        if e.None? && pt'.pending.Some? && pt'.pending.value.regions.Some? {
          later := Some(None);
        }
      } else {
        later := Some(regions);
      }
      if e.Some? {
        err := Some(Failure.Capacity(e.value));
      }
    }

    /** A new shape must be served by what is held. */
    method ApplyShape(pt0: Pt, pt: Pt, ceiling: Option<nat>, ghost ops: seq<PlanOp>, ghost trail: Trail)
      returns (err: Option<Failure>, pt': Pt)
      requires Ready() && OnTrack(conf, pt0, pt, ops, trail, planner.pools) && pt.ceiling == pt0.ceiling
      requires AllServedAt(conf, pt, Min(pt0.ceiling, if ceiling.Some? then ceiling.value else pt0.ceiling), HeldShares(pt), planner.pools)
      ensures err.Some? ==> pt' == pt && err.value.Capacity?
      ensures err.Some? <==> ShapeRefused(conf, pt, ceiling, planner.pools)
      ensures err.None? ==>
        && pt' == pt.(ceiling := if ceiling.Some? then ceiling.value else pt.ceiling)
        && OnTrack(conf, pt0, pt', ops, trail, planner.pools) && Healthy(conf, pt', planner.pools)
        && AllServedAt(conf, pt, pt'.ceiling, HeldShares(pt), planner.pools)
    {
      err, pt' := None, pt;
      if ceiling.Some? && ceiling.value != pt.ceiling {
        var e := CheckShape(pt.model, ClaimsFor(conf, pt, HeldShares(pt)), ceiling.value);
        if e.Some? {
          err := Some(Failure.Capacity(e.value));
          return;
        }
        pt' := pt.(ceiling := ceiling.value);
        ShapeChecked(conf, pt, Min(pt0.ceiling, ceiling.value), ceiling.value, planner.pools);
        SameHoldingOnTrack(conf, pt0, pt, pt', ceiling.value, ops, trail, planner.pools);
      }
    }

    /** The parts of an update before its split: renewal, rebalancing, tier. `pt1` and `p1` are
        what rebalancing left. */
    method ApplyBegun(pt0: Pt, req: UpdateRequest, ceiling: nat, now: Timestamp, ghost salesOpen: bool)
      returns (err: Option<Failure>, pt: Pt, laterTier: Option<Option<Tier>>, ops: seq<PlanOp>, ghost trail: Trail, ghost pt1: Pt, ghost p1: seq<PoolView>)
      requires Ready() && ValidPt(pt0) && Backed(conf, pt0) && Healthy(conf, pt0, planner.pools) && ceiling == NewCeiling(pt0, req)
      requires Covers(conf.tb, pt0.tier, Pooled(conf, pt0), planner.pools)
      modifies planner`pools
      ensures Ready() && Logged(conf.tb, trail, ops, planner.pools) && trail.First() == old(planner.pools)
      ensures LogServed(conf.tb, pt0.model, pt0.ceiling, trail) && pt.model == pt0.model && pt.ceiling == pt0.ceiling
      ensures var b := BegunAs(conf, pt0, req, now, old(planner.pools));
        err == Passed(b.0) && (err.None? ==> pt == b.1 && planner.pools == b.2)
      ensures err.Some? ==>
        && err.value.Capacity?
        && Lowers(conf, pt0, UpdateReleased(conf, pt0, req, now, salesOpen, old(planner.pools)), old(planner.pools), planner.pools)
      ensures err.None? ==>
        && OnTrack(conf, pt0, pt, ops, trail, planner.pools) && Backed(conf, pt)
        && AllServedAt(conf, pt, pt0.ceiling, HeldShares(pt), planner.pools)
        && SameButPlaced(pt, Begun(conf, pt0, req)) && laterTier == LaterTier(Begun(conf, pt0, req), req.tier)
      ensures err.None? ==> BegunTo(conf, pt0, req, now, pt1, pt, old(planner.pools), p1, planner.pools)
      ensures err.None? && Unmoves(WithAutoRenew(pt0, req.autoRenew), req.rebalance) ==> pt.moved == [] && pt.state != Scheduled
      ensures err.None? && AllServedAt(conf, pt0, ceiling, HeldShares(pt0), old(planner.pools))
        && (Unmoves(WithAutoRenew(pt0, req.autoRenew), req.rebalance) ==> AllServedAt(conf, pt, ceiling, HeldShares(pt), planner.pools))
        ==> LogServed(conf.tb, pt0.model, ceiling, trail) && AllServedAt(conf, pt, ceiling, HeldShares(pt), planner.pools)
    {
      hide LogServed, AllServedAt, Walked, Steady, Covers, Exchanged, Healthy, HeldShares, OnPools, Carried;
      hide WithRebalance, WithTier, LaterTier, Logged, DistinctKeys, Configured;
      hide Lowers, UnmoveReleased, RetierReleased, UpdateReleased, Unmoved, Retiered;
      ghost var start := planner.pools;
      pt := WithAutoRenew(pt0, req.autoRenew);
      ops, trail, laterTier, pt1, p1 := [], Start(planner.pools), None, pt, start;
      UntouchedOnTrack(conf, pt0, pt, start);
      ghost var base := pt;
      err, pt, ops, trail := ApplyRebalance(pt0, pt, req.rebalance, now, ops, trail);
      if err.Some? {
        UnmoveFailedLowers(conf, pt0, req, now, salesOpen, start, planner.pools);
        return;
      }
      StepsIgnorePlacements(conf, pt, WithRebalance(conf, base, req.rebalance), req);
      pt1, p1 := pt, planner.pools;
      ghost var t1 := trail;
      err, pt, laterTier, ops, trail := ApplyTier(pt0, pt, req.tier, ceiling, ops, trail);
      RebalanceKeeps(conf, base, req.rebalance, pt1, req.tier);
      BegunLowers(conf, pt0, req, now, base, pt1, start, p1, planner.pools);
      if err.Some? {
        RetierFailedLowers(conf, pt0, req, now, salesOpen, base, start, planner.pools);
        return;
      }
      StepsIgnorePlacements(conf, pt, Begun(conf, pt0, req), req);
      BegunBacked(conf, pt0, req, base, pt1, pt);
      if AllServedAt(conf, pt0, ceiling, HeldShares(pt0), start) {
        BegunServed(conf, pt0, base, pt1, pt, ceiling, start, p1, planner.pools, t1, trail);
      }
    }

    /** The parts of an update that change what is held. */
    method ApplyHolding(pt0: Pt, req: UpdateRequest, ceiling: nat, now: Timestamp, salesOpen: bool)
      returns (err: Option<Failure>, pt: Pt, laterTier: Option<Option<Tier>>, laterRegions: Option<Option<seq<F.RegionShare>>>,
               ops: seq<PlanOp>, ghost trail: Trail)
      requires Ready() && ValidPt(pt0) && Backed(conf, pt0) && Healthy(conf, pt0, planner.pools) && ceiling == NewCeiling(pt0, req)
      requires Covers(conf.tb, pt0.tier, Pooled(conf, pt0), planner.pools)
      requires req.regions.Some? ==> F.Whole(req.regions.value)
      modifies planner`pools
      ensures Ready() && Logged(conf.tb, trail, ops, planner.pools) && trail.First() == old(planner.pools)
      ensures LogServed(conf.tb, pt0.model, pt0.ceiling, trail) && pt.model == pt0.model && pt.ceiling == pt0.ceiling
      ensures err.Some? ==> err.value.Capacity? || err.value.SalesPaused?
      ensures var b := BegunAs(conf, pt0, req, now, old(planner.pools));
        var d := Divided(conf, b.1, req.regions, ceiling, now, salesOpen, b.2);
        && (err.None? <==> b.0.None? && d.0.None?) && (err.None? ==> pt == d.1 && planner.pools == d.2)
        && err == StoppedBy(conf, pt0, req, now, salesOpen, old(planner.pools))
      ensures Lowers(conf, pt0, UpdateReleased(conf, pt0, req, now, salesOpen, old(planner.pools)), old(planner.pools), planner.pools)
      ensures err.None? ==>
        && OnTrack(conf, pt0, pt, ops, trail, planner.pools)
        && AllServedAt(conf, pt, Min(pt0.ceiling, ceiling), HeldShares(pt), planner.pools)
      ensures err.None? ==>
        && SameButPlaced(pt, WithNewRegions(conf, Begun(conf, pt0, req), req.regions))
        && laterTier == LaterTier(Begun(conf, pt0, req), req.tier) && laterRegions == LaterRegions(Begun(conf, pt0, req), req.regions)
        && (req.regions.Some? ==> salesOpen)
      ensures err.None? && AllServedAt(conf, pt, ceiling, HeldShares(pt), planner.pools)
        && AllServedAt(conf, pt0, ceiling, HeldShares(pt0), old(planner.pools))
        ==> LogServed(conf.tb, pt0.model, ceiling, trail)
    {
      hide LogServed, AllServedAt, Walked, Steady, Covers, Exchanged, Healthy, HeldShares, OnPools, Carried, FitsAfresh;
      hide WithTier, LaterTier, WithNewRegions, LaterRegions, Logged, DistinctKeys, Configured, F.Whole, Begun;
      hide Lowers, SplitReleased, UpdateReleased, BegunTo, BegunAs, Divided;
      ghost var start := planner.pools;
      ghost var pt1, p1;
      laterRegions := None;
      err, pt, laterTier, ops, trail, pt1, p1 := ApplyBegun(pt0, req, ceiling, now, salesOpen);
      if err.Some? {
        return;
      }
      StepsIgnorePlacements(conf, pt, Begun(conf, pt0, req), req);
      ghost var pt2, p2, t2 := pt, planner.pools, trail;
      err, pt, laterRegions, ops, trail := ApplyRegions(pt0, pt, req.regions, ceiling, now, salesOpen, ops, trail);
      HoldingLowers(conf, pt0, req, now, salesOpen, pt1, pt2, start, p1, p2, planner.pools);
      if err.None? && AllServedAt(conf, pt, ceiling, HeldShares(pt), planner.pools) && AllServedAt(conf, pt0, ceiling, HeldShares(pt0), start) {
        CarriedServed(conf, pt2, ceiling, p2, t2, trail);
      }
    }

    /** Everything an update does, in the order it does it. */
    method ApplyUpdate(pt0: Pt, req: UpdateRequest, now: Timestamp, salesOpen: bool)
      returns (err: Option<Failure>, pt: Pt, ops: seq<PlanOp>, ghost trail: Trail)
      requires Ready() && ValidPt(pt0) && Backed(conf, pt0) && Healthy(conf, pt0, planner.pools)
      requires Covers(conf.tb, pt0.tier, Pooled(conf, pt0), planner.pools)
      requires req.regions.Some? ==> F.Whole(req.regions.value)
      modifies planner`pools
      ensures Ready() && Logged(conf.tb, trail, ops, planner.pools) && trail.First() == old(planner.pools)
      ensures LogServed(conf.tb, pt0.model, pt0.ceiling, trail) && pt.model == pt0.model
      ensures err.Some? && !err.value.NoNextTerm? <==> Refused(conf, pt0, req, now, salesOpen, old(planner.pools))
      ensures var stop := StoppedBy(conf, pt0, req, now, salesOpen, old(planner.pools));
        if stop.Some? then err == stop else err.Some? && !err.value.NoNextTerm? ==> err.value.Capacity?
      ensures err.Some? && err.value.NoNextTerm? <==> !Refused(conf, pt0, req, now, salesOpen, old(planner.pools)) && LacksTerm(conf, pt0, req)
      ensures err.Some? ==> err.value.NoNextTerm? || ((err.value.Capacity? || err.value.SalesPaused?) && pt.ceiling == pt0.ceiling)
      ensures Lowers(conf, pt0, UpdateReleased(conf, pt0, req, now, salesOpen, old(planner.pools)), old(planner.pools), planner.pools)
      ensures err.None? || err.value.NoNextTerm? ==>
        && pt.ceiling == NewCeiling(pt0, req)
        && OnTrack(conf, pt0, pt, ops, trail, planner.pools) && Healthy(conf, pt, planner.pools)
        && (ServesNew(conf, pt0, req, old(planner.pools))
        ==> LogServed(conf.tb, pt0.model, pt.ceiling, trail))
      ensures err.None? ==> SameButPlaced(pt, Updated(conf, pt0, req)) && (req.regions.Some? ==> salesOpen)
      ensures err.None? ==> planner.pools == PoolsAfter(conf, pt0, req, now, salesOpen, old(planner.pools))
    {
      hide LogServed, AllServedAt, Walked, Steady, Covers, Exchanged, Healthy, HeldShares, OnPools, FitsAfresh, Lowers, UpdateReleased;
      hide Begun, WithNewRegions, LaterTier, LaterRegions, WithPending, Updated, BegunAs, Divided, ShapeRefused;
      var laterTier, laterRegions;
      var ceiling := NewCeiling(pt0, req);
      ghost var start := planner.pools;
      err, pt, laterTier, laterRegions, ops, trail := ApplyHolding(pt0, req, ceiling, now, salesOpen);
      if err.Some? {
        return;
      }
      UpdatedFrom(conf, pt0, req, pt);
      err, pt := ApplyShape(pt0, pt, req.ceiling, ops, trail);
      if err.Some? {
        return;
      }
      var wants := Asks(laterTier) || Asks(laterRegions);
      if wants && pt.state == PendingCancellation {
        err := Some(NoNextTerm);
        return;
      }
      LaterWhole(Begun(conf, pt0, req), req.regions);
      PendingOnTrack(conf, pt0, pt, laterTier, laterRegions, ops, trail, planner.pools);
      pt := WithPending(pt, laterTier, laterRegions);
    }

    // -------------------------------------------------------------------------
    // Whole operations
    // -------------------------------------------------------------------------

    /** Counters are exactly what live reservations hold, on pools that serve them. */
    ghost predicate Valid()
      reads this, planner
    {
      Ready() && Conserved(conf, store, planner.pools) && AllHealthy(conf, store, planner.pools)
    }

    /** Save `next` in place of reservation `i`, whose counters have been exchanged. */
    method Save(i: nat, next: Pt, ghost a: seq<PoolView>)
      requires Ready() && i < |store| && Conserved(conf, store, a) && AllHealthy(conf, store, a)
      requires Exchanged(conf.tb, store[i].tier, HeldBy(conf, store[i]), next.tier, HeldBy(conf, next), a, planner.pools)
      requires ValidPt(next) && Backed(conf, next) && (IsLive(next.state) ==> Healthy(conf, next, planner.pools))
      modifies this`store
      ensures Valid() && store == old(store)[i := next]
    {
      ConservedExchange(conf, store, i, next, a, planner.pools);
      HealthyUpdate(conf, store, i, next, a, planner.pools);
      store := store[i := next];
    }

    /** `persist`: forget stale placements, then save. */
    method Persist(i: nat, pt: Pt, ghost a: seq<PoolView>)
      requires Ready() && i < |store| && Conserved(conf, store, a) && AllHealthy(conf, store, a)
      requires Exchanged(conf.tb, store[i].tier, HeldBy(conf, store[i]), pt.tier, HeldBy(conf, pt), a, planner.pools)
      requires ValidPt(pt) && Backed(conf, pt) && (IsLive(pt.state) ==> Healthy(conf, pt, planner.pools))
      modifies this`store
      ensures Valid() && store == old(store)[i := Tidy(pt)]
    {
      TidyHealthy(conf, pt, planner.pools);
      Save(i, Tidy(pt), a);
    }

    /** Undo a change to `pt0` that failed and had taken the regions in `released` off pools. */
    method RollBack(ghost pt0: Pt, ghost released: iset<string>, pt: Pt, ops: seq<PlanOp>, ghost trail: Trail)
      requires Ready() && Logged(conf.tb, trail, ops, planner.pools)
      requires Lowers(conf, pt0, released, trail.First(), planner.pools)
      modifies planner`pools
      ensures Ready() && planner.pools == UndoAll(conf.tb, pt.model, pt.ceiling, ops, old(planner.pools))
      ensures LogServed(conf.tb, pt.model, pt.ceiling, trail) ==>
        if Safe(conf, pt0, released, trail.First()) then planner.pools == trail.First()
        else LowerSomewhere(conf, pt0, trail.First(), planner.pools)
      ensures StaysWithin(conf.tb, trail.First(), planner.pools)
    {
      hide StaysWithin, Lowers, Safe, LowerSomewhere, Walked, Steady, LogServed, StillLower, Spared;
      ghost var a := planner.pools;
      TrailStaysWithin(conf.tb, trail);
      Undo(pt.model, pt.ceiling, ops);
      StaysWithinTransitive(conf.tb, trail.First(), a, planner.pools);
      if LogServed(conf.tb, pt.model, pt.ceiling, trail) {
        UndoIff(conf.tb, pt.model, pt.ceiling, trail, ops, a);
        SparedIffSafe(conf, pt0, released, trail.First(), a);
        if !Safe(conf, pt0, released, trail.First()) {
          UnsafeIsLower(conf, pt0, released, trail.First(), a, planner.pools);
        }
      }
    }

    /** Place and save a new reservation; a failed save puts its capacity back. */
    method Create(blank: Pt, salesOpen: bool, saved: bool) returns (r: Result<Pt, Failure>)
      requires Valid() && F.Whole(blank.regions) && IsLive(blank.state) && blank.pending.None?
      modifies this`store, planner`pools
      ensures Valid()
      ensures r.Ok? ==> salesOpen && saved && store == old(store) + [r.value]
      ensures r.Ok? ==> r.value == WithRegions(conf, blank, blank.regions).(placements := r.value.placements)
      ensures r.Err? ==> store == old(store) && planner.pools == old(planner.pools)
      ensures Created(conf, blank, salesOpen, saved, old(planner.pools), r, planner.pools)
      ensures RaisedWithin(conf.tb, blank.termStart, old(planner.pools), planner.pools)
      ensures StaysWithin(conf.tb, old(planner.pools), planner.pools)
    {
      hide StaysWithin, RaisedWithin;
      ghost var a := planner.pools;
      StaysWithinItself(conf.tb, a);
      RaisedItself(conf.tb, blank.termStart, a);
      if !salesOpen {
        return Err(SalesPaused);
      }
      var pt := WithRegions(conf, blank.(moved := [], headroom := [], placements := map[]), blank.regions);
      WithRegionsValid(conf, blank.(moved := [], headroom := [], placements := map[]), blank.regions);
      var job := Job(pt.model, pt.tier, pt.ceiling);
      var claims := Unplaced(HeldShares(pt));
      var placed, ops;
      ghost var trail;
      placed, ops, trail := Take(job, claims, pt.termStart, [], Start(a));
      if placed.Err? {
        return Err(Failure.Capacity(placed.error));
      }
      CreatedPlaced(conf, pt, placed.value, planner.pools);
      ReserveRaises(conf.tb, job, blank.termStart, claims, a);
      pt := Record(pt, placed.value);
      if !saved {
        ReleaseUndoesReserve(conf.tb, job, pt.termStart, claims, a);
        planner.Release(pt.tier, placed.value);
        return Err(NotSaved);
      }
      CreatedConserved(conf, store, pt, a, planner.pools);
      store := store + [pt];
      r := Ok(pt);
    }

    /** Undo an update of `pt0` that failed. */
    method Abandon(ghost pt0: Pt, ghost req: UpdateRequest, ghost now: Timestamp, ghost salesOpen: bool,
                   pt: Pt, ops: seq<PlanOp>, ghost trail: Trail)
      requires Ready() && Logged(conf.tb, trail, ops, planner.pools) && pt.model == pt0.model && ValidPt(pt0)
      requires Healthy(conf, pt0, trail.First()) && DistinctKeys(trail.First())
      requires Lowers(conf, pt0, UpdateReleased(conf, pt0, req, now, salesOpen, trail.First()), trail.First(), planner.pools)
      requires Refused(conf, pt0, req, now, salesOpen, trail.First()) ==> LogServed(conf.tb, pt0.model, pt.ceiling, trail)
      requires !Refused(conf, pt0, req, now, salesOpen, trail.First()) ==>
        && pt.ceiling == NewCeiling(pt0, req) && OnTrack(conf, pt0, pt, ops, trail, planner.pools) && Healthy(conf, pt, planner.pools)
        && (ServesNew(conf, pt0, req, trail.First()) ==> LogServed(conf.tb, pt0.model, pt.ceiling, trail))
      modifies planner`pools
      ensures Ready() && StaysWithin(conf.tb, trail.First(), planner.pools)
      ensures if Restored(conf, pt0, req, now, salesOpen, trail.First()) then planner.pools == trail.First()
              else LowerSomewhere(conf, pt0, trail.First(), planner.pools)
    {
      hide Logged, LogServed, Healthy, OnTrack, StaysWithin, LowerSomewhere, DistinctKeys, Lowers, Safe, UpdateReleased, ServesNew, Refused;
      if !Refused(conf, pt0, req, now, salesOpen, trail.First()) && !ServesNew(conf, pt0, req, trail.First()) {
        UnservedUpdate(conf, pt0, req, pt, ops, trail, planner.pools);
      }
      RollBack(pt0, UpdateReleased(conf, pt0, req, now, salesOpen, trail.First()), pt, ops, trail);
    }

    /** Save what an update made of reservation `i`. */
    method Keep(i: nat, ghost req: UpdateRequest, pt: Pt, ghost ops: seq<PlanOp>, ghost trail: Trail) returns (next: Pt)
      requires Ready() && i < |store| && Conserved(conf, store, trail.First()) && AllHealthy(conf, store, trail.First())
      requires IsLive(store[i].state) && OnTrack(conf, store[i], pt, ops, trail, planner.pools) && Healthy(conf, pt, planner.pools)
      requires SameButPlaced(pt, Updated(conf, store[i], req))
      modifies this`store
      ensures Valid() && store == old(store)[i := next] && SameButPlaced(next, Updated(conf, old(store)[i], req))
      ensures pt == old(store)[i] ==> next == pt
    {
      hide Conserved, Healthy, Exchanged, Updated, Tidy, Walked, Steady, DistinctKeys, SameButPlaced, Pooled, LogServed, Backed, ValidPt, Configured;
      next := if pt == store[i] then pt else Tidy(pt);
      assert store[i] in store;
      UpdatedLives(conf, store[i], req, pt);
      TidyPlaces(pt);
      UpdatedBacked(conf, store[i], req, next);
      TidyHealthy(conf, pt, planner.pools);
      Save(i, next, trail.First());
    }

    /** Apply a request and save it. A failure at any point undoes the log. One that comes
        after the shape was changed is undone with the new shape. */
    method Update(i: nat, req: UpdateRequest, now: Timestamp, salesOpen: bool, saved: bool) returns (r: Result<Pt, Failure>)
      requires Valid() && i < |store|
      modifies this`store, planner`pools
      ensures Ready()
      ensures r.Ok? ==> Valid() && store == old(store)[i := r.value]
      ensures r.Ok? ==> SameButPlaced(r.value, Updated(conf, old(store)[i], req)) && (req.regions.Some? ==> salesOpen)
      ensures r.Ok? ==> UpdatedNow(conf, old(store)[i], req, r.value) && KeptForLater(old(store)[i], req, r.value)
      ensures r.Ok? ==> RaisedWithin(conf.tb, NeededFrom(old(store)[i], now), old(planner.pools), planner.pools)
      ensures r.Err? ==> store == old(store)
      ensures r.Err? ==>
        if !Attempted(old(store)[i], req) || Restored(conf, old(store)[i], req, now, salesOpen, old(planner.pools))
        then planner.pools == old(planner.pools) && Valid()
        else LowerSomewhere(conf, old(store)[i], old(planner.pools), planner.pools)
      ensures StaysWithin(conf.tb, old(planner.pools), planner.pools)
      ensures Attempted(old(store)[i], req) ==> Answered(conf, old(store)[i], req, now, salesOpen, saved, old(planner.pools), r)
    {
      var pt0 := store[i];
      ghost var a := planner.pools;
      StaysWithinItself(conf.tb, a);
      if !IsLive(pt0.state) {
        return Err(Inactive);
      }
      if req.regions.Some? && !F.Whole(req.regions.value) {
        return Err(Invalid);
      }
      hide LogServed, AllServedAt, Walked, Steady, Covers, Exchanged, Healthy, HeldShares, OnPools, Conserved, Updated, Tidy;
      hide StaysWithin, FitsAfresh, LowerSomewhere, DistinctKeys, Lowers, Restored, UpdateReleased, ServesNew, WithRegions, SameButPlaced, Refused, LacksTerm;
      hide RaisedWithin, UpdatedNow, KeptForLater, PoolsAfter, StoppedBy;
      assert pt0 in store;
      ConservedCovers(conf, store, i, a);
      var err, pt, ops;
      ghost var trail;
      err, pt, ops, trail := ApplyUpdate(pt0, req, now, salesOpen);
      if err.Some? {
        Abandon(pt0, req, now, salesOpen, pt, ops, trail);
        return Err(err.value);
      }
      if !saved && pt != pt0 {
        Abandon(pt0, req, now, salesOpen, pt, ops, trail);
        return Err(NotSaved);
      }
      TrailStaysWithin(conf.tb, trail);
      UpdateRaises(conf, pt0, req, now, salesOpen, a);
      var next := Keep(i, req, pt, ops, trail);
      UpdatedAnywhere(conf, pt0, req, next);
      r := Ok(next);
    }

    /** Cancel: at once before the term starts, and else at its end. */
    method Delete(i: nat, saved: bool) returns (r: Result<Pt, Failure>)
      requires Valid() && i < |store|
      modifies this`store, planner`pools
      ensures Valid()
      ensures r.Err? ==> store == old(store) && planner.pools == old(planner.pools)
      ensures r.Ok? ==> r.value == Deleted(old(store)[i]) && store == old(store)[i := r.value]
      ensures DeletedAs(old(store)[i], saved, r)
      ensures StaysWithin(conf.tb, old(planner.pools), planner.pools)
    {
      hide StaysWithin;
      var pt := store[i];
      ghost var a := planner.pools;
      StaysWithinItself(conf.tb, a);
      assert pt in store;
      if pt.state == Ended || pt.state == Cancelled || pt.state == PendingCancellation {
        return Ok(pt);
      }
      var next := if pt.state == Scheduled then pt.(state := Cancelled, pending := None)
                  else pt.(state := PendingCancellation, autoRenew := false, pending := None);
      if !saved {
        return Err(NotSaved);
      }
      ConservedCovers(conf, store, i, a);
      SameHoldingOnTrack(conf, pt, pt, next, pt.ceiling, [], Start(a), a);
      store := store[i := next];
      if pt.state == Scheduled {
        var ops;
        ghost var trail;
        ops, trail := Drop(pt.tier, Pooled(conf, next), [], Start(a));
      }
      ConservedExchange(conf, old(store), i, next, a, planner.pools);
      HealthyUpdate(conf, old(store), i, next, a, planner.pools);
      r := Ok(next);
    }

    /** Move what a reservation holds in one region to a named pool. */
    method MoveToPool(i: nat, region: string, pool: string, now: Timestamp, saved: bool) returns (r: Result<Pt, Failure>)
      requires Valid() && i < |store|
      modifies this`store, planner`pools
      ensures Ready()
      ensures r.Ok? ==> Valid() && store == old(store)[i := r.value]
      ensures r.Ok? ==> PoolOf(conf, r.value, region) == Some(pool) && HeldShares(r.value) == HeldShares(old(store[i]))
      ensures r.Err? ==> store == old(store)
      ensures r.Err? ==>
        if !r.error.NotSaved? || Safe(conf, old(store)[i], iset{region}, old(planner.pools)) then planner.pools == old(planner.pools) && Valid()
        else LowerSomewhere(conf, old(store)[i], old(planner.pools), planner.pools)
      ensures MovedAs(conf, old(store)[i], region, pool, now, saved, old(planner.pools), r)
      ensures r.Ok? ==> RaisedWithin(conf.tb, Max(old(store)[i].termStart, now), old(planner.pools), planner.pools)
      ensures StaysWithin(conf.tb, old(planner.pools), planner.pools)
    {
      hide StaysWithin, RaisedWithin, LowerSomewhere, Safe, ReserveAll;
      StaysWithinItself(conf.tb, planner.pools);
      RaisedItself(conf.tb, Max(store[i].termStart, now), planner.pools);
      var pt := store[i];
      if !IsLive(pt.state) || !F.Has(HeldShares(pt), region)
         || !(exists k :: 0 <= k < |planner.pools| && planner.pools[k].key == Key(region, pool) && planner.pools[k].model == pt.model) {
        return Err(Invalid);
      }
      if PoolOf(conf, pt, region) == Some(pool) {
        return Ok(pt);
      }
      r := MoveHeld(i, region, pool, now, saved);
    }

    method MoveHeld(i: nat, region: string, pool: string, now: Timestamp, saved: bool) returns (r: Result<Pt, Failure>)
      requires Valid() && i < |store| && IsLive(store[i].state) && F.Has(HeldShares(store[i]), region)
      requires PoolOf(conf, store[i], region) != Some(pool)
      modifies this`store, planner`pools
      ensures Ready()
      ensures r.Ok? ==> Valid() && store == old(store)[i := r.value]
      ensures r.Ok? ==> PoolOf(conf, r.value, region) == Some(pool) && HeldShares(r.value) == HeldShares(old(store[i]))
      ensures r.Err? ==> store == old(store)
      ensures r.Err? ==>
        if !r.error.NotSaved? || Safe(conf, old(store)[i], iset{region}, old(planner.pools)) then planner.pools == old(planner.pools)
        else LowerSomewhere(conf, old(store)[i], old(planner.pools), planner.pools)
      ensures MovedOver(conf, old(store)[i], region, pool, now, saved, old(planner.pools), r)
      ensures r.Ok? ==> RaisedWithin(conf.tb, Max(old(store)[i].termStart, now), old(planner.pools), planner.pools)
      ensures StaysWithin(conf.tb, old(planner.pools), planner.pools)
    {
      hide Relocated, Walked, Steady, LogServed, Exchanged, ServedAt, StaysWithin, CarriedIn, Carried, Lowers, Safe, LowerSomewhere;
      hide MovedOver, RaisedWithin;
      var pt := store[i];
      ghost var a := planner.pools;
      assert pt in store;
      ConservedCovers(conf, store, i, a);
      RegionCovered(conf, pt, region, a);
      LogStarts(conf.tb, pt.model, pt.ceiling, a);
      hide Conserved, AllHealthy;
      var e, next, ops;
      ghost var trail;
      e, next, ops, trail := Relocate(pt, region, F.CusAt(HeldShares(pt), region), Some(pool), pt.ceiling, Max(pt.termStart, now), [], Start(a));
      MoveServed(conf, pt, region, a, trail);
      MovedOverIs(conf, pt, region, pool, now, saved, a, if e.Some? then Err(Failure.Capacity(e.value)) else if !saved then Err(NotSaved) else Ok(Tidy(next)));
      if e.Some? {
        Undo(pt.model, pt.ceiling, ops);
        return Err(Failure.Capacity(e.value));
      }
      RelocatedRaises(conf, pt, region, F.CusAt(HeldShares(pt), region), Some(pool), pt.ceiling, Max(pt.termStart, now), a);
      RelocatedHolding(conf, pt, region, pool, a, planner.pools);
      if !saved {
        RelocationLowers(conf, pt, region, pool, a, planner.pools);
        RollBack(pt, iset{region}, pt, ops, trail);
        return Err(NotSaved);
      }
      RelocatedHealthy(conf, pt, region, pool, a, planner.pools);
      TidyPlace(conf, next, region);
      Persist(i, next, a);
      r := Ok(Tidy(next));
    }

    // -------------------------------------------------------------------------
    // Terms
    // -------------------------------------------------------------------------

    /** Swap all that `pt` holds for `claims` from the next term. A swap that does not fit
        puts the old capacity back, and only then logs nothing. `sound` says that no such
        put-back has failed. */
    method RenewSwap(ghost pt0: Pt, pt: Pt, job: Job, claims: seq<Claim>, ops: seq<PlanOp>, ghost trail: Trail, ghost sound: bool)
      returns (r: Result<seq<PoolShare>, PlanError>, ops': seq<PlanOp>, ghost trail': Trail, ghost sound': bool)
      requires Ready() && (sound ==> Going(conf, pt0, pt, ops, trail, planner.pools))
      modifies planner`pools
      ensures Ready()
      ensures (if r.Ok? then Some(r.value) else None, planner.pools) == SwapOut(conf, pt, job, claims, old(planner.pools))
      ensures sound' <==> sound && (r.Ok? || Own(conf, pt, old(planner.pools)))
      ensures sound' ==> Swapped(conf, pt0, pt, job, claims, r, ops', trail', old(planner.pools), planner.pools) && trail'.First() == trail.First()
      ensures r.Err? ==> ops' == ops && trail' == trail
      ensures sound ==> RaisedWithin(conf.tb, pt.termEnd, old(planner.pools), planner.pools)
    {
      hide RaisedWithin;
      ghost var a := planner.pools;
      if sound {
        ExchangedCovers(conf.tb, pt0.tier, Pooled(conf, pt0), pt.tier, Pooled(conf, pt), trail.First(), a);
        SwapOutRaises(conf, pt, job, claims, a);
      }
      var gone := Pooled(conf, pt);
      planner.Release(pt.tier, gone);
      ghost var b := planner.pools;
      ReleaseAllKeepsPools(conf.tb, pt.tier, gone, a);
      ConfiguredSame(conf, a, b);
      r := planner.Reserve(job, claims, pt.termEnd);
      ops', trail', sound' := ops, trail, sound;
      if r.Ok? {
        ops', trail' := ops + [Released(pt.tier, gone), Reserved(job.tier, r.value)],
                        Then(Then(trail, Released(pt.tier, gone), b), Reserved(job.tier, r.value), planner.pools);
        ReserveAllAdds(conf.tb, job, pt.termEnd, claims, b);
        ConfiguredSame(conf, b, planner.pools);
        if sound {
          SwappedLog(conf, pt0, pt, job, claims, pt.termEnd, ops, trail, a);
        }
      } else {
        var back := planner.Reserve(Job(pt.model, pt.tier, pt.ceiling), AsClaims(gone), TIMESTAMP_MAX);
        sound' := sound && back.Ok?;
        if back.Ok? {
          ReserveAllAdds(conf.tb, Job(pt.model, pt.tier, pt.ceiling), TIMESTAMP_MAX, AsClaims(gone), b);
          ConfiguredSame(conf, b, planner.pools);
        }
        if sound {
          ExchangedCovers(conf.tb, pt0.tier, Pooled(conf, pt0), pt.tier, gone, trail.First(), a);
          PutBack(conf, pt, a);
        }
      }
    }

    /** The next term, with the changes kept for it. A change that does not fit is dropped. */
    method Renew(pt0: Pt, pt: Pt, nextEnd: Timestamp, ops: seq<PlanOp>, ghost trail: Trail, ghost sound: bool)
      returns (pt': Pt, ops': seq<PlanOp>, ghost trail': Trail, ghost sound': bool)
      requires Ready() && ValidPt(pt) && Backed(conf, pt) && pt.ceiling == pt0.ceiling && pt.model == pt0.model
      requires sound ==> Going(conf, pt0, pt, ops, trail, planner.pools)
      modifies planner`pools
      ensures Ready() && ValidPt(pt') && Backed(conf, pt')
      ensures (pt', planner.pools) == Renewed(conf, pt, nextEnd, old(planner.pools))
      ensures sound' <==> sound && RenewSafe(conf, pt, old(planner.pools))
      ensures sound' ==> Going(conf, pt0, pt', ops', trail', planner.pools) && trail'.First() == trail.First()
      ensures !WantsRegions(pt) && !WantsTier(pt) ==> ops' == ops
      ensures sound' ==> RaisedWithin(conf.tb, pt.termEnd, old(planner.pools), planner.pools)
    {
      hide Going, Healthy, HeldShares, SwapFits, SwapOut, Own, Pooled, Record, RaisedWithin;
      ghost var a := planner.pools;
      RaisedItself(conf.tb, pt.termEnd, a);
      ops', trail', sound' := ops, trail, sound;
      pt' := pt.(pending := None);
      PooledSame(conf, pt, pt');
      OwnSame(conf, pt, pt', a);
      if sound {
        SameHoldingGoing(conf, pt0, pt, pt', ops, trail, planner.pools);
      }
      if WantsRegions(pt) {
        pt', ops', trail', sound' := RenewRegions(pt0, pt', pt.pending.value.regions.value, ops', trail', sound');
      }
      if WantsTier(pt) {
        ghost var b := planner.pools;
        pt', ops', trail', sound' := RenewTier(pt0, pt', pt.pending.value.tier.value, ops', trail', sound');
        if sound' {
          RaisedTransitive(conf.tb, pt.termEnd, a, b, planner.pools);
        }
      }
      if sound' {
        SameHoldingGoing(conf, pt0, pt', pt'.(termStart := pt.termEnd, termEnd := nextEnd), ops', trail', planner.pools);
      }
      pt' := pt'.(termStart := pt.termEnd, termEnd := nextEnd);
    }

    method RenewRegions(pt0: Pt, pt: Pt, regions: seq<F.RegionShare>, ops: seq<PlanOp>, ghost trail: Trail, ghost sound: bool)
      returns (pt': Pt, ops': seq<PlanOp>, ghost trail': Trail, ghost sound': bool)
      requires Ready() && ValidPt(pt) && Backed(conf, pt) && F.Whole(regions) && (sound ==> Going(conf, pt0, pt, ops, trail, planner.pools))
      modifies planner`pools
      ensures Ready() && ValidPt(pt') && Backed(conf, pt') && pt'.pending == pt.pending
      ensures (pt', planner.pools) == RenewedRegions(conf, pt, regions, old(planner.pools))
      ensures var fits := SwapFits(conf, pt, Job(pt.model, pt.tier, pt.ceiling), RegionClaims(conf, pt, regions), old(planner.pools));
        && (sound' <==> sound && (fits || Own(conf, pt, old(planner.pools))))
        && (sound' ==> Own(conf, pt', planner.pools))
      ensures pt'.termEnd == pt.termEnd && (sound ==> RaisedWithin(conf.tb, pt.termEnd, old(planner.pools), planner.pools))
      ensures sound' ==> Going(conf, pt0, pt', ops', trail', planner.pools) && trail'.First() == trail.First()
    {
      hide ReserveAll, ReleaseAll, Walked, Steady, Covers, AllServed, ServedAt, LogServed, F.Headroom, F.Footprint, RaisedWithin;
      var next := WithRegions(conf, pt, regions);
      WithRegionsValid(conf, pt, regions);
      var claims := ClaimsFor(conf, pt, HeldShares(next));
      ghost var a := planner.pools;
      var r;
      r, ops', trail', sound' := RenewSwap(pt0, pt, Job(pt.model, pt.tier, pt.ceiling), claims, ops, trail, sound);
      if r.Err? {
        return pt, ops', trail', sound';
      }
      RecordKeeps(next, r.value);
      pt' := Record(next, r.value);
      if sound' {
        Replanned(conf, pt, next, r.value, pt.ceiling, planner.pools);
        ExchangedTransitive(conf.tb, pt0.tier, Pooled(conf, pt0), pt.tier, Pooled(conf, pt), pt.tier, r.value, trail.First(), a, planner.pools);
      }
    }

    method RenewTier(pt0: Pt, pt: Pt, tier: Tier, ops: seq<PlanOp>, ghost trail: Trail, ghost sound: bool)
      returns (pt': Pt, ops': seq<PlanOp>, ghost trail': Trail, ghost sound': bool)
      requires Ready() && ValidPt(pt) && Backed(conf, pt) && (sound ==> Going(conf, pt0, pt, ops, trail, planner.pools))
      modifies planner`pools
      ensures Ready() && ValidPt(pt') && Backed(conf, pt') && pt'.pending == pt.pending
      ensures (pt', planner.pools) == RenewedTier(conf, pt, tier, old(planner.pools))
      ensures var fits := SwapFits(conf, pt, Job(pt.model, tier, pt.ceiling), AsClaims(Pooled(conf, pt)), old(planner.pools));
        sound' <==> sound && (fits || Own(conf, pt, old(planner.pools)))
      ensures sound ==> RaisedWithin(conf.tb, pt.termEnd, old(planner.pools), planner.pools)
      ensures sound' ==> Going(conf, pt0, pt', ops', trail', planner.pools) && trail'.First() == trail.First()
    {
      hide ReserveAll, ReleaseAll, Walked, Steady, Covers, AllServed, Own, ServedAt, LogServed, F.Headroom, F.Footprint, RaisedWithin;
      var current := Pooled(conf, pt);
      ghost var a := planner.pools;
      var r;
      r, ops', trail', sound' := RenewSwap(pt0, pt, Job(pt.model, tier, pt.ceiling), AsClaims(current), ops, trail, sound);
      if r.Err? {
        return pt, ops', trail', sound';
      }
      pt' := pt.(tier := tier);
      if sound' {
        NamedComeBack(current, r.value);
        OnPoolsSame(conf, pt, pt', HeldShares(pt));
        RetierServed(conf, pt, tier, pt0.ceiling, pt.ceiling, a, planner.pools);
        ExchangedTransitive(conf.tb, pt0.tier, Pooled(conf, pt0), pt.tier, current, tier, current, trail.First(), a, planner.pools);
      }
    }

    /** The last term is over: everything is given back. */
    method End(ghost pt0: Pt, pt: Pt, ops: seq<PlanOp>, ghost trail: Trail, ghost sound: bool)
      returns (pt': Pt, ops': seq<PlanOp>, ghost trail': Trail)
      requires Ready() && ValidPt(pt) && IsLive(pt.state)
      requires sound ==> Turn(conf, pt0, pt, ops, trail, planner.pools)
      modifies planner`pools
      ensures Ready() && pt' == pt.(state := Ended, pending := None) && ValidPt(pt')
      ensures planner.pools == ReleaseAll(conf.tb, pt.tier, Pooled(conf, pt), old(planner.pools))
      ensures sound ==> Turn(conf, pt0, pt', ops', trail', planner.pools) && trail'.First() == trail.First()
    {
      ghost var a := planner.pools;
      var gone := Pooled(conf, pt);
      planner.Release(pt.tier, gone);
      ReleaseAllKeepsPools(conf.tb, pt.tier, gone, a);
      ConfiguredSame(conf, a, planner.pools);
      ops', trail' := ops + [Released(pt.tier, gone)], Then(trail, Released(pt.tier, gone), planner.pools);
      pt' := pt.(state := Ended, pending := None);
      if sound {
        EndedTurn(conf, pt0, pt, ops, trail, a);
      }
    }

    /** A term is over: another one, or the end. */
    method OneTurn(pt0: Pt, pt: Pt, nextEnd: Timestamp, ops: seq<PlanOp>, ghost trail: Trail, ghost sound: bool)
      returns (pt': Pt, ops': seq<PlanOp>, ghost trail': Trail, ghost sound': bool)
      requires Ready() && ValidPt(pt) && Backed(conf, pt) && pt.ceiling == pt0.ceiling && pt.model == pt0.model
      requires pt.state == Active || pt.state == PendingCancellation
      requires sound ==> Turn(conf, pt0, pt, ops, trail, planner.pools)
      modifies planner`pools
      ensures Ready() && ValidPt(pt') && Backed(conf, pt')
      ensures (pt', planner.pools) == TurnedOver(conf, pt, nextEnd, old(planner.pools))
      ensures sound' <==> sound && (Renews(pt) ==> RenewSafe(conf, pt, old(planner.pools)))
      ensures sound' ==> Turn(conf, pt0, pt', ops', trail', planner.pools) && trail'.First() == trail.First()
      ensures Renews(pt) && !WantsRegions(pt) && !WantsTier(pt) ==> ops' == ops
      ensures sound' ==> RaisedWithin(conf.tb, pt.termEnd, old(planner.pools), planner.pools)
    {
      hide RaisedWithin;
      ReleaseRaises(conf.tb, pt.termEnd, pt.tier, Pooled(conf, pt), planner.pools);
      if pt.state == Active && pt.autoRenew {
        hide Going, Renewed, Pooled;
        RenewedKeeps(conf, pt, nextEnd, planner.pools);
        pt', ops', trail', sound' := Renew(pt0, pt, nextEnd, ops, trail, sound);
        if sound' {
          GoingTurn(conf, pt0, pt', ops', trail', planner.pools);
        }
      } else {
        pt', ops', trail' := End(pt0, pt, ops, trail, sound);
        sound' := sound;
      }
    }

    /** Start, renew term by term, end: all that has fallen due by `now`. */
    method Turns(pt0: Pt, now: Timestamp, nextEnd: Timestamp -> Timestamp)
      returns (pt: Pt, changed: bool, ops: seq<PlanOp>, ghost trail: Trail, ghost sound: bool)
      requires Ready() && ValidPt(pt0) && Backed(conf, pt0) && IsLive(pt0.state) && Healthy(conf, pt0, planner.pools)
      requires Covers(conf.tb, pt0.tier, Pooled(conf, pt0), planner.pools)
      requires forall t: Timestamp :: t <= now ==> nextEnd(t) > t
      modifies planner`pools
      ensures Ready() && ValidPt(pt) && Backed(conf, pt)
      ensures (pt, planner.pools) == AllTurns(conf, Started(pt0, now), now, nextEnd, old(planner.pools))
      ensures sound <==> TurnsSafe(conf, Started(pt0, now), now, old(planner.pools))
      ensures sound ==> Turn(conf, pt0, pt, ops, trail, planner.pools) && trail.First() == old(planner.pools)
      ensures changed <==> Started(pt0, now) != pt0 || Due(Started(pt0, now), now)
      ensures Quiet(Started(pt0, now), now) ==> ops == []
      ensures !Due(pt, now) && pt.ceiling == pt0.ceiling && pt.model == pt0.model
      ensures pt.state == Scheduled ==> now < pt.termStart
      ensures Renews(Started(pt0, now)) ==> pt.state == Active && pt.termEnd == EndAfter(pt0.termEnd, now, nextEnd)
      ensures sound ==> RaisedWithin(conf.tb, pt0.termEnd, old(planner.pools), planner.pools)
    {
      hide Turn, Healthy, Covers, TurnedOver, RenewSafe, AllTurns, EndAfter, Turning, Quiet, RaisedWithin;
      hide ValidPt, Backed, DistinctKeys, Configured, SameHolding;
      ghost var a := planner.pools;
      pt, changed := pt0, false;
      StartedValid(conf, pt0, now);
      if pt.state == Scheduled && now >= pt.termStart {
        pt, changed := pt.(state := Active), true;
      }
      ops, trail, sound := [], Start(a), true;
      ghost var first, turned := pt, false;
      FirstTurn(conf, pt0, pt, a);
      TurningStarts(conf, pt0, first, now, a);
      TurnsReach(conf, first, now, nextEnd, a);
      RaisedItself(conf.tb, pt0.termEnd, a);
      while (pt.state == Active || pt.state == PendingCancellation) && now >= pt.termEnd
        invariant Ready() && ValidPt(pt) && Backed(conf, pt)
        invariant AllTurns(conf, first, now, nextEnd, a) == AllTurns(conf, pt, now, nextEnd, planner.pools)
        invariant Turning(conf, pt0, first, pt, now, a, planner.pools, ops, trail, sound, turned)
        invariant changed <==> turned || first != pt0
        invariant sound ==> RaisedWithin(conf.tb, pt0.termEnd, a, planner.pools)
        decreases IsLive(pt.state), now - pt.termEnd
      {
        changed := true;
        var end := nextEnd(pt.termEnd);
        TurnKeeps(conf, pt, end, planner.pools);
        AllTurnsStep(conf, pt, now, nextEnd, planner.pools);
        TurningFacts(conf, pt0, first, pt, now, a, planner.pools, ops, trail, sound, turned);
        ghost var was, b, log, t, ok := pt, planner.pools, ops, trail, sound;
        pt, ops, trail, sound := OneTurn(pt0, pt, end, ops, trail, sound);
        if sound {
          TurningRaises(conf, pt0, first, was, now, end, a, b, planner.pools, log, t, ok, turned);
        }
        TurningStep(conf, pt0, first, was, pt, now, end, a, b, planner.pools, log, t, ok, turned, ops, trail, sound);
        turned := true;
      }
      NotDue(conf, pt, now, nextEnd, planner.pools);
      TurningEnds(conf, pt0, first, pt, now, a, planner.pools, ops, trail, sound, turned);
    }

    /** One reservation's turn in a lifecycle run, saved or undone. `nextEnd` is the end of a
        term that starts at its argument. */
    method Lifecycle(i: nat, now: Timestamp, nextEnd: Timestamp -> Timestamp, saved: bool)
      requires Valid() && i < |store|
      requires forall t: Timestamp :: t <= now ==> nextEnd(t) > t
      modifies this`store, planner`pools
      ensures Ready() && StaysWithin(conf.tb, old(planner.pools), planner.pools)
      ensures !IsLive(old(store)[i].state) || !saved ==> store == old(store)
      ensures !IsLive(old(store)[i].state) ==> planner.pools == old(planner.pools)
      ensures IsLive(old(store)[i].state) && saved ==>
        var turned := AllTurns(conf, Started(old(store)[i], now), now, nextEnd, old(planner.pools));
        store == old(store)[i := if turned.0 == old(store)[i] then turned.0 else Tidy(turned.0)] && planner.pools == turned.1
      ensures IsLive(old(store)[i].state) && saved ==>
        if TurnsSafe(conf, Started(old(store)[i], now), now, old(planner.pools)) || Rescued(conf, Started(old(store)[i], now), old(planner.pools))
        then Valid() else Short(conf, store, planner.pools)
      ensures IsLive(old(store)[i].state) && saved && TurnsSafe(conf, Started(old(store)[i], now), now, old(planner.pools)) ==>
        RaisedWithin(conf.tb, old(store)[i].termEnd, old(planner.pools), planner.pools)
      ensures IsLive(old(store)[i].state) && !saved ==>
        (planner.pools == old(planner.pools) <==> Own(conf, old(store)[i], old(planner.pools)) || Quiet(Started(old(store)[i], now), now))
    {
      hide StaysWithin, AllTurns, TurnsSafe, Own, Turn, Quiet, Due, Conserved, DistinctKeys, Rescued, Short, RaisedWithin;
      var pt0 := store[i];
      ghost var a := planner.pools;
      StaysWithinItself(conf.tb, a);
      if !IsLive(pt0.state) {
        return;
      }
      assert pt0 in store;
      ConservedCovers(conf, store, i, a);
      var pt, changed, ops;
      ghost var trail, sound;
      ghost var first := Started(pt0, now);
      StartedSame(conf, pt0, now, a);
      TurnsStayWithin(conf, first, now, nextEnd, a);
      pt, changed, ops, trail, sound := Turns(pt0, now, nextEnd);
      ghost var b := planner.pools;
      if !changed {
        NotDue(conf, first, now, nextEnd, a);
        assert store == store[i := pt0];
        return;
      }
      if !saved {
        if sound {
          TurnUndone(conf, pt0, pt, ops, trail, b);
        }
        Undo(pt.model, pt.ceiling, ops);
        StaysWithinTransitive(conf.tb, a, b, planner.pools);
        if Own(conf, pt0, a) {
          OwnIsSafe(conf, first, now, a);
        } else if Quiet(first, now) {
          QuietTurns(conf, first, now, nextEnd, a);
        } else {
          NeverBack(conf, first, a, b, planner.pools);
        }
        return;
      }
      if sound {
        KeptTurns(conf, store, i, pt, ops, trail, b);
      } else {
        RescuedTurns(conf, store, i, first, now, nextEnd, a);
      }
      store := store[i := Tidy(pt)];
    }

    /** Move one eligible reservation to `target`. A move that does not fit is left as it
        stopped: its log is dropped. */
    method Rebalance(i: nat, target: seq<F.RegionShare>, now: Timestamp, saved: bool)
      returns (r: Result<Pt, Failure>, ghost moved: Pt, ghost done: seq<F.RegionShare>)
      requires Valid() && i < |store| && F.Whole(target) && target != []
      modifies this`store, planner`pools
      ensures Ready()
      ensures r.Ok? ==> Valid() && store == old(store)[i := r.value]
      ensures r.Ok? ==> r.value == old(store)[i] || r.value == WithSplit(conf, old(store)[i], target).(placements := r.value.placements)
      ensures r.Err? ==> store == old(store)
      ensures r.Err? && r.error.NotSaved? ==>
        var pt := old(store)[i];
        if Safe(conf, pt, MoveReleased(conf, pt, NextHeld(conf, pt, target), pt.ceiling, Max(pt.termStart, now), old(planner.pools)), old(planner.pools))
        then planner.pools == old(planner.pools) && Valid()
        else LowerSomewhere(conf, pt, old(planner.pools), planner.pools)
      ensures StaysWithin(conf.tb, old(planner.pools), planner.pools)
      ensures r.Err? && r.error.Capacity? ==> Stopped(conf, old(store)[i], target, now, moved, done, old(planner.pools), planner.pools)
      ensures RebalancedAs(conf, old(store)[i], target, now, saved, old(planner.pools), r)
      ensures !(r.Err? && r.error.NotSaved?) ==> RaisedWithin(conf.tb, Max(old(store)[i].termStart, now), old(planner.pools), planner.pools)
    {
      hide FirstGrow, MovedTo, RaisedWithin;
      hide Grown, AllGrown, Relocations, Walked, Steady, LogServed, Exchanged, Conserved, StaysWithin, Carried, Lowers, Safe, MoveReleased, LowerSomewhere;
      var pt := store[i];
      moved, done := pt, [];
      StaysWithinItself(conf.tb, planner.pools);
      RaisedItself(conf.tb, Max(pt.termStart, now), planner.pools);
      if !pt.rebalance || |pt.regions| < 2 || !(pt.state == Active || pt.state == PendingCancellation) || target == Effective(pt) {
        return Ok(pt), moved, done;
      }
      ghost var a := planner.pools;
      assert pt in store;
      ConservedCovers(conf, store, i, a);
      var next := WithSplit(conf, pt, target);
      WithSplitValid(conf, pt, target);
      LogStarts(conf.tb, pt.model, pt.ceiling, a);
      var e, got, ops;
      ghost var trail;
      e, got, ops, trail, done := MoveCapacity(pt, NextHeld(conf, pt, target), pt.ceiling, now, [], Start(a));
      moved := got;
      FirstServed(conf, pt, a, trail);
      MovedToRaises(conf, pt, NextHeld(conf, pt, target), pt.ceiling, Max(pt.termStart, now), a);
      F.GrowthDistinct(HeldShares(pt), NextHeld(conf, pt, target));
      MoveGoesThroughIff(conf, pt, F.Growth(HeldShares(pt), NextHeld(conf, pt, target)), NextHeld(conf, pt, target), pt.ceiling, Max(pt.termStart, now), a);
      if e.Some? {
        return Err(Failure.Capacity(e.value)), moved, done;
      }
      if !saved {
        RollBack(pt, MoveReleased(conf, pt, NextHeld(conf, pt, target), pt.ceiling, Max(pt.termStart, now), a), pt, ops, trail);
        return Err(NotSaved), moved, done;
      }
      next := next.(placements := got.placements);
      Resplitted(conf, pt, got, next, NextHeld(conf, pt, target), a, planner.pools);
      Persist(i, next, a);
      r := Ok(Tidy(next));
    }
  }
}
