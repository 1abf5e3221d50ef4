/**
 What a change takes off the pools a reservation is on
 (crates/pt-control-plane/src/service.rs), read off the state before it. A release from an
 oversold pool cannot be undone, so this decides whether a failed change is put back.
 */
module Releases {
  import opened Prelude
  import opened Capacity
  import opened Planner
  import opened MemoryPlanner
  import opened Holdings
  import opened Moves
  import opened Changes
  import opened Growing
  import F = Failover

  /** What `pt` holds on one pool. */
  function CostAt(conf: Conf, pt: Pt, key: Key): nat {
    CostOf(conf.tb, pt.tier, Pooled(conf, pt), key)
  }

  /** Of the oversold pools of `a`, exactly those `pt` holds a region of `released` on have a
      lower counter in `b`, and no others are oversold there. */
  ghost predicate Lowers(conf: Conf, pt: Pt, released: iset<string>, a: seq<PoolView>, b: seq<PoolView>) {
    && StaysWithin(conf.tb, a, b)
    && forall k :: 0 <= k < |a| && !Within(conf.tb, a[k]) ==>
         (b[k].reserved < a[k].reserved <==> CostAt(conf, pt, a[k].key) > 0 && a[k].key.region in released)
  }

  /** No pool that `pt` holds a region of `released` on is oversold. */
  ghost predicate Safe(conf: Conf, pt: Pt, released: iset<string>, pools: seq<PoolView>) {
    forall k :: 0 <= k < |pools| && CostAt(conf, pt, pools[k].key) > 0 && pools[k].key.region in released ==> Within(conf.tb, pools[k])
  }

  /** A change lowered no oversold counter exactly if it was safe. */
  lemma SparedIffSafe(conf: Conf, pt: Pt, released: iset<string>, a: seq<PoolView>, b: seq<PoolView>)
    requires Lowers(conf, pt, released, a, b)
    ensures Spared(conf.tb, a, b) <==> Safe(conf, pt, released, a)
  {
    hide CostAt;
    if !Spared(conf.tb, a, b) {
      LoweredSomewhere(conf.tb, a, b);
    }
  }

  /** What an unsafe change lowered, and what happened later did not raise, is lower. */
  lemma UnsafeIsLower(conf: Conf, pt: Pt, released: iset<string>, a: seq<PoolView>, b: seq<PoolView>, c: seq<PoolView>)
    requires Lowers(conf, pt, released, a, b) && !Safe(conf, pt, released, a) && StillLower(conf.tb, a, b, c)
    ensures LowerSomewhere(conf, pt, a, c)
  {
    var k :| 0 <= k < |a| && CostAt(conf, pt, a[k].key) > 0 && a[k].key.region in released && !Within(conf.tb, a[k]);
    assert b[k].reserved < a[k].reserved;
  }

  lemma NothingLowered(conf: Conf, pt: Pt, released: iset<string>, a: seq<PoolView>)
    requires released == iset{}
    ensures Lowers(conf, pt, released, a, a)
  {
    StaysWithinItself(conf.tb, a);
  }

  /** One change after another. */
  lemma LowersThen(conf: Conf, pt: Pt, pt1: Pt, first: iset<string>, second: iset<string>,
                   a: seq<PoolView>, b: seq<PoolView>, c: seq<PoolView>)
    requires Exchanged(conf.tb, pt.tier, Pooled(conf, pt), pt1.tier, Pooled(conf, pt1), a, b)
    requires Lowers(conf, pt, first, a, b) && Lowers(conf, pt1, second, b, c)
    ensures Lowers(conf, pt, first + second, a, c)
  {
    StaysWithinTransitive(conf.tb, a, b, c);
    SamePoolsKeys(a, b);
    forall k | 0 <= k < |a| && !Within(conf.tb, a[k])
      ensures c[k].reserved < a[k].reserved <==> CostAt(conf, pt, a[k].key) > 0 && a[k].key.region in first + second
    {
      assert a[k].key == b[k].key && a[k].capacity == b[k].capacity;
      if b[k].reserved < a[k].reserved {
        NeverRegained(conf.tb, a, b, c, k);
      } else {
        assert CostAt(conf, pt1, a[k].key) == CostAt(conf, pt, a[k].key);
      }
    }
  }

  // ---------------------------------------------------------------------------
  // Moves
  // ---------------------------------------------------------------------------

  /** A move to `target` takes `region` off its pool, or some of it. */
  predicate MoveReleases(conf: Conf, pt: Pt, target: seq<F.RegionShare>, ceiling: nat, at: Timestamp, pools: seq<PoolView>, region: string) {
    var gs := F.Growth(HeldShares(pt), target);
    || LeavesItsPool(conf, pt, gs, target, ceiling, at, pools, region)
    || (FirstGrow(conf, pt, gs, |gs|, target, ceiling, at, pools) && F.CusAt(target, region) < F.CusAt(HeldShares(pt), region))
  }

  ghost function MoveReleased(conf: Conf, pt: Pt, target: seq<F.RegionShare>, ceiling: nat, at: Timestamp, pools: seq<PoolView>): iset<string> {
    iset r: string | MoveReleases(conf, pt, target, ceiling, at, pools, r)
  }

  /** `move_capacity`, as its effect: how far the growth got and, if all of it went through,
      what shrinks released. */
  function MovedTo(conf: Conf, pt: Pt, target: seq<F.RegionShare>, ceiling: nat, at: Timestamp, pools: seq<PoolView>)
    : (Option<PlanError>, Pt, seq<PoolView>)
  {
    var grown := AllGrown(conf, pt, F.Growth(HeldShares(pt), target), target, ceiling, at, pools);
    if grown.0.Some? then grown
    else (None, grown.1, ReleaseAll(conf.tb, pt.tier, OnPools(conf, grown.1, F.Growth(target, HeldShares(pt))), grown.2))
  }

  lemma MovedPlaces(conf: Conf, pt: Pt, target: seq<F.RegionShare>, ceiling: nat, at: Timestamp, pools: seq<PoolView>)
    ensures var moved := MovedTo(conf, pt, target, ceiling, at, pools).1; moved == pt.(placements := moved.placements)
  {
    hide AllGrown, F.Growth, ReleaseAll;
    AllGrownPlaces(conf, pt, F.Growth(HeldShares(pt), target), target, ceiling, at, pools);
  }

  lemma PoolCostLess(tb: Tables, tier: Tier, key: Key, a: nat, b: nat)
    requires PoolCost(tb, tier, key, b) > 0
    ensures PoolCost(tb, tier, key, a) < PoolCost(tb, tier, key, b) <==> a < b
  {
    if a < b {
      PoolCostAdds(tb, tier, key, a, b - a);
      var c := PerCu(tb.costs, key, tier).value;
      PositiveCost(c, b - a);
    } else {
      PoolCostMonotone(tb, tier, key, b, a);
    }
  }

  lemma HeldWhere(conf: Conf, pt: Pt, key: Key)
    requires ValidPt(pt) && CostAt(conf, pt, key) > 0
    ensures PoolOf(conf, pt, key.region) == Some(key.pool) && F.Has(HeldShares(pt), key.region)
    ensures CostAt(conf, pt, key) == PoolCost(conf.tb, pt.tier, key, F.CusAt(HeldShares(pt), key.region))
  {
    HeldDistinct(pt);
    OnPoolsCost(conf, pt, HeldShares(pt), key);
    PoolCostAdds(conf.tb, pt.tier, key, 0, 0);
    F.CusAtHas(HeldShares(pt), key.region);
  }

  lemma HeldCost(conf: Conf, pt: Pt, key: Key)
    requires ValidPt(pt) && PoolOf(conf, pt, key.region) == Some(key.pool)
    ensures CostAt(conf, pt, key) == PoolCost(conf.tb, pt.tier, key, F.CusAt(HeldShares(pt), key.region))
  {
    HeldDistinct(pt);
    OnPoolsCost(conf, pt, HeldShares(pt), key);
  }

  /** What a move that stopped lowered of the oversold pools. */
  lemma StoppedLowers(conf: Conf, pt: Pt, moved: Pt, done: seq<F.RegionShare>, target: seq<F.RegionShare>, ceiling: nat, at: Timestamp,
                      a: seq<PoolView>, b: seq<PoolView>)
    requires ValidPt(pt) && F.DistinctRegions(target) && DistinctKeys(a)
    requires Halfway(conf, pt, moved, done, HeldShares(pt), target, a, b) && done <= F.Growth(HeldShares(pt), target)
    requires var grown := AllGrown(conf, pt, F.Growth(HeldShares(pt), target), target, ceiling, at, a); grown.0.Some? && grown.1 == moved
    requires StaysWithin(conf.tb, a, b)
    ensures Lowers(conf, pt, MoveReleased(conf, pt, target, ceiling, at, a), a, b)
  {
    hide AllGrown, LeavesItsPool, FirstGrow, F.Growth, Halfway, CostAt, HeldShares;
    var gs := F.Growth(HeldShares(pt), target);
    GrowthsOf(HeldShares(pt), target);
    MoveGoesThroughIff(conf, pt, gs, target, ceiling, at, a);
    forall k | 0 <= k < |a|
      ensures b[k].reserved < a[k].reserved <==> CostAt(conf, pt, a[k].key) > 0 && MoveReleases(conf, pt, target, ceiling, at, a, a[k].key.region)
    {
      var key := a[k].key;
      TooLowIff(conf, pt, moved, done, HeldShares(pt), target, a, b, k);
      if CostAt(conf, pt, key) > 0 {
        HeldWhere(conf, pt, key);
        MovedOffIff(conf, pt, gs, target, ceiling, at, a, key.region);
      } else if PoolOf(conf, pt, key.region) == Some(key.pool) {
        HeldCost(conf, pt, key);
      }
    }
  }

  /** What a move that went through lowered of them. */
  lemma ThroughLowers(conf: Conf, pt: Pt, moved: Pt, target: seq<F.RegionShare>, ceiling: nat, at: Timestamp, a: seq<PoolView>, b: seq<PoolView>)
    requires ValidPt(pt) && F.DistinctRegions(target) && DistinctKeys(a) && moved == pt.(placements := moved.placements)
    requires Exchanged(conf.tb, pt.tier, Pooled(conf, pt), pt.tier, OnPools(conf, moved, target), a, b)
    requires var grown := AllGrown(conf, pt, F.Growth(HeldShares(pt), target), target, ceiling, at, a); grown.0.None? && grown.1 == moved
    requires StaysWithin(conf.tb, a, b)
    ensures Lowers(conf, pt, MoveReleased(conf, pt, target, ceiling, at, a), a, b)
  {
    hide AllGrown, LeavesItsPool, FirstGrow, F.Growth, HeldShares;
    var gs := F.Growth(HeldShares(pt), target);
    GrowthsOf(HeldShares(pt), target);
    MoveGoesThroughIff(conf, pt, gs, target, ceiling, at, a);
    forall k | 0 <= k < |a|
      ensures b[k].reserved < a[k].reserved <==> CostAt(conf, pt, a[k].key) > 0 && MoveReleases(conf, pt, target, ceiling, at, a, a[k].key.region)
    {
      var key := a[k].key;
      OnPoolsCost(conf, moved, target, key);
      if CostAt(conf, pt, key) > 0 {
        HeldWhere(conf, pt, key);
        MovedOffIff(conf, pt, gs, target, ceiling, at, a, key.region);
        PoolCostLess(conf.tb, pt.tier, key, F.CusAt(target, key.region), F.CusAt(HeldShares(pt), key.region));
      }
    }
  }

  /** Everything `pt` holds was released, and something else perhaps reserved. */
  lemma DropLowers(conf: Conf, pt: Pt, tier: Tier, come: seq<PoolShare>, a: seq<PoolView>, b: seq<PoolView>, c: seq<PoolView>)
    requires Exchanged(conf.tb, pt.tier, Pooled(conf, pt), pt.tier, [], a, b) && Exchanged(conf.tb, tier, [], tier, come, b, c)
    requires StaysWithin(conf.tb, a, b) && StaysWithin(conf.tb, b, c)
    ensures Lowers(conf, pt, All(), a, c)
  {
    StaysWithinTransitive(conf.tb, a, b, c);
    SamePoolsKeys(a, b);
    SamePoolsKeys(b, c);
    forall k | 0 <= k < |a| && !Within(conf.tb, a[k])
      ensures c[k].reserved < a[k].reserved <==> CostAt(conf, pt, a[k].key) > 0
    {
      assert a[k].key == b[k].key == c[k].key;
      if b[k].reserved < a[k].reserved {
        NeverRegained(conf.tb, a, b, c, k);
      }
    }
  }

  predicate IsRegion(r: string) {
    true
  }

  ghost function All(): iset<string> {
    iset r: string | IsRegion(r)
  }

  /** One region moved to another pool: its own old pool decides. */
  lemma RelocationLowers(conf: Conf, pt: Pt, region: string, pool: string, a: seq<PoolView>, b: seq<PoolView>)
    requires ValidPt(pt) && StaysWithin(conf.tb, a, b) && PoolOf(conf, pt, region) != Some(pool)
    requires Exchanged(conf.tb, pt.tier, Pooled(conf, pt), pt.tier, Pooled(conf, pt.(placements := pt.placements[region := pool])), a, b)
    ensures Lowers(conf, pt, iset{region}, a, b)
  {
    hide HeldShares, CostOf;
    var pt' := pt.(placements := pt.placements[region := pool]);
    HeldAlike(pt, pt');
    SamePoolsKeys(a, b);
    forall k | 0 <= k < |a| && !Within(conf.tb, a[k])
      ensures b[k].reserved < a[k].reserved <==> CostAt(conf, pt, a[k].key) > 0 && a[k].key.region == region
    {
      var key := a[k].key;
      assert b[k].key == key && b[k].capacity == a[k].capacity;
      HeldDistinct(pt);
      OnPoolsCost(conf, pt, HeldShares(pt), key);
      OnPoolsCost(conf, pt', HeldShares(pt), key);
      if key.region != region {
        assert PoolOf(conf, pt', key.region) == PoolOf(conf, pt, key.region);
      }
    }
  }

  // ---------------------------------------------------------------------------
  // Updates
  // ---------------------------------------------------------------------------

  /** Switching rebalancing off while the split is moved. */
  predicate Unmoves(pt: Pt, rebalance: Option<bool>) {
    rebalance == Some(false) && pt.rebalance && pt.moved != []
  }

  /** The contract split, with rebalancing off. */
  function Contracted(conf: Conf, pt: Pt): Pt {
    WithRegions(conf, pt.(rebalance := false), pt.regions)
  }

  /** The first part of an update, as its effect: back to the contract split, if asked to. */
  function Unmoved(conf: Conf, pt: Pt, rebalance: Option<bool>, now: Timestamp, pools: seq<PoolView>): (Option<PlanError>, Pt, seq<PoolView>) {
    if Unmoves(pt, rebalance) then
      var next := Contracted(conf, pt);
      var m := MovedTo(conf, pt.(rebalance := false), HeldShares(next), pt.ceiling, Max(pt.termStart, now), pools);
      (m.0, next.(placements := m.1.placements), m.2)
    else (None, WithRebalance(conf, pt, rebalance), pools)
  }

  ghost function UnmoveReleased(conf: Conf, pt: Pt, rebalance: Option<bool>, now: Timestamp, pools: seq<PoolView>): iset<string> {
    if Unmoves(pt, rebalance) then
      MoveReleased(conf, pt.(rebalance := false), HeldShares(Contracted(conf, pt)), pt.ceiling, Max(pt.termStart, now), pools)
    else iset{}
  }

  /** A new tier before the term starts: everything is given up and taken again. */
  predicate Retiers(pt: Pt, tier: Option<Tier>) {
    pt.state == Scheduled && tier.Some? && tier.value != pt.tier
  }

  ghost function RetierReleased(pt: Pt, tier: Option<Tier>): iset<string> {
    if Retiers(pt, tier) then All() else iset{}
  }

  /** A new split: before the term starts everything is given up and taken again, and after it
      an increase moves what does not fit where it is. */
  ghost function SplitReleased(conf: Conf, pt: Pt, regions: Option<seq<F.RegionShare>>, ceiling: nat, now: Timestamp, salesOpen: bool,
                               pools: seq<PoolView>): iset<string>
  {
    if regions.None? || !salesOpen || regions.value == pt.regions then iset{}
    else if pt.state == Scheduled then All()
    else if IncreasesOnly(pt.regions, regions.value) && F.Growth(pt.regions, regions.value) != [] then
      MoveReleased(conf, pt, HeldShares(WithRegions(conf, pt, regions.value)), ceiling, Max(pt.termStart, now), pools)
    else iset{}
  }

  /** The regions in which an update takes something off the pool the reservation is on. */
  ghost function UpdateReleased(conf: Conf, pt: Pt, req: UpdateRequest, now: Timestamp, salesOpen: bool, pools: seq<PoolView>): iset<string> {
    var base := WithAutoRenew(pt, req.autoRenew);
    var u := Unmoved(conf, base, req.rebalance, now, pools);
    UnmoveReleased(conf, base, req.rebalance, now, pools) + RetierReleased(base, req.tier)
    + if u.0.None? then SplitReleased(conf, u.1, req.regions, NewCeiling(pt, req), now, salesOpen, u.2) else iset{}
  }

  /** All of `pt` released and `claims` reserved instead, as its effect. */
  function Exchange(conf: Conf, pt: Pt, job: Job, claims: seq<Claim>, pools: seq<PoolView>): (Result<seq<PoolShare>, PlanError>, seq<PoolView>) {
    var b := ReleaseAll(conf.tb, pt.tier, Pooled(conf, pt), pools);
    var r := ReserveAll(conf.tb, job, pt.termStart, claims, b);
    if r.Err? then (Err(r.error), b) else (Ok(r.value.0), r.value.1)
  }

  /** The second part of an update, as its effect: another tier before the term starts. */
  function Retiered(conf: Conf, pt: Pt, tier: Option<Tier>, ceiling: nat, pools: seq<PoolView>): (Option<PlanError>, Pt, seq<PoolView>) {
    if !Retiers(pt, tier) then (None, pt, pools)
    else
      var w := Exchange(conf, pt, Job(pt.model, tier.value, ceiling), AsClaims(Pooled(conf, pt)), pools);
      if w.0.Err? then (Some(w.0.error), pt, w.1) else (None, pt.(tier := tier.value), w.1)
  }

  /** The third, another split: afresh before the term starts, and an increase after it. */
  function Divided(conf: Conf, pt: Pt, regions: Option<seq<F.RegionShare>>, ceiling: nat, now: Timestamp, salesOpen: bool, pools: seq<PoolView>)
    : (Option<Failure>, Pt, seq<PoolView>)
  {
    if regions.None? then (None, pt, pools)
    else if !salesOpen then (Some(SalesPaused), pt, pools)
    else
      var next := WithRegions(conf, pt, regions.value);
      if pt.state == Scheduled && regions.value != pt.regions then
        var w := Exchange(conf, pt, Job(pt.model, pt.tier, ceiling), ClaimsFor(conf, pt, HeldShares(next)), pools);
        if w.0.Err? then (Some(Failure.Capacity(w.0.error)), pt, w.1) else (None, Record(next, w.0.value), w.1)
      else if pt.state != Scheduled && IncreasesOnly(pt.regions, regions.value) && F.Growth(pt.regions, regions.value) != [] then
        var m := MovedTo(conf, pt, HeldShares(next), ceiling, Max(pt.termStart, now), pools);
        if m.0.Some? then (Some(Failure.Capacity(m.0.value)), pt, m.2) else (None, next.(placements := m.1.placements), m.2)
      else (None, pt, pools)
  }

  /** The last, another shape: some pool held on does not serve it. */
  predicate ShapeRefused(conf: Conf, pt: Pt, ceiling: Option<nat>, pools: seq<PoolView>) {
    && ceiling.Some? && ceiling.value != pt.ceiling
    && exists c :: c in ClaimsFor(conf, pt, HeldShares(pt)) && !ShapeOk(conf.tb, pt.model, ceiling.value, c, pools)
  }

  /** An update up to its split. */
  function BegunAs(conf: Conf, pt: Pt, req: UpdateRequest, now: Timestamp, pools: seq<PoolView>): (Option<PlanError>, Pt, seq<PoolView>) {
    var u := Unmoved(conf, WithAutoRenew(pt, req.autoRenew), req.rebalance, now, pools);
    if u.0.Some? then u else Retiered(conf, u.1, req.tier, NewCeiling(pt, req), u.2)
  }

  /** Some part of an update is refused: by the planner, or because sales are paused. */
  predicate Refused(conf: Conf, pt: Pt, req: UpdateRequest, now: Timestamp, salesOpen: bool, pools: seq<PoolView>) {
    var b := BegunAs(conf, pt, req, now, pools);
    var d := Divided(conf, b.1, req.regions, NewCeiling(pt, req), now, salesOpen, b.2);
    b.0.Some? || d.0.Some? || ShapeRefused(conf, d.1, req.ceiling, d.2)
  }

  /** An update asks for a change of the next term, and there is none. */
  predicate LacksTerm(conf: Conf, pt: Pt, req: UpdateRequest) {
    var held := Begun(conf, pt, req);
    && held.state == PendingCancellation
    && (Asks(LaterTier(held, req.tier)) || Asks(LaterRegions(held, req.regions)))
  }

  predicate Asks<T>(change: Option<Option<T>>) {
    change.Some? && change.value.Some?
  }

  /** A request that gets as far as the planner. */
  predicate Attempted(pt: Pt, req: UpdateRequest) {
    IsLive(pt.state) && (req.regions.Some? ==> F.Whole(req.regions.value))
  }

  /** A split that fits afresh before the term starts, with a shape, is not refused. */
  lemma ReplanAccepted(conf: Conf, pt: Pt, req: UpdateRequest, now: Timestamp, pools: seq<PoolView>)
    requires Replans(pt, req) && F.Whole(req.regions.value) && ValidPt(pt) && DistinctKeys(pools)
    requires FitsAfresh(conf, pt, WithRegions(conf, pt, req.regions.value), req.ceiling.value, pools)
    ensures !Refused(conf, pt, req, now, true, pools) && !LacksTerm(conf, pt, req) && Updated(conf, pt, req).regions != pt.regions
  {
    hide ReserveAll, ReleaseAll, HeldShares, ClaimsFor, MovedTo;
    var base, ceiling := WithAutoRenew(pt, req.autoRenew), req.ceiling.value;
    ReplansAsIs(conf, pt, req, base, ceiling, pools);
    ReplansAtOnce(conf, pt, req);
    var next := WithRegions(conf, base, req.regions.value);
    WithRegionsValid(conf, base, req.regions.value);
    var job, claims := Job(base.model, base.tier, ceiling), ClaimsFor(conf, base, HeldShares(next));
    var b := ReleaseAll(conf.tb, base.tier, Pooled(conf, base), pools);
    ReleaseDistinct(conf.tb, base.tier, Pooled(conf, base), pools);
    ReserveAllAdds(conf.tb, job, base.termStart, claims, b);
    ReservedServed(conf.tb, job, base.termStart, claims, b);
    var r := ReserveAll(conf.tb, job, base.termStart, claims, b).value;
    AllServedSame(conf.tb, job, r.0, b, r.1);
    Replanned(conf, base, next, r.0, ceiling, r.1);
    ServedShapeOk(conf, Record(next, r.0), ceiling, r.1);
  }

  /** A planner's refusal, as the service passes it on. */
  function Passed(e: Option<PlanError>): Option<Failure> {
    if e.Some? then Some(Failure.Capacity(e.value)) else None
  }

  /** What stops the part of an update that changes what is held: the first refusal. */
  function StoppedBy(conf: Conf, pt: Pt, req: UpdateRequest, now: Timestamp, salesOpen: bool, pools: seq<PoolView>): Option<Failure> {
    var b := BegunAs(conf, pt, req, now, pools);
    if b.0.Some? then Passed(b.0) else Divided(conf, b.1, req.regions, NewCeiling(pt, req), now, salesOpen, b.2).0
  }

  /** What an update answers: refused, no next term for it, not saved, or done. It is not saved
      only if saving fails and there was something to save. */
  predicate Answered(conf: Conf, pt: Pt, req: UpdateRequest, now: Timestamp, salesOpen: bool, saved: bool, pools: seq<PoolView>,
                     r: Result<Pt, Failure>)
  {
    if Refused(conf, pt, req, now, salesOpen, pools) then
      var stop := StoppedBy(conf, pt, req, now, salesOpen, pools);
      if stop.Some? then r == Err(stop.value) else r.Err? && r.error.Capacity?
    else if LacksTerm(conf, pt, req) then r == Err(NoNextTerm)
    else if saved then r.Ok?
    else r == Err(NotSaved) || r == Ok(pt)
  }

  /** A failed update puts every counter back: it took nothing off an oversold pool and, unless
      it was refused, every pool the reservation was on serves the shape it had taken. */
  ghost predicate Restored(conf: Conf, pt: Pt, req: UpdateRequest, now: Timestamp, salesOpen: bool, pools: seq<PoolView>) {
    && Safe(conf, pt, UpdateReleased(conf, pt, req, now, salesOpen, pools), pools)
    && (!Refused(conf, pt, req, now, salesOpen, pools) ==> ServesNew(conf, pt, req, pools))
  }

  lemma LowersSame(conf: Conf, pt: Pt, pt': Pt, released: iset<string>, a: seq<PoolView>, b: seq<PoolView>)
    requires SameHolding(pt, pt') && Lowers(conf, pt', released, a, b)
    ensures Lowers(conf, pt, released, a, b)
  {
    hide HeldShares;
    HeldSame(pt, pt');
    OnPoolsSame(conf, pt, pt', HeldShares(pt));
  }

  lemma RebalanceKeeps(conf: Conf, pt: Pt, rebalance: Option<bool>, pt1: Pt, tier: Option<Tier>)
    requires SameButPlaced(pt1, WithRebalance(conf, pt, rebalance))
    ensures pt1.state == pt.state && pt1.tier == pt.tier && (Retiers(pt1, tier) <==> Retiers(pt, tier))
  {
  }

  /** An update stopped at its first part. */
  lemma UnmoveFailedLowers(conf: Conf, pt0: Pt, req: UpdateRequest, now: Timestamp, salesOpen: bool, a: seq<PoolView>, b: seq<PoolView>)
    requires ValidPt(pt0)
    requires var base := WithAutoRenew(pt0, req.autoRenew);
      && Unmoved(conf, base, req.rebalance, now, a).0.Some?
      && Lowers(conf, base, UnmoveReleased(conf, base, req.rebalance, now, a), a, b)
    ensures Lowers(conf, pt0, UpdateReleased(conf, pt0, req, now, salesOpen, a), a, b)
  {
    hide Lowers, MovedTo, MoveReleased, SplitReleased;
    var base := WithAutoRenew(pt0, req.autoRenew);
    assert Unmoves(base, req.rebalance) && !Retiers(base, req.tier);
    assert UpdateReleased(conf, pt0, req, now, salesOpen, a) == UnmoveReleased(conf, base, req.rebalance, now, a);
    LowersSame(conf, pt0, base, UnmoveReleased(conf, base, req.rebalance, now, a), a, b);
  }

  /** What the first two parts of an update lowered. */
  lemma BegunLowers(conf: Conf, pt0: Pt, req: UpdateRequest, now: Timestamp, base: Pt, pt1: Pt, a: seq<PoolView>, b: seq<PoolView>, c: seq<PoolView>)
    requires base == WithAutoRenew(pt0, req.autoRenew) && pt1.state == base.state && pt1.tier == base.tier
    requires Lowers(conf, base, UnmoveReleased(conf, base, req.rebalance, now, a), a, b)
    requires Exchanged(conf.tb, pt0.tier, Pooled(conf, pt0), pt1.tier, Pooled(conf, pt1), a, b)
    requires Lowers(conf, pt1, RetierReleased(pt1, req.tier), b, c)
    ensures Lowers(conf, pt0, UnmoveReleased(conf, base, req.rebalance, now, a) + RetierReleased(base, req.tier), a, c)
  {
    hide Lowers, UnmoveReleased, Exchanged, Pooled;
    LowersSame(conf, pt0, base, UnmoveReleased(conf, base, req.rebalance, now, a), a, b);
    LowersThen(conf, pt0, pt1, UnmoveReleased(conf, base, req.rebalance, now, a), RetierReleased(base, req.tier), a, b, c);
  }

  /** An update stopped at its tier. */
  lemma RetierFailedLowers(conf: Conf, pt0: Pt, req: UpdateRequest, now: Timestamp, salesOpen: bool, base: Pt, a: seq<PoolView>, c: seq<PoolView>)
    requires base == WithAutoRenew(pt0, req.autoRenew) && Retiers(base, req.tier)
    requires Lowers(conf, pt0, UnmoveReleased(conf, base, req.rebalance, now, a) + RetierReleased(base, req.tier), a, c)
    ensures Lowers(conf, pt0, UpdateReleased(conf, pt0, req, now, salesOpen, a), a, c)
  {
    hide Lowers, UnmoveReleased, SplitReleased, Unmoved;
    assert UpdateReleased(conf, pt0, req, now, salesOpen, a)
        == UnmoveReleased(conf, base, req.rebalance, now, a) + RetierReleased(base, req.tier) by {
      forall r: string
        ensures r in All()
      {
        assert IsRegion(r);
      }
    }
  }

  /** Where an update has got to before its split, `pt1` and `b` before its tier. */
  ghost predicate BegunTo(conf: Conf, pt0: Pt, req: UpdateRequest, now: Timestamp, pt1: Pt, pt2: Pt,
                          a: seq<PoolView>, b: seq<PoolView>, c: seq<PoolView>)
  {
    var base := WithAutoRenew(pt0, req.autoRenew);
    var u := Unmoved(conf, base, req.rebalance, now, a);
    && u.0.None? && u.1 == pt1 && u.2 == b
    && (!Retiers(base, req.tier) ==> pt2 == pt1 && c == b)
    && Exchanged(conf.tb, pt0.tier, Pooled(conf, pt0), pt2.tier, Pooled(conf, pt2), a, c)
    && Lowers(conf, pt0, UnmoveReleased(conf, base, req.rebalance, now, a) + RetierReleased(base, req.tier), a, c)
  }

  /** What all of an update lowered, whether its split went through or not. */
  lemma HoldingLowers(conf: Conf, pt0: Pt, req: UpdateRequest, now: Timestamp, salesOpen: bool, pt1: Pt, pt2: Pt,
                      a: seq<PoolView>, b: seq<PoolView>, c: seq<PoolView>, d: seq<PoolView>)
    requires BegunTo(conf, pt0, req, now, pt1, pt2, a, b, c)
    requires Lowers(conf, pt2, SplitReleased(conf, pt2, req.regions, NewCeiling(pt0, req), now, salesOpen, c), c, d)
    ensures Lowers(conf, pt0, UpdateReleased(conf, pt0, req, now, salesOpen, a), a, d)
  {
    hide Lowers, UnmoveReleased, SplitReleased, Unmoved, Exchanged, Pooled;
    var base := WithAutoRenew(pt0, req.autoRenew);
    var begun := UnmoveReleased(conf, base, req.rebalance, now, a) + RetierReleased(base, req.tier);
    var split := SplitReleased(conf, pt2, req.regions, NewCeiling(pt0, req), now, salesOpen, c);
    LowersThen(conf, pt0, pt2, begun, split, a, c, d);
    assert UpdateReleased(conf, pt0, req, now, salesOpen, a) == begun + split by {
      forall r: string
        ensures r in All()
      {
        assert IsRegion(r);
      }
    }
  }

  lemma HeldSame(pt: Pt, pt': Pt)
    requires SameHolding(pt, pt')
    ensures HeldShares(pt) == HeldShares(pt')
  {
  }
}
