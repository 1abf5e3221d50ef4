/**
 What each operation answers and what it makes of a reservation
 (crates/pt-control-plane/src/service.rs), field by field, from the request and the state
 before it.
 */
module Outcomes {
  import opened Prelude
  import opened Capacity
  import opened Planner
  import opened MemoryPlanner
  import opened Holdings
  import opened Moves
  import opened Changes
  import opened Growing
  import opened Releases
  import opened Terms
  import F = Failover

  // ---------------------------------------------------------------------------
  // Creating, deleting, moving, rebalancing
  // ---------------------------------------------------------------------------

  /** One claim for each region of a new reservation's footprint, on any pool. */
  function FirstClaims(conf: Conf, blank: Pt): seq<Claim> {
    Unplaced(F.Footprint(blank.regions, F.Headroom(conf.pairs, blank.sku, blank.regions)))
  }

  /** A new reservation is sold if sales are open, its claims fit when its term starts, and it
      is saved. */
  predicate Created(conf: Conf, blank: Pt, salesOpen: bool, saved: bool, pools: seq<PoolView>, r: Result<Pt, Failure>, pools': seq<PoolView>) {
    var sale := ReserveAll(conf.tb, Job(blank.model, blank.tier, blank.ceiling), blank.termStart, FirstClaims(conf, blank), pools);
    if !salesOpen then r == Err(SalesPaused)
    else if sale.Err? then r == Err(Failure.Capacity(sale.error))
    else if !saved then r == Err(NotSaved)
    else r.Ok? && pools' == sale.value.1 && Pooled(conf, r.value) == sale.value.0
  }

  /** A reservation that is over, or to end, is left alone. */
  predicate DeletedAs(pt: Pt, saved: bool, r: Result<Pt, Failure>) {
    if pt.state != Scheduled && pt.state != Active then r == Ok(pt)
    else if !saved then r == Err(NotSaved)
    else
      && r.Ok? && r.value.pending.None?
      && r.value == pt.(state := r.value.state, autoRenew := r.value.autoRenew, pending := None)
      && (if pt.state == Scheduled then r.value.state == Cancelled && r.value.autoRenew == pt.autoRenew
          else r.value.state == PendingCancellation && !r.value.autoRenew)
  }

  ghost predicate HasPool(pools: seq<PoolView>, key: Key, model: string) {
    exists p :: p in pools && p.key == key && p.model == model
  }

  /** A region moves to a pool that has room for all of it. */
  ghost predicate MovedAs(conf: Conf, pt: Pt, region: string, pool: string, now: Timestamp, saved: bool, pools: seq<PoolView>, r: Result<Pt, Failure>) {
    if !IsLive(pt.state) || !F.Has(HeldShares(pt), region) || !HasPool(pools, Key(region, pool), pt.model) then r == Err(Invalid)
    else if PoolOf(conf, pt, region) == Some(pool) then r == Ok(pt)
    else MovedOver(conf, pt, region, pool, now, saved, pools, r)
  }

  ghost predicate MovedOver(conf: Conf, pt: Pt, region: string, pool: string, now: Timestamp, saved: bool, pools: seq<PoolView>, r: Result<Pt, Failure>) {
    var cus := F.CusAt(HeldShares(pt), region);
    var sale := ReserveAll(conf.tb, Job(pt.model, pt.tier, pt.ceiling), Max(pt.termStart, now), [Claim(region, Some(pool), cus)], pools);
    if sale.Err? then r == Err(Failure.Capacity(sale.error))
    else if !saved then r == Err(NotSaved)
    else
      && r.Ok? && r.value == pt.(placements := r.value.placements) && PoolOf(conf, r.value, region) == Some(pool)
      && forall other :: other != region && F.Has(HeldShares(pt), other) ==> PoolOf(conf, r.value, other) == PoolOf(conf, pt, other)
  }

  lemma MovedOverIs(conf: Conf, pt: Pt, region: string, pool: string, now: Timestamp, saved: bool, pools: seq<PoolView>, r: Result<Pt, Failure>)
    requires F.Has(HeldShares(pt), region)
    requires var to := Relocated(conf, pt, region, F.CusAt(HeldShares(pt), region), Some(pool), pt.ceiling, Max(pt.termStart, now), pools);
      && r == (if to.Err? then Err(Failure.Capacity(to.error)) else if !saved then Err(NotSaved) else Ok(Tidy(to.value.0)))
      && (to.Ok? ==> to.value.0 == pt.(placements := pt.placements[region := pool]))
    ensures MovedOver(conf, pt, region, pool, now, saved, pools, r)
  {
    hide ReserveAll, ReleaseAll, F.Footprint, F.CusAt;
    if r.Ok? {
      var moved := pt.(placements := pt.placements[region := pool]);
      forall other | F.Has(HeldShares(pt), other)
        ensures PoolOf(conf, r.value, other) == PoolOf(conf, moved, other)
      {
        TidyPlace(conf, moved, other);
      }
    }
  }

  /** A reservation of several regions that lets itself be rebalanced, in a term, and is not
      split like that already. */
  predicate Eligible(pt: Pt, target: seq<F.RegionShare>) {
    && pt.rebalance && |pt.regions| >= 2 && (pt.state == Active || pt.state == PendingCancellation)
    && target != (if pt.moved == [] then pt.regions else pt.moved)
  }

  /** It is moved if every region that grows fits now, on its own pool or on another. */
  predicate RebalancedAs(conf: Conf, pt: Pt, target: seq<F.RegionShare>, now: Timestamp, saved: bool, pools: seq<PoolView>, r: Result<Pt, Failure>) {
    var next := F.Footprint(target, F.Headroom(conf.pairs, pt.sku, target));
    var gs := F.Growth(HeldShares(pt), next);
    if !Eligible(pt, target) then r == Ok(pt)
    else if !FirstGrow(conf, pt, gs, |gs|, next, pt.ceiling, Max(pt.termStart, now), pools) then r.Err? && r.error.Capacity?
    else if !saved then r == Err(NotSaved)
    else
      && r.Ok? && r.value == pt.(moved := r.value.moved, headroom := r.value.headroom, placements := r.value.placements)
      && r.value.moved == (if target == pt.regions then [] else target)
      && r.value.headroom == F.Headroom(conf.pairs, pt.sku, target)
  }

  predicate SomeRoom(tb: Tables, job: Job, claim: Claim, at: Timestamp, pools: seq<PoolView>) {
    exists p :: p in pools && HasRoom(tb, job, claim, p, at)
  }

  predicate SomeAble(tb: Tables, job: Job, claim: Claim, pools: seq<PoolView>) {
    exists p :: p in pools && Able(tb, job, claim, p)
  }

  lemma PlacedIff(tb: Tables, job: Job, claim: Claim, at: Timestamp, pools: seq<PoolView>)
    ensures var r := PlaceAt(tb, job, claim, at, pools);
      (r.Ok? <==> SomeRoom(tb, job, claim, at, pools)) && (r.Err? ==> (r.error.CapacityUnavailable? <==> SomeAble(tb, job, claim, pools)))
  {
    hide Place;
    var k := PlaceIs(tb, job, claim, at, pools);
    if PlaceAt(tb, job, claim, at, pools).Ok? {
      assert pools[k] in pools;
    }
  }

  /** A region grows if its own pool has room for what it grows by; or, if that pool could have
      served it, if some pool of the region has room for all of it. A new region grows if some
      pool of the region has room. */
  lemma GrowsIff(conf: Conf, pt: Pt, g: F.RegionShare, target: seq<F.RegionShare>, ceiling: nat, at: Timestamp, pools: seq<PoolView>)
    ensures var job := Job(pt.model, pt.tier, ceiling);
      var own := if F.Has(HeldShares(pt), g.region) then PoolOf(conf, pt, g.region) else None;
      var all := if F.Has(target, g.region) then F.CusAt(target, g.region) else g.cus;
      Grows(conf, pt, g, target, ceiling, at, pools) <==>
        || SomeRoom(conf.tb, job, Claim(g.region, own, g.cus), at, pools)
        || (own.Some? && SomeAble(conf.tb, job, Claim(g.region, own, g.cus), pools) && SomeRoom(conf.tb, job, Claim(g.region, None, all), at, pools))
  {
    hide Grown, PlaceAt, SomeRoom, SomeAble, HeldShares, F.CusAt, Raise, ReleaseAll, OnPools;
    var job := Job(pt.model, pt.tier, ceiling);
    GrownIs(conf, pt, g, target, ceiling, at, pools);
    PlacedIff(conf.tb, job, ClaimFor(conf, pt, g), at, pools);
    PlacedIff(conf.tb, job, WholeClaim(g, target), at, pools);
  }

  // ---------------------------------------------------------------------------
  // Updating
  // ---------------------------------------------------------------------------

  /** Some region gets more. */
  predicate Larger(current: seq<F.RegionShare>, new_: seq<F.RegionShare>) {
    exists s :: s in new_ && F.CusAt(current, s.region) < s.cus
  }

  /** A new split that is taken at once: any before the term, and after it one that only
      grows. */
  predicate SplitsNow(pt: Pt, regions: Option<seq<F.RegionShare>>) {
    && regions.Some?
    && (if pt.state == Scheduled then regions.value != pt.regions
        else IncreasesOnly(pt.regions, regions.value) && Larger(pt.regions, regions.value))
  }

  /** What an update makes of a reservation besides its pending changes and placements. */
  predicate UpdatedNow(conf: Conf, pt: Pt, req: UpdateRequest, u: Pt) {
    && u == pt.(tier := u.tier, ceiling := u.ceiling, regions := u.regions, moved := u.moved, headroom := u.headroom,
                rebalance := u.rebalance, autoRenew := u.autoRenew, state := u.state, pending := u.pending, placements := u.placements)
    && u.ceiling == (if req.ceiling.Some? then req.ceiling.value else pt.ceiling)
    && u.rebalance == (if req.rebalance.Some? then req.rebalance.value else pt.rebalance)
    && u.autoRenew == (if req.autoRenew.Some? then req.autoRenew.value else pt.autoRenew)
    && u.state == (if req.autoRenew == Some(true) && pt.state == PendingCancellation then Active else pt.state)
    && u.tier == (if req.tier.Some? && pt.state == Scheduled then req.tier.value else pt.tier)
    && u.regions == (if SplitsNow(pt, req.regions) then req.regions.value else pt.regions)
    && u.moved == (if SplitsNow(pt, req.regions) || (req.rebalance == Some(false) && pt.rebalance) then [] else pt.moved)
    && u.headroom == F.Headroom(conf.pairs, pt.sku, if u.moved == [] then u.regions else u.moved)
  }

  function TierKept(pt: Pt): Option<Tier> {
    if pt.pending.Some? then pt.pending.value.tier else None
  }

  function SplitKept(pt: Pt): Option<seq<F.RegionShare>> {
    if pt.pending.Some? then pt.pending.value.regions else None
  }

  /** The tier kept for the next term: one asked for in a term, unless it is the one held. */
  function PendingTier(pt: Pt, req: UpdateRequest): Option<Tier> {
    if req.tier.None? || pt.state == Scheduled then TierKept(pt)
    else if req.tier.value == pt.tier then None
    else req.tier
  }

  /** And the split: one asked for in a term that does not only grow. One that does withdraws
      a split kept before. */
  function PendingSplit(pt: Pt, req: UpdateRequest): Option<seq<F.RegionShare>> {
    if req.regions.None? || pt.state == Scheduled then SplitKept(pt)
    else if IncreasesOnly(pt.regions, req.regions.value) then None
    else req.regions
  }

  predicate KeptForLater(pt: Pt, req: UpdateRequest, u: Pt) {
    TierKept(u) == PendingTier(pt, req) && SplitKept(u) == PendingSplit(pt, req)
  }

  lemma GrowthIffLarger(current: seq<F.RegionShare>, new_: seq<F.RegionShare>)
    requires F.DistinctRegions(new_)
    ensures F.Growth(current, new_) != [] <==> Larger(current, new_)
  {
    hide F.Growth;
    var g := F.Growth(current, new_);
    forall s | s in new_
      ensures F.Has(g, s.region) <==> F.CusAt(current, s.region) < s.cus
    {
      F.GrowthHas(current, new_, s.region);
      F.CusAtHas(new_, s.region);
    }
    if g != [] {
      F.GrowthHas(current, new_, g[0].region);
      F.CusAtHas(new_, g[0].region);
      var i :| 0 <= i < |new_| && new_[i].region == g[0].region;
      assert new_[i] in new_;
    }
  }

  lemma SameSplitIncreases(shares: seq<F.RegionShare>)
    requires F.Whole(shares)
    ensures IncreasesOnly(shares, shares) && !Larger(shares, shares)
  {
    forall n | n in shares
      ensures F.Has(shares, n.region) && F.CusAt(shares, n.region) == n.cus
    {
      var i :| 0 <= i < |shares| && shares[i] == n;
      F.CusAtHas(shares, n.region);
    }
  }

  /** The request up to its split, field by field. */
  predicate UpToItsSplit(pt: Pt, req: UpdateRequest, b: Pt) {
    && b == pt.(tier := b.tier, moved := b.moved, headroom := b.headroom, rebalance := b.rebalance, autoRenew := b.autoRenew, state := b.state)
    && b.rebalance == (if req.rebalance.Some? then req.rebalance.value else pt.rebalance)
    && b.autoRenew == (if req.autoRenew.Some? then req.autoRenew.value else pt.autoRenew)
    && b.state == (if req.autoRenew == Some(true) && pt.state == PendingCancellation then Active else pt.state)
    && b.tier == (if req.tier.Some? && pt.state == Scheduled then req.tier.value else pt.tier)
    && b.moved == (if req.rebalance == Some(false) && pt.rebalance then [] else pt.moved)
  }

  lemma BegunIs(conf: Conf, pt: Pt, req: UpdateRequest)
    ensures UpToItsSplit(pt, req, Begun(conf, pt, req))
  {
    hide F.Headroom;
    var a := WithAutoRenew(pt, req.autoRenew);
    assert a == pt.(autoRenew := a.autoRenew, state := a.state);
    var b := WithRebalance(conf, a, req.rebalance);
    assert b == a.(moved := b.moved, headroom := b.headroom, rebalance := b.rebalance);
  }

  /** What an update that goes through makes of a reservation, all of it. */
  lemma UpdatedIs(conf: Conf, pt: Pt, req: UpdateRequest)
    requires Backed(conf, pt) && ValidPt(pt) && (req.regions.Some? ==> F.Whole(req.regions.value))
    ensures UpdatedNow(conf, pt, req, Updated(conf, pt, req)) && KeptForLater(pt, req, Updated(conf, pt, req))
  {
    hide F.Headroom, F.Growth, F.CusAt, F.Has;
    UpdatedBacked(conf, pt, req, Updated(conf, pt, req));
    BegunIs(conf, pt, req);
    SameSplitIncreases(pt.regions);
    if req.regions.Some? {
      GrowthIffLarger(pt.regions, req.regions.value);
    }
    SplitIs(conf, pt, req);
    LaterIs(conf, pt, req);
  }

  /** And wherever its shares are placed. */
  lemma UpdatedAnywhere(conf: Conf, pt: Pt, req: UpdateRequest, next: Pt)
    requires Backed(conf, pt) && ValidPt(pt) && (req.regions.Some? ==> F.Whole(req.regions.value))
    requires SameButPlaced(next, Updated(conf, pt, req))
    ensures UpdatedNow(conf, pt, req, next) && KeptForLater(pt, req, next)
  {
    hide Updated, SplitsNow, IncreasesOnly, F.Headroom;
    UpdatedIs(conf, pt, req);
  }

  lemma SplitIs(conf: Conf, pt: Pt, req: UpdateRequest)
    requires UpToItsSplit(pt, req, Begun(conf, pt, req)) && !Larger(pt.regions, pt.regions)
    requires req.regions.Some? ==> (F.Growth(pt.regions, req.regions.value) != [] <==> Larger(pt.regions, req.regions.value))
    ensures var b, w := Begun(conf, pt, req), WithNewRegions(conf, Begun(conf, pt, req), req.regions);
      && w == b.(regions := w.regions, moved := w.moved, headroom := w.headroom)
      && w.regions == (if SplitsNow(pt, req.regions) then req.regions.value else b.regions)
      && w.moved == (if SplitsNow(pt, req.regions) then [] else b.moved)
  {
    hide F.Headroom, F.Growth, Begun, Larger, IncreasesOnly;
  }

  lemma LaterIs(conf: Conf, pt: Pt, req: UpdateRequest)
    requires UpToItsSplit(pt, req, Begun(conf, pt, req)) && IncreasesOnly(pt.regions, pt.regions)
    ensures KeptForLater(pt, req, Updated(conf, pt, req))
  {
    hide F.Headroom, F.Growth, Begun, IncreasesOnly, WithPending;
    var b := Begun(conf, pt, req);
    var w := WithNewRegions(conf, b, req.regions);
    assert w.pending == b.pending && (b.state != Scheduled && req.regions.Some? && !IncreasesOnly(b.regions, req.regions.value) ==> w.regions == b.regions);
    hide WithNewRegions;
    PendingIs(w.(ceiling := if req.ceiling.Some? then req.ceiling.value else w.ceiling), LaterTier(b, req.tier), LaterRegions(b, req.regions));
  }

  lemma PendingIs(pt: Pt, tier: Option<Option<Tier>>, regions: Option<Option<seq<F.RegionShare>>>)
    ensures TierKept(WithPending(pt, tier, regions)) == if tier.Some? then tier.value else TierKept(pt)
    ensures SplitKept(WithPending(pt, tier, regions))
         == if regions.None? then SplitKept(pt) else if regions.value == Some(pt.regions) then None else regions.value
  {
  }

  /** A request waits for a next term there is not going to be: the reservation is to end, and
      stays so, and another tier is asked for or a split that does not only grow. */
  lemma LacksTermIff(conf: Conf, pt: Pt, req: UpdateRequest)
    ensures LacksTerm(conf, pt, req) <==>
      && pt.state == PendingCancellation && req.autoRenew != Some(true)
      && ((req.tier.Some? && req.tier.value != pt.tier) || (req.regions.Some? && !IncreasesOnly(pt.regions, req.regions.value)))
  {
    hide F.Headroom, IncreasesOnly, Begun;
    BegunIs(conf, pt, req);
  }

  /** Why a request for another split only is refused. */
  lemma RefusedSplit(conf: Conf, pt: Pt, regions: seq<F.RegionShare>, now: Timestamp, salesOpen: bool, pools: seq<PoolView>)
    requires ValidPt(pt) && F.Whole(regions)
    ensures var held := F.Footprint(regions, F.Headroom(conf.pairs, pt.sku, regions));
      var gs := F.Growth(HeldShares(pt), held);
      Refused(conf, pt, UpdateRequest(None, None, None, Some(regions), None), now, salesOpen, pools) <==>
        || !salesOpen
        || (SplitsNow(pt, Some(regions)) &&
            if pt.state == Scheduled then
              ReserveAll(conf.tb, Job(pt.model, pt.tier, pt.ceiling), pt.termStart, ClaimsFor(conf, pt, held),
                         ReleaseAll(conf.tb, pt.tier, Pooled(conf, pt), pools)).Err?
            else !FirstGrow(conf, pt, gs, |gs|, held, pt.ceiling, Max(pt.termStart, now), pools))
    ensures var held := F.Footprint(regions, F.Headroom(conf.pairs, pt.sku, regions));
      var sale := ReserveAll(conf.tb, Job(pt.model, pt.tier, pt.ceiling), pt.termStart, ClaimsFor(conf, pt, held),
                             ReleaseAll(conf.tb, pt.tier, Pooled(conf, pt), pools));
      var stop := StoppedBy(conf, pt, UpdateRequest(None, None, None, Some(regions), None), now, salesOpen, pools);
      if !salesOpen then stop == Some(SalesPaused)
      else if pt.state == Scheduled && regions != pt.regions then stop == if sale.Err? then Some(Failure.Capacity(sale.error)) else None
      else stop.Some? ==> stop.value.Capacity?
  {
    hide ReserveAll, ReleaseAll, AllGrown, IncreasesOnly, F.Growth, F.Headroom, Pooled, F.Footprint, FirstGrow, Larger;
    var next := WithRegions(conf, pt, regions);
    var gs := F.Growth(HeldShares(pt), HeldShares(next));
    GrowthIffLarger(pt.regions, regions);
    WithRegionsValid(conf, pt, regions);
    HeldDistinct(next);
    F.GrowthDistinct(HeldShares(pt), HeldShares(next));
    MoveGoesThroughIff(conf, pt, gs, HeldShares(next), pt.ceiling, Max(pt.termStart, now), pools);
    assert HeldShares(next) == F.Footprint(regions, F.Headroom(conf.pairs, pt.sku, regions));
  }

  /** Another tier only, another shape only, automatic renewal only. */
  lemma RefusedOther(conf: Conf, pt: Pt, tier: Tier, ceiling: nat, autoRenew: Option<bool>, now: Timestamp, salesOpen: bool, pools: seq<PoolView>)
    ensures Refused(conf, pt, UpdateRequest(None, None, Some(tier), None, None), now, salesOpen, pools) <==>
       && pt.state == Scheduled && tier != pt.tier
       && ReserveAll(conf.tb, Job(pt.model, tier, pt.ceiling), pt.termStart, AsClaims(Pooled(conf, pt)),
                     ReleaseAll(conf.tb, pt.tier, Pooled(conf, pt), pools)).Err?
    ensures Refused(conf, pt, UpdateRequest(None, None, None, None, Some(ceiling)), now, salesOpen, pools) <==>
       && ceiling != pt.ceiling
       && exists s :: s in HeldShares(pt) && !ShapeOk(conf.tb, pt.model, ceiling, ClaimFor(conf, pt, s), pools)
    ensures !Refused(conf, pt, UpdateRequest(autoRenew, None, None, None, None), now, salesOpen, pools)
  {
    hide ReserveAll, ReleaseAll, AllGrown, IncreasesOnly, F.Growth, ShapeOk, F.Headroom, Pooled;
    ClaimsHave(conf, pt, ceiling, pools);
  }

  lemma ClaimsHave(conf: Conf, pt: Pt, ceiling: nat, pools: seq<PoolView>)
    ensures (exists c :: c in ClaimsFor(conf, pt, HeldShares(pt)) && !ShapeOk(conf.tb, pt.model, ceiling, c, pools))
            <==> exists s :: s in HeldShares(pt) && !ShapeOk(conf.tb, pt.model, ceiling, ClaimFor(conf, pt, s), pools)
  {
    hide ShapeOk;
    var held, claims := HeldShares(pt), ClaimsFor(conf, pt, HeldShares(pt));
    hide HeldShares;
    forall s | s in held
      ensures ClaimFor(conf, pt, s) in claims
    {
      var i :| 0 <= i < |held| && held[i] == s;
      assert claims[i] == ClaimFor(conf, pt, s);
    }
  }

  // ---------------------------------------------------------------------------
  // Renewing
  // ---------------------------------------------------------------------------

  /** The split kept for a renewal fits when the next term starts, in place of what is held. */
  predicate SplitFits(conf: Conf, pt: Pt, regions: seq<F.RegionShare>, pools: seq<PoolView>) {
    var held := F.Footprint(regions, F.Headroom(conf.pairs, pt.sku, regions));
    ReserveAll(conf.tb, Job(pt.model, pt.tier, pt.ceiling), pt.termEnd, ClaimsFor(conf, pt, held),
               ReleaseAll(conf.tb, pt.tier, Pooled(conf, pt), pools)).Ok?
  }

  /** And a tier, on the pools held. */
  predicate TierTaken(conf: Conf, pt: Pt, tier: Tier, pools: seq<PoolView>) {
    ReserveAll(conf.tb, Job(pt.model, tier, pt.ceiling), pt.termEnd, AsClaims(Pooled(conf, pt)),
               ReleaseAll(conf.tb, pt.tier, Pooled(conf, pt), pools)).Ok?
  }

  lemma FitsSame(conf: Conf, pt: Pt, regions: seq<F.RegionShare>, tier: Tier, pools: seq<PoolView>)
    ensures var p := pt.(pending := None);
      SplitFits(conf, p, regions, pools) == SplitFits(conf, pt, regions, pools) && TierTaken(conf, p, tier, pools) == TierTaken(conf, pt, tier, pools)
  {
    hide ReserveAll, ReleaseAll, F.Headroom, F.Footprint, OnPools;
    var p := pt.(pending := None);
    OnPoolsSame(conf, pt, p, HeldShares(pt));
    var held := F.Footprint(regions, F.Headroom(conf.pairs, pt.sku, regions));
    assert ClaimsFor(conf, p, held) == ClaimsFor(conf, pt, held);
  }

  lemma RenewedRegionsIs(conf: Conf, pt: Pt, regions: seq<F.RegionShare>, pools: seq<PoolView>)
    ensures var r, fits := RenewedRegions(conf, pt, regions, pools).0, SplitFits(conf, pt, regions, pools);
      && r == pt.(regions := r.regions, moved := r.moved, headroom := r.headroom, placements := r.placements)
      && r.regions == (if fits then regions else pt.regions) && r.moved == (if fits then [] else pt.moved)
      && r.headroom == (if fits then F.Headroom(conf.pairs, pt.sku, regions) else pt.headroom)
  {
    hide ReserveAll, ReleaseAll, UndoOne, F.Headroom, F.Footprint, Pooled;
    var out := SwapOut(conf, pt, Job(pt.model, pt.tier, pt.ceiling), RegionClaims(conf, pt, regions), pools);
    if out.0.Some? {
      RecordKeeps(WithRegions(conf, pt, regions), out.0.value);
    }
  }

  lemma RenewedTierIs(conf: Conf, pt: Pt, tier: Tier, pools: seq<PoolView>)
    ensures RenewedTier(conf, pt, tier, pools).0 == pt.(tier := if TierTaken(conf, pt, tier, pools) then tier else pt.tier)
  {
    hide ReserveAll, ReleaseAll, UndoOne, Pooled;
  }

  /** A renewal takes the split kept for it if it fits, and then the tier; it keeps neither, and
      moves on by one term. */
  lemma RenewedIs(conf: Conf, pt: Pt, nextEnd: Timestamp, pools: seq<PoolView>)
    ensures var r := Renewed(conf, pt, nextEnd, pools).0;
      var asks := if pt.pending.Some? then pt.pending.value else PendingChanges(None, None);
      var splits := asks.regions.Some? && asks.regions.value != pt.regions && SplitFits(conf, pt, asks.regions.value, pools);
      && r == pt.(tier := r.tier, regions := r.regions, moved := r.moved, headroom := r.headroom, placements := r.placements,
                  pending := None, termStart := pt.termEnd, termEnd := nextEnd)
      && r.regions == (if splits then asks.regions.value else pt.regions)
      && r.moved == (if splits then [] else pt.moved)
      && r.headroom == (if splits then F.Headroom(conf.pairs, pt.sku, asks.regions.value) else pt.headroom)
      && (r.tier == pt.tier || asks.tier == Some(r.tier))
      && (asks.tier.Some? && (asks.regions.None? || asks.regions.value == pt.regions) ==>
          r.tier == if TierTaken(conf, pt, asks.tier.value, pools) then asks.tier.value else pt.tier)
      && (asks.tier.Some? && asks.regions.Some? && asks.regions.value != pt.regions ==>
          var first := RenewedRegions(conf, pt.(pending := None), asks.regions.value, pools);
          r.tier == if TierTaken(conf, first.0, asks.tier.value, first.1) then asks.tier.value else pt.tier)
  {
    hide RenewedRegions, RenewedTier, SplitFits, TierTaken, F.Headroom;
    var p := pt.(pending := None);
    var first := (p, pools);
    if WantsRegions(pt) {
      var regions := pt.pending.value.regions.value;
      first := RenewedRegions(conf, p, regions, pools);
      RenewedRegionsIs(conf, p, regions, pools);
      FitsSame(conf, pt, regions, pt.tier, pools);
    }
    if WantsTier(pt) {
      RenewedTierIs(conf, first.0, pt.pending.value.tier.value, first.1);
      FitsSame(conf, pt, pt.regions, pt.pending.value.tier.value, pools);
    }
  }
}
