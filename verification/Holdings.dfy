/**
 What a reservation holds from the planner, and the operation log that undoes a change
 (crates/pt-control-plane/src/service.rs).
 */
module Holdings {
  import opened Prelude
  import opened Capacity
  import opened Planner
  import opened MemoryPlanner
  import F = Failover

  datatype State = Scheduled | Active | PendingCancellation | Ended | Cancelled

  predicate IsLive(s: State) {
    s.Scheduled? || s.Active? || s.PendingCancellation?
  }

  datatype PendingChanges = PendingChanges(tier: Option<Tier>, regions: Option<seq<F.RegionShare>>)

  /** A reservation, as far as capacity goes. `moved` is the effective split when it differs
      from the contract; `placements` maps a region to its pool; `ceiling` is the shape. */
  datatype Pt = Pt(
    id: string, model: string, tier: Tier, sku: F.Sku, ceiling: nat,
    regions: seq<F.RegionShare>, moved: seq<F.RegionShare>, headroom: seq<F.RegionShare>,
    placements: map<string, string>, rebalance: bool, autoRenew: bool, state: State,
    pending: Option<PendingChanges>, termStart: Timestamp, termEnd: Timestamp)

  /** `defaults` is each (region, model)'s default pool. */
  datatype Conf = Conf(tb: Tables, pairs: F.Pairs, defaults: map<(string, string), string>)

  function Effective(pt: Pt): seq<F.RegionShare> {
    if pt.moved == [] then pt.regions else pt.moved
  }

  function HeldShares(pt: Pt): seq<F.RegionShare> {
    F.Footprint(Effective(pt), pt.headroom)
  }

  predicate ValidPt(pt: Pt) {
    && F.Whole(pt.regions) && F.Whole(pt.moved) && F.Whole(pt.headroom)
    && (pt.pending.Some? && pt.pending.value.regions.Some? ==> F.Whole(pt.pending.value.regions.value))
    && (pt.state == Scheduled ==> pt.moved == [])
  }

  /** The headroom kept is what the effective split needs. */
  predicate Backed(conf: Conf, pt: Pt) {
    pt.headroom == F.Headroom(conf.pairs, pt.sku, Effective(pt))
  }

  /** While only one region has incidents, a reservation may use no more in any region than
      the planner holds for it there. */
  lemma HeldCoversFailover(conf: Conf, pt: Pt, incidents: seq<F.Incident>, failed: string, region: string, seen: int, ramp: nat, now: nat)
    requires ValidPt(pt) && Backed(conf, pt) && pt.sku == F.MultiRegion
    requires forall i :: i in incidents ==> i.region == failed
    ensures var split := Effective(pt);
      F.EffectiveCus(F.CusAt(split, region), F.SharesTo(F.Targets(conf.pairs, split), split, region), F.Failovers(incidents, seen, ramp), now)
      <= F.CusAt(HeldShares(pt), region) as real
  {
    F.EffectiveWithinFootprint(conf.pairs, Effective(pt), incidents, failed, region, seen, ramp, now);
  }

  lemma HeldDistinct(pt: Pt)
    requires ValidPt(pt)
    ensures F.DistinctRegions(HeldShares(pt)) && F.Whole(HeldShares(pt))
  {
    F.FootprintWhole(Effective(pt), pt.headroom);
  }

  function PoolOf(conf: Conf, pt: Pt, region: string): Option<string> {
    if region in pt.placements then Some(pt.placements[region]) else Lookup(conf.defaults, (region, pt.model))
  }

  /** `shares` on the pools that hold them. */
  function OnPools(conf: Conf, pt: Pt, shares: seq<F.RegionShare>): seq<PoolShare> {
    if shares == [] then []
    else
      (match PoolOf(conf, pt, shares[0].region)
       case None => []
       case Some(pool) => [PoolShare(shares[0].region, pool, shares[0].cus)]) + OnPools(conf, pt, shares[1..])
  }

  function Pooled(conf: Conf, pt: Pt): seq<PoolShare> {
    OnPools(conf, pt, HeldShares(pt))
  }

  /** Claims that name the pools `shares` are on. */
  function AsClaims(shares: seq<PoolShare>): (r: seq<Claim>)
    ensures |r| == |shares|
  {
    seq(|shares|, i requires 0 <= i < |shares| => Claim(shares[i].region, Some(shares[i].pool), shares[i].cus))
  }

  function Unplaced(shares: seq<F.RegionShare>): (r: seq<Claim>)
    ensures |r| == |shares|
  {
    seq(|shares|, i requires 0 <= i < |shares| => Claim(shares[i].region, None, shares[i].cus))
  }

  /** A region held now stays on its pool; a new one is placed where it fits best. */
  function ClaimFor(conf: Conf, pt: Pt, s: F.RegionShare): Claim {
    Claim(s.region, if F.Has(HeldShares(pt), s.region) then PoolOf(conf, pt, s.region) else None, s.cus)
  }

  function ClaimsFor(conf: Conf, pt: Pt, shares: seq<F.RegionShare>): (r: seq<Claim>)
    ensures |r| == |shares|
  {
    seq(|shares|, i requires 0 <= i < |shares| => ClaimFor(conf, pt, shares[i]))
  }

  /** Remember where `placed` went. */
  function Record(pt: Pt, placed: seq<PoolShare>): Pt
    decreases |placed|
  {
    if placed == [] then pt
    else Record(pt.(placements := pt.placements[placed[0].region := placed[0].pool]), placed[1..])
  }

  /** Forget placements in regions no longer held. */
  function Tidy(pt: Pt): Pt {
    pt.(placements := map r | r in pt.placements && F.Has(HeldShares(pt), r) :: pt.placements[r])
  }

  // ---------------------------------------------------------------------------
  // Region by region
  // ---------------------------------------------------------------------------

  function PoolCost(tb: Tables, tier: Tier, key: Key, cus: nat): nat {
    CostOrZero(tb, tier, PoolShare(key.region, key.pool, cus))
  }

  lemma PoolCostAdds(tb: Tables, tier: Tier, key: Key, a: nat, b: nat)
    ensures PoolCost(tb, tier, key, a + b) == PoolCost(tb, tier, key, a) + PoolCost(tb, tier, key, b)
    ensures PoolCost(tb, tier, key, 0) == 0
  {
    match PerCu(tb.costs, key, tier)
    case None =>
    case Some(c) => assert c * (a + b) == c * a + c * b;
  }

  /** What `cus` CUs of `pt` in the pool's region put on the pool. */
  function HoldCus(conf: Conf, pt: Pt, key: Key, cus: nat): nat {
    if PoolOf(conf, pt, key.region) == Some(key.pool) then PoolCost(conf.tb, pt.tier, key, cus) else 0
  }

  /** A pool holds the region's share if the region is placed on it, and else nothing. */
  lemma {:induction false} OnPoolsCost(conf: Conf, pt: Pt, shares: seq<F.RegionShare>, key: Key)
    requires F.DistinctRegions(shares)
    ensures CostOf(conf.tb, pt.tier, OnPools(conf, pt, shares), key) == HoldCus(conf, pt, key, F.CusAt(shares, key.region))
  {
    PoolCostAdds(conf.tb, pt.tier, key, 0, 0);
    if shares != [] {
      var rest := OnPools(conf, pt, shares[1..]);
      OnPoolsCost(conf, pt, shares[1..], key);
      if shares[0].region == key.region {
        assert !F.Has(shares[1..], key.region);
        F.CusAtHas(shares[1..], key.region);
      }
      var all := OnPools(conf, pt, shares);
      if PoolOf(conf, pt, shares[0].region).Some? {
        assert all[1..] == rest;
      } else {
        assert all == rest;
      }
    }
  }

  /** Recording shares placed for distinct regions puts each region on its share's pool. */
  lemma {:induction false} RecordPlaces(pt: Pt, placed: seq<PoolShare>, region: string)
    requires forall i, j :: 0 <= i < j < |placed| ==> placed[i].region != placed[j].region
    ensures forall i :: 0 <= i < |placed| && placed[i].region == region ==>
      region in Record(pt, placed).placements && Record(pt, placed).placements[region] == placed[i].pool
    ensures (forall i :: 0 <= i < |placed| ==> placed[i].region != region) ==>
      Lookup(Record(pt, placed).placements, region) == Lookup(pt.placements, region)
    ensures Record(pt, placed) == pt.(placements := Record(pt, placed).placements)
    decreases |placed|
  {
    if placed != [] {
      var pt1 := pt.(placements := pt.placements[placed[0].region := placed[0].pool]);
      assert forall i :: 0 <= i < |placed[1..]| ==> placed[1..][i] == placed[i + 1];
      RecordPlaces(pt1, placed[1..], region);
      forall i | 0 <= i < |placed| && placed[i].region == region
        ensures region in Record(pt, placed).placements && Record(pt, placed).placements[region] == placed[i].pool
      {
        if i > 0 {
          assert placed[1..][i - 1] == placed[i];
        } else {
          assert forall j :: 0 <= j < |placed[1..]| ==> placed[1..][j].region != region;
        }
      }
      if forall i :: 0 <= i < |placed| ==> placed[i].region != region {
        assert forall j :: 0 <= j < |placed[1..]| ==> placed[1..][j].region != region;
        assert placed[0].region != region;
      }
    }
  }

  /** Placed, recorded and read back: the same shares on the same pools. */
  lemma RecordedOnPools(conf: Conf, pt: Pt, shares: seq<F.RegionShare>, claims: seq<Claim>, placed: seq<PoolShare>)
    requires F.DistinctRegions(shares) && |claims| == |shares| == |placed|
    requires forall i :: 0 <= i < |shares| ==> claims[i].region == shares[i].region && claims[i].cus == shares[i].cus
    requires forall i :: 0 <= i < |shares| ==> Answers(claims[i], placed[i])
    ensures OnPools(conf, Record(pt, placed), shares) == placed
  {
    forall i | 0 <= i < |shares|
      ensures PoolOf(conf, Record(pt, placed), shares[i].region) == Some(placed[i].pool)
    {
      RecordPlaces(pt, placed, shares[i].region);
    }
    OnPoolsIs(conf, Record(pt, placed), shares, placed);
  }

  lemma {:induction false} OnPoolsIs(conf: Conf, pt: Pt, shares: seq<F.RegionShare>, placed: seq<PoolShare>)
    requires |shares| == |placed|
    requires forall i :: 0 <= i < |shares| ==> PoolOf(conf, pt, shares[i].region) == Some(placed[i].pool)
    requires forall i :: 0 <= i < |shares| ==> placed[i].region == shares[i].region && placed[i].cus == shares[i].cus
    ensures OnPools(conf, pt, shares) == placed
  {
    if shares != [] {
      assert forall i :: 0 <= i < |shares[1..]| ==> shares[1..][i] == shares[i + 1] && placed[1..][i] == placed[i + 1];
      OnPoolsIs(conf, pt, shares[1..], placed[1..]);
      assert placed == [placed[0]] + placed[1..];
    }
  }

  lemma {:induction false} OnPoolsSame(conf: Conf, a: Pt, b: Pt, shares: seq<F.RegionShare>)
    requires forall s :: s in shares ==> PoolOf(conf, a, s.region) == PoolOf(conf, b, s.region)
    ensures OnPools(conf, a, shares) == OnPools(conf, b, shares)
  {
    if shares != [] {
      OnPoolsSame(conf, a, b, shares[1..]);
    }
  }

  /** Tidying forgets nothing that is held. */
  lemma TidyKeepsPooled(conf: Conf, pt: Pt)
    ensures Pooled(conf, Tidy(pt)) == Pooled(conf, pt)
    ensures HeldShares(Tidy(pt)) == HeldShares(pt)
  {
    forall s | s in HeldShares(pt)
      ensures PoolOf(conf, pt, s.region) == PoolOf(conf, Tidy(pt), s.region)
    {
      var i :| 0 <= i < |HeldShares(pt)| && HeldShares(pt)[i] == s;
    }
    OnPoolsSame(conf, pt, Tidy(pt), HeldShares(pt));
  }

  // ---------------------------------------------------------------------------
  // Counters before and after
  // ---------------------------------------------------------------------------

  /** `b` is `a` with `gone` at `tier` taken out and `come` at `tier'` put in. */
  predicate Exchanged(tb: Tables, tier: Tier, gone: seq<PoolShare>, tier': Tier, come: seq<PoolShare>, a: seq<PoolView>, b: seq<PoolView>) {
    SamePools(a, b) && forall k :: 0 <= k < |a| ==>
      b[k].reserved + CostOf(tb, tier, gone, a[k].key) == a[k].reserved + CostOf(tb, tier', come, a[k].key)
  }

  lemma ExchangedTransitive(tb: Tables, t1: Tier, s1: seq<PoolShare>, t2: Tier, s2: seq<PoolShare>, t3: Tier, s3: seq<PoolShare>,
                            a: seq<PoolView>, b: seq<PoolView>, c: seq<PoolView>)
    requires Exchanged(tb, t1, s1, t2, s2, a, b) && Exchanged(tb, t2, s2, t3, s3, b, c)
    ensures Exchanged(tb, t1, s1, t3, s3, a, c)
  {
    SamePoolsTransitive(a, b, c);
    forall k | 0 <= k < |a|
      ensures c[k].reserved + CostOf(tb, t1, s1, a[k].key) == a[k].reserved + CostOf(tb, t3, s3, a[k].key)
    {
      assert a[k].key == b[k].key by {
        assert a[k].(reserved := 0) == b[k].(reserved := 0);
      }
    }
  }

  lemma SamePoolsKeys(a: seq<PoolView>, b: seq<PoolView>)
    requires SamePools(a, b)
    ensures forall k :: 0 <= k < |a| ==> a[k].key == b[k].key && a[k].model == b[k].model && a[k].maxContext == b[k].maxContext
                                         && a[k].capacity == b[k].capacity
    ensures DistinctKeys(a) ==> DistinctKeys(b)
    ensures SamePools(b, a)
  {
    forall k | 0 <= k < |a|
      ensures a[k].key == b[k].key && a[k].model == b[k].model && a[k].maxContext == b[k].maxContext && a[k].capacity == b[k].capacity
    {
      assert a[k].(reserved := 0) == b[k].(reserved := 0);
    }
  }

  // ---------------------------------------------------------------------------
  // The operation log and its undo
  // ---------------------------------------------------------------------------

  datatype PlanOp = Reserved(tier: Tier, shares: seq<PoolShare>) | Released(tier: Tier, shares: seq<PoolShare>)

  /** One planner call took the counters from `a` to `b`. */
  predicate OpStep(tb: Tables, a: seq<PoolView>, op: PlanOp, b: seq<PoolView>) {
    match op
    case Reserved(tier, shares) => Added(tb, tier, shares, a, b)
    case Released(tier, shares) => Added(tb, tier, shares, b, a)
  }

  /** The counters at every point of a log of planner calls. */
  datatype Trail = Start(pools: seq<PoolView>) | Then(before: Trail, op: PlanOp, pools: seq<PoolView>) {
    function First(): seq<PoolView> {
      match this case Start(p) => p case Then(b, _, _) => b.First()
    }

    function Ops(): seq<PlanOp> {
      match this case Start(_) => [] case Then(b, op, _) => b.Ops() + [op]
    }

    /** The counters before call `n`, or at the end. */
    function At(n: nat): seq<PoolView>
      requires n <= |Ops()|
    {
      if n == |Ops()| then pools else before.At(n)
    }
  }

  /** Each call took the counters from one point of the trail to the next. */
  predicate Walked(tb: Tables, trail: Trail) {
    match trail
    case Start(p) => DistinctKeys(p)
    case Then(b, op, p) => Walked(tb, b) && OpStep(tb, b.pools, op, p) && DistinctKeys(p)
  }

  /** A pool that serves the model and the shape and can cost the tier. */
  predicate Serves(tb: Tables, job: Job, key: Key, p: PoolView) {
    p.key == key && p.model == job.model && job.ceiling <= p.maxContext && PerCu(tb.costs, key, job.tier).Some?
  }

  predicate AllServed(tb: Tables, job: Job, shares: seq<PoolShare>, pools: seq<PoolView>) {
    forall s :: s in shares ==> exists k :: 0 <= k < |pools| && Serves(tb, job, s.Where(), pools[k])
  }

  /** The pools `shares` draw on are within everything they will ever hold. */
  predicate WithinFinal(tb: Tables, tier: Tier, shares: seq<PoolShare>, pools: seq<PoolView>) {
    forall k :: 0 <= k < |pools| && CostOf(tb, tier, shares, pools[k].key) > 0 ==> pools[k].reserved <= SizeAt(tb, pools[k], TIMESTAMP_MAX)
  }

  /** What it takes to put released shares back: `pools` are the counters before the release. */
  predicate Restorable(tb: Tables, job: Job, shares: seq<PoolShare>, pools: seq<PoolView>) {
    AllServed(tb, job, shares, pools) && WithinFinal(tb, job.tier, shares, pools)
  }

  /** Where a claim naming a serving pool with room goes. */
  lemma NamedPlacement(tb: Tables, job: Job, claim: Claim, at: Timestamp, pools: seq<PoolView>, k: nat)
    requires DistinctKeys(pools) && k < |pools| && claim.pool.Some?
    requires Serves(tb, job, Key(claim.region, claim.pool.value), pools[k])
    requires Fits(tb, job.tier, pools[k], claim.cus, at)
    ensures PlaceAt(tb, job, claim, at, pools) == Ok((claim.pool.value, Need(tb, job.tier, pools[k], claim.cus)))
  {
    assert pools[k] in pools && Usable(tb, job, claim, pools[k]);
    PlaceOkIffSomeFits(tb, job, claim, at, pools);
    var i := PlaceIsBestFit(tb, job, claim, at, pools);
    var p := UsablePools(tb, job, claim, pools)[i];
    var j :| 0 <= j < |pools| && pools[j] == p;
    assert pools[j].key == pools[k].key;
  }

  /** The first share goes back where it was. */
  lemma ReReserveHead(tb: Tables, job: Job, shares: seq<PoolShare>, a: seq<PoolView>, b: seq<PoolView>)
    requires shares != [] && DistinctKeys(b) && Added(tb, job.tier, shares, b, a) && Restorable(tb, job, shares, a)
    ensures PlaceAt(tb, job, AsClaims(shares)[0], TIMESTAMP_MAX, b) == Ok((shares[0].pool, CostOrZero(tb, job.tier, shares[0])))
  {
    var s := shares[0];
    assert s in shares;
    var k :| 0 <= k < |a| && Serves(tb, job, s.Where(), a[k]);
    SamePoolsKeys(b, a);
    assert Serves(tb, job, s.Where(), b[k]);
    hide Place;
    assert Fits(tb, job.tier, b[k], s.cus, TIMESTAMP_MAX);
    NamedPlacement(tb, job, AsClaims(shares)[0], TIMESTAMP_MAX, b, k);
  }

  lemma RestorableTail(tb: Tables, job: Job, shares: seq<PoolShare>, a: seq<PoolView>)
    requires shares != [] && Restorable(tb, job, shares, a)
    ensures Restorable(tb, job, shares[1..], a)
  {
    forall s | s in shares[1..]
      ensures exists k :: 0 <= k < |a| && Serves(tb, job, s.Where(), a[k])
    {
      assert s in shares;
    }
    forall k | 0 <= k < |a| && CostOf(tb, job.tier, shares[1..], a[k].key) > 0
      ensures a[k].reserved <= SizeAt(tb, a[k], TIMESTAMP_MAX)
    {
      assert CostOf(tb, job.tier, shares, a[k].key) > 0;
    }
  }

  /** Putting back what a release took, naming the pools, restores the counters exactly. */
  lemma {:induction false} ReReserve(tb: Tables, job: Job, shares: seq<PoolShare>, a: seq<PoolView>, b: seq<PoolView>)
    requires DistinctKeys(b) && Added(tb, job.tier, shares, b, a) && Restorable(tb, job, shares, a)
    ensures ReserveAll(tb, job, TIMESTAMP_MAX, AsClaims(shares), b) == Ok((shares, a))
    decreases |shares|
  {
    if shares == [] {
      assert forall k :: 0 <= k < |a| ==> a[k] == b[k].(reserved := a[k].reserved);
      assert a == b;
    } else {
      ReReserveHead(tb, job, shares, a, b);
      RaisedAdded(tb, job.tier, shares, b, a);
      RestorableTail(tb, job, shares, a);
      hide PlaceAt, Added, Restorable, DistinctKeys, CostOrZero;
      ReReserve(tb, job, shares[1..], a, Raise(b, shares[0].Where(), CostOrZero(tb, job.tier, shares[0])));
      assert AsClaims(shares)[1..] == AsClaims(shares[1..]);
      assert shares == [shares[0]] + shares[1..];
    }
  }

  lemma RaisedAdded(tb: Tables, tier: Tier, shares: seq<PoolShare>, b: seq<PoolView>, a: seq<PoolView>)
    requires shares != [] && Added(tb, tier, shares, b, a)
    ensures Added(tb, tier, shares[1..], Raise(b, shares[0].Where(), CostOrZero(tb, tier, shares[0])), a)
    ensures DistinctKeys(b) ==> DistinctKeys(Raise(b, shares[0].Where(), CostOrZero(tb, tier, shares[0])))
    ensures forall k :: 0 <= k < |b| ==> CostOf(tb, tier, shares[1..], b[k].key) <= CostOf(tb, tier, shares, b[k].key)
  {
  }

  /** What a successful reservation proves: every claim got a pool that serves it. */
  lemma {:induction false} ReservedServed(tb: Tables, job: Job, at: Timestamp, claims: seq<Claim>, pools: seq<PoolView>)
    requires DistinctKeys(pools) && ReserveAll(tb, job, at, claims, pools).Ok?
    ensures AllServed(tb, job, ReserveAll(tb, job, at, claims, pools).value.0, pools)
    decreases |claims|
  {
    if claims != [] {
      var p, share := ReserveAllHead(tb, job, at, claims, pools);
      var raised := Raise(pools, p.key, CostOrZero(tb, job.tier, share));
      ReservedServed(tb, job, at, claims[1..], raised);
      var rest := ReserveAll(tb, job, at, claims[1..], raised).value.0;
      var k0 :| 0 <= k0 < |pools| && pools[k0] == p;
      assert Serves(tb, job, share.Where(), pools[k0]);
      forall s | s in rest
        ensures exists k :: 0 <= k < |pools| && Serves(tb, job, s.Where(), pools[k])
      {
        var k :| 0 <= k < |raised| && Serves(tb, job, s.Where(), raised[k]);
        assert Serves(tb, job, s.Where(), pools[k]);
      }
    }
  }

  /** And every pool it drew on is within its size at `at`. */
  lemma {:induction false} ReservedWithin(tb: Tables, job: Job, at: Timestamp, claims: seq<Claim>, pools: seq<PoolView>)
    requires DistinctKeys(pools) && ReserveAll(tb, job, at, claims, pools).Ok?
    ensures var r := ReserveAll(tb, job, at, claims, pools).value;
      && SamePools(pools, r.1)
      && (forall k :: 0 <= k < |pools| && CostOf(tb, job.tier, r.0, pools[k].key) > 0 ==> r.1[k].reserved <= SizeAt(tb, pools[k], at))
      && AllServed(tb, job, r.0, pools)
    decreases |claims|
  {
    ReservedServed(tb, job, at, claims, pools);
    ReserveAllAdds(tb, job, at, claims, pools);
    if claims != [] {
      var p, share := ReserveAllHead(tb, job, at, claims, pools);
      var raised := Raise(pools, p.key, CostOrZero(tb, job.tier, share));
      ReserveAllAdds(tb, job, at, claims[1..], raised);
      ReservedWithin(tb, job, at, claims[1..], raised);
      var r, rest := ReserveAll(tb, job, at, claims, pools).value, ReserveAll(tb, job, at, claims[1..], raised).value;
      hide ReserveAll, AllServed;
      var k0 :| 0 <= k0 < |pools| && pools[k0] == p;
      forall k | 0 <= k < |pools| && CostOf(tb, job.tier, r.0, pools[k].key) > 0
        ensures r.1[k].reserved <= SizeAt(tb, pools[k], at)
      {
        assert r.0[1..] == rest.0 && raised[k].key == pools[k].key && SizeAt(tb, raised[k], at) == SizeAt(tb, pools[k], at);
        if CostOf(tb, job.tier, rest.0, pools[k].key) == 0 {
          assert pools[k].key == share.Where();
          assert k == k0;
        }
      }
    }
  }

  /** A release can be undone exactly when its pools serve the shape the undo is given and
      were within their final size. */
  lemma UndoReleaseIff(tb: Tables, job: Job, shares: seq<PoolShare>, a: seq<PoolView>, b: seq<PoolView>)
    requires DistinctKeys(a) && Added(tb, job.tier, shares, b, a)
    ensures ReserveAll(tb, job, TIMESTAMP_MAX, AsClaims(shares), b) == Ok((shares, a)) <==> Restorable(tb, job, shares, a)
    ensures ReserveAll(tb, job, TIMESTAMP_MAX, AsClaims(shares), b).Ok? <==> Restorable(tb, job, shares, a)
  {
    SamePoolsKeys(b, a);
    SamePoolsKeys(a, b);
    if Restorable(tb, job, shares, a) {
      ReReserve(tb, job, shares, a, b);
    } else if ReserveAll(tb, job, TIMESTAMP_MAX, AsClaims(shares), b).Ok? {
      var claims := AsClaims(shares);
      var r := ReserveAll(tb, job, TIMESTAMP_MAX, claims, b).value;
      ReserveAllAdds(tb, job, TIMESTAMP_MAX, claims, b);
      assert r.0 == shares by {
        assert forall i :: 0 <= i < |shares| ==> Answers(claims[i], r.0[i]) && r.0[i] == shares[i];
      }
      ReservedWithin(tb, job, TIMESTAMP_MAX, claims, b);
      WithinCarries(tb, job, shares, a, b, r.1);
      assert false;
    }
  }

  lemma WithinCarries(tb: Tables, job: Job, shares: seq<PoolShare>, a: seq<PoolView>, b: seq<PoolView>, after: seq<PoolView>)
    requires SamePools(b, a) && Added(tb, job.tier, shares, b, a) && Added(tb, job.tier, shares, b, after)
    requires AllServed(tb, job, shares, b)
    requires forall k :: 0 <= k < |b| && CostOf(tb, job.tier, shares, b[k].key) > 0 ==> after[k].reserved <= SizeAt(tb, b[k], TIMESTAMP_MAX)
    ensures Restorable(tb, job, shares, a)
  {
    SamePoolsKeys(b, a);
    forall s | s in shares
      ensures exists k :: 0 <= k < |a| && Serves(tb, job, s.Where(), a[k])
    {
      var k :| 0 <= k < |b| && Serves(tb, job, s.Where(), b[k]);
      assert Serves(tb, job, s.Where(), a[k]);
    }
  }

  function UndoOne(tb: Tables, model: string, ceiling: nat, op: PlanOp, pools: seq<PoolView>): seq<PoolView> {
    match op
    case Reserved(tier, shares) => ReleaseAll(tb, tier, shares, pools)
    case Released(tier, shares) =>
      match ReserveAll(tb, Job(model, tier, ceiling), TIMESTAMP_MAX, AsClaims(shares), pools)
      case Err(_) => pools
      case Ok(r) => r.1
  }

  /** Undo the log, last call first. */
  function UndoAll(tb: Tables, model: string, ceiling: nat, ops: seq<PlanOp>, pools: seq<PoolView>): seq<PoolView>
    decreases |ops|
  {
    if ops == [] then pools
    else UndoAll(tb, model, ceiling, ops[..|ops| - 1], UndoOne(tb, model, ceiling, ops[|ops| - 1], pools))
  }

  /** Every release in the log can be put back with this shape. */
  predicate LogRestorable(tb: Tables, model: string, ceiling: nat, trail: Trail) {
    match trail
    case Start(_) => true
    case Then(b, op, _) =>
      LogRestorable(tb, model, ceiling, b) && (op.Released? ==> Restorable(tb, Job(model, op.tier, ceiling), op.shares, b.pools))
  }

  lemma UndoOneIsExact(tb: Tables, model: string, ceiling: nat, a: seq<PoolView>, op: PlanOp, b: seq<PoolView>)
    requires DistinctKeys(a) && OpStep(tb, a, op, b)
    requires op.Released? ==> Restorable(tb, Job(model, op.tier, ceiling), op.shares, a)
    ensures UndoOne(tb, model, ceiling, op, b) == a
  {
    match op
    case Reserved(tier, shares) =>
      assert Covers(tb, tier, shares, b) by {
        SamePoolsKeys(a, b);
      }
      ReleaseAllRemoves(tb, tier, shares, b);
      AddedUnique(tb, tier, shares, ReleaseAll(tb, tier, shares, b), a, b);
    case Released(tier, shares) =>
      UndoReleaseIff(tb, Job(model, tier, ceiling), shares, a, b);
  }

  /** Undoing a log in reverse passes back through the exact earlier counters: after undoing
      all but the first `n` calls, they are what they were before call `n`. */
  lemma {:induction false} UndoPassesBack(tb: Tables, model: string, ceiling: nat, trail: Trail, n: nat)
    requires Walked(tb, trail) && n <= |trail.Ops()| && LogRestorable(tb, model, ceiling, trail)
    ensures UndoAll(tb, model, ceiling, trail.Ops()[n..], trail.pools) == trail.At(n)
  {
    var ops := trail.Ops();
    if n == |ops| {
      assert ops[n..] == [];
    } else {
      var b := trail.before;
      assert DistinctKeys(b.pools);
      UndoOneIsExact(tb, model, ceiling, b.pools, trail.op, trail.pools);
      UndoPassesBack(tb, model, ceiling, b, n);
      assert ops[n..][..|ops[n..]| - 1] == b.Ops()[n..];
    }
  }

  lemma {:induction false} AtStart(trail: Trail)
    ensures trail.At(0) == trail.First()
  {
    if trail.Then? {
      AtStart(trail.before);
    }
  }
}
