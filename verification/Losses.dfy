/**
 Ways a failed change leaves a counter too low
 (crates/pt-control-plane/src/service.rs), and exactly when.
 */
module Losses {
  import opened Prelude
  import opened Capacity
  import opened Planner
  import opened MemoryPlanner
  import opened Holdings
  import opened Moves
  import opened Changes
  import opened Growing
  import opened Releases
  import opened Terms
  import opened Service
  import F = Failover
  import R = Rebalance

  // ---------------------------------------------------------------------------
  // A rebalancing move that stops half way
  // ---------------------------------------------------------------------------

  /** With every counter exact before a rebalancing move that stops, a counter ends below
      what its reservations hold exactly if the reservation holds capacity there, and on the
      counters before the move its growth in that region does not fit on that pool while
      every growing region up to it fits somewhere. */
  lemma StoppedTooLowIff(conf: Conf, store: seq<Pt>, i: nat, target: seq<F.RegionShare>, now: Timestamp, moved: Pt, done: seq<F.RegionShare>,
                         start: seq<PoolView>, pools: seq<PoolView>, k: nat)
    requires i < |store| && k < |start| && DistinctKeys(start) && Conserved(conf, store, start) && F.Whole(target)
    requires ValidPt(store[i]) && IsLive(store[i].state)
    requires Stopped(conf, store[i], target, now, moved, done, start, pools)
    ensures var key, pt, next := start[k].key, store[i], NextHeld(conf, store[i], target);
      pools[k].reserved < StoreCost(conf, store, key) <==>
      && PtCost(conf, pt, key) > 0
      && LeavesItsPool(conf, pt, F.Growth(HeldShares(pt), next), next, pt.ceiling, Max(pt.termStart, now), start, key.region)
  {
    hide Halfway, AllGrown, LeavesItsPool, HeldShares, F.Growth, F.Headroom, F.Footprint;
    var key, pt, next := start[k].key, store[i], NextHeld(conf, store[i], target);
    F.HeadroomWhole(conf.pairs, pt.sku, target);
    TooLowIff(conf, pt, moved, done, HeldShares(pt), next, start, pools, k);
    HeldDistinct(pt);
    OnPoolsCost(conf, pt, HeldShares(pt), key);
    PoolCostAdds(conf.tb, pt.tier, key, 0, 0);
    if PtCost(conf, pt, key) > 0 {
      F.CusAtHas(HeldShares(pt), key.region);
      GrowthsOf(HeldShares(pt), next);
      MovedOffIff(conf, pt, F.Growth(HeldShares(pt), next), next, pt.ceiling, Max(pt.termStart, now), start, key.region);
    }
  }

  /** And such a move stops exactly when some growing region does not fit on those counters. */
  lemma StopsIff(conf: Conf, pt: Pt, target: seq<F.RegionShare>, now: Timestamp, start: seq<PoolView>)
    requires F.Whole(target)
    ensures var next := NextHeld(conf, pt, target);
      var gs := F.Growth(HeldShares(pt), next);
      AllGrown(conf, pt, gs, next, pt.ceiling, Max(pt.termStart, now), start).0.Some?
      <==> !FirstGrow(conf, pt, gs, |gs|, next, pt.ceiling, Max(pt.termStart, now), start)
  {
    hide AllGrown, FirstGrow;
    var next := NextHeld(conf, pt, target);
    F.HeadroomWhole(conf.pairs, pt.sku, target);
    F.GrowthDistinct(HeldShares(pt), next);
    MoveGoesThroughIff(conf, pt, F.Growth(HeldShares(pt), next), next, pt.ceiling, Max(pt.termStart, now), start);
  }

  /** When at most one region grows, a rebalancing move that stops has changed nothing. */
  lemma StoppedAtTheFirst(conf: Conf, pt: Pt, target: seq<F.RegionShare>, now: Timestamp, moved: Pt, done: seq<F.RegionShare>,
                          start: seq<PoolView>, pools: seq<PoolView>)
    requires Stopped(conf, pt, target, now, moved, done, start, pools)
    requires |F.Growth(HeldShares(pt), NextHeld(conf, pt, target))| <= 1
    ensures pools == start
  {
    OneRegionMoves(conf, pt, moved, done, HeldShares(pt), NextHeld(conf, pt, target), start, pools);
  }

  /** Full usable pools refuse for lack of capacity. */
  lemma RefusedWhenFull(tb: Tables, job: Job, claim: Claim, at: Timestamp, pools: seq<PoolView>, p: PoolView)
    requires p in pools && Usable(tb, job, claim, p)
    requires forall q :: q in pools && Usable(tb, job, claim, q) ==> !Fits(tb, job.tier, q, claim.cus, at)
    ensures ReserveAll(tb, job, at, [claim], pools).Err? && ReserveAll(tb, job, at, [claim], pools).error.CapacityUnavailable?
  {
    PlaceOkIffSomeFits(tb, job, claim, at, pools);
    UsablePoolsContents(tb, job, claim, pools);
    EmptyStages(tb, job, claim, pools);
    assert p in UsablePools(tb, job, claim, pools);
  }

  /** A claim goes on the one usable pool with room. */
  lemma PlacedWhereItFits(tb: Tables, job: Job, claim: Claim, at: Timestamp, pools: seq<PoolView>, p: PoolView)
    requires p in pools && Usable(tb, job, claim, p) && Fits(tb, job.tier, p, claim.cus, at)
    requires forall q :: q in pools && Usable(tb, job, claim, q) && Fits(tb, job.tier, q, claim.cus, at) ==> q == p
    ensures ReserveAll(tb, job, at, [claim], pools)
         == Ok(([PoolShare(claim.region, p.key.pool, claim.cus)], Raise(pools, p.key, Need(tb, job.tier, p, claim.cus))))
  {
    PlaceOkIffSomeFits(tb, job, claim, at, pools);
    var q := PlaceAtFits(tb, job, claim, at, pools);
    assert q == p;
    hide Place;
    var raised := Raise(pools, p.key, Need(tb, job.tier, p, claim.cus));
    var share := PoolShare(claim.region, p.key.pool, claim.cus);
    assert [claim][1..] == [] && ReserveAll(tb, job, at, [], raised) == Ok(([], raised));
    assert [share] + [] == [share];
  }

  const A1 := Key("a", "a1")
  const A2 := Key("a", "a2")
  const B1 := Key("b", "b1")
  const C1 := Key("c", "c1")

  function ExampleConf(): Conf {
    Conf(Tables(map[(A1, Standard) := 1, (A2, Standard) := 1, (B1, Standard) := 1, (C1, Standard) := 1], map[]), map[],
         map[("a", "m") := "a1", ("b", "m") := "b1", ("c", "m") := "c1"])
  }

  /** Two CUs in region a on its full first pool, one in b and three in c on their only pools,
      full too. */
  function ExamplePt(): Pt {
    Pt("pt", "m", Standard, F.Regional, 1, [F.RegionShare("a", 2), F.RegionShare("b", 1), F.RegionShare("c", 3)], [], [], map[],
       true, true, Active, None, 0, 100)
  }

  function ExamplePools(): seq<PoolView> {
    [PoolView(A1, "m", 2, 2, 1), PoolView(A2, "m", 3, 0, 1), PoolView(B1, "m", 1, 1, 1), PoolView(C1, "m", 3, 3, 1)]
  }

  /** Region a's two CUs are off its first pool, three are on its second. */
  function ExampleAfter(): seq<PoolView> {
    [PoolView(A1, "m", 2, 0, 1), PoolView(A2, "m", 3, 3, 1), PoolView(B1, "m", 1, 1, 1), PoolView(C1, "m", 3, 3, 1)]
  }

  function ExampleTarget(): seq<F.RegionShare> {
    [F.RegionShare("a", 3), F.RegionShare("b", 2), F.RegionShare("c", 1)]
  }

  /** All demand is in a and b. */
  function ExampleDemand(): map<string, real> {
    map["a" := 20.0, "b" := 10.0]
  }

  function ExampleMidway(): seq<F.RegionShare> {
    [F.RegionShare("a", 2), F.RegionShare("b", 2), F.RegionShare("c", 2)]
  }

  lemma ExampleContract()
    ensures var c := ExamplePt().regions;
      F.CusAt(c, "a") == 2 && F.CusAt(c, "b") == 1 && F.CusAt(c, "c") == 3 && R.Positive(c)
  {
    var c := ExamplePt().regions;
    assert c[1..] == [F.RegionShare("b", 1), F.RegionShare("c", 3)];
    assert c[1..][1..] == [F.RegionShare("c", 3)];
  }

  lemma ExampleFirstMove()
    ensures var c := ExamplePt().regions;
      R.Positive(c) && R.IsNext(c, ExampleDemand(), 2, c, R.Move(2, 1)) && R.Moved(c, R.Move(2, 1)) == ExampleMidway()
  {
    var c, d := ExamplePt().regions, ExampleDemand();
    ExampleContract();
    hide F.CusAt;
    assert R.Load(d, c[0]) == 10.0 && R.Load(d, c[1]) == 10.0 && R.Load(d, c[2]) == 0.0;
    assert R.IsReceiver(c, d, 2, c, 3, 1);
    assert R.IsDonor(c, d, 2, c, 1, 3, 2);
  }

  lemma ExampleSecondMove()
    ensures var c, split := ExamplePt().regions, ExampleMidway();
      R.Positive(split) && R.IsNext(c, ExampleDemand(), 2, split, R.Move(2, 0)) && R.Moved(split, R.Move(2, 0)) == ExampleTarget()
  {
    var c, d, split := ExamplePt().regions, ExampleDemand(), ExampleMidway();
    ExampleContract();
    hide F.CusAt;
    assert R.Load(d, split[0]) == 10.0 && R.Load(d, split[1]) == 5.0 && R.Load(d, split[2]) == 0.0;
    assert R.IsReceiver(c, d, 2, split, 3, 0);
    assert R.IsDonor(c, d, 2, split, 0, 3, 2);
  }

  /** The demand of the example moves its contract to its target, two CUs at most. */
  lemma ExampleIsTarget()
    ensures R.IsTarget(ExamplePt().regions, ExampleDemand(), 2, ExampleTarget())
  {
    hide R.IsNext, R.Moved, R.Settled;
    var c, d := ExamplePt().regions, ExampleDemand();
    ExampleFirstMove();
    ExampleSecondMove();
    var moves, splits := [R.Move(2, 1), R.Move(2, 0)], [c, ExampleMidway(), ExampleTarget()];
    assert R.Replays(c, d, 2, moves, splits);
    assert R.Stops(c, d, 2, moves, splits);
  }

  lemma ExamplePooled()
    ensures Pooled(ExampleConf(), ExamplePt()) == [PoolShare("a", "a1", 2), PoolShare("b", "b1", 1), PoolShare("c", "c1", 3)]
  {
    var conf, pt := ExampleConf(), ExamplePt();
    var held := HeldShares(pt);
    assert held == pt.regions && held[1..] == [F.RegionShare("b", 1), F.RegionShare("c", 3)];
    assert held[1..][1..] == [F.RegionShare("c", 3)] && held[1..][1..][1..] == [];
    hide HeldShares;
    assert PoolOf(conf, pt, "a") == Some("a1") && PoolOf(conf, pt, "b") == Some("b1") && PoolOf(conf, pt, "c") == Some("c1");
    assert OnPools(conf, pt, held[1..][1..][1..]) == [];
    assert OnPools(conf, pt, held[1..][1..]) == [PoolShare("c", "c1", 3)];
    assert OnPools(conf, pt, held[1..]) == [PoolShare("b", "b1", 1), PoolShare("c", "c1", 3)];
  }

  lemma ExampleCosts(key: Key)
    ensures StoreCost(ExampleConf(), [ExamplePt()], key) == if key == A1 then 2 else if key == B1 then 1 else if key == C1 then 3 else 0
  {
    var conf, pt := ExampleConf(), ExamplePt();
    ExamplePooled();
    var pooled := Pooled(conf, pt);
    assert pooled[1..] == [PoolShare("b", "b1", 1), PoolShare("c", "c1", 3)] && pooled[1..][1..] == [PoolShare("c", "c1", 3)];
    hide Pooled;
    assert CostOf(conf.tb, Standard, pooled[1..][1..], key) == if key == C1 then 3 else 0;
    assert CostOf(conf.tb, Standard, pooled[1..], key) == if key == B1 then 1 else if key == C1 then 3 else 0;
    assert [pt][1..] == [];
  }

  lemma ExampleHolds()
    ensures Conserved(ExampleConf(), [ExamplePt()], ExamplePools())
  {
    hide StoreCost;
    ExampleCosts(A1);
    ExampleCosts(A2);
    ExampleCosts(B1);
    ExampleCosts(C1);
  }

  lemma ExampleRefusedFirst()
    ensures var r := ReserveAll(ExampleConf().tb, Job("m", Standard, 1), 0, [Claim("a", Some("a1"), 1)], ExamplePools());
      r.Err? && r.error.CapacityUnavailable?
  {
    RefusedWhenFull(ExampleConf().tb, Job("m", Standard, 1), Claim("a", Some("a1"), 1), 0, ExamplePools(), ExamplePools()[0]);
  }

  /** Of the pools only a2 is usable and has room for three CUs. */
  lemma ExampleOnlyFit()
    ensures var tb, job, claim, pools := ExampleConf().tb, Job("m", Standard, 1), Claim("a", None, 3), ExamplePools();
      && Usable(tb, job, claim, pools[1]) && Fits(tb, Standard, pools[1], 3, 0) && Need(tb, Standard, pools[1], 3) == 3
      && !Fits(tb, Standard, pools[0], 3, 0) && !Usable(tb, job, claim, pools[2]) && !Usable(tb, job, claim, pools[3])
  {
  }

  lemma ExamplePlacedWhole()
    ensures ReserveAll(ExampleConf().tb, Job("m", Standard, 1), 0, [Claim("a", None, 3)], ExamplePools())
         == Ok(([PoolShare("a", "a2", 3)], Raise(ExamplePools(), A2, 3)))
  {
    hide Place, ReserveAll, Raise;
    var tb, job, claim, pools := ExampleConf().tb, Job("m", Standard, 1), Claim("a", None, 3), ExamplePools();
    ExampleOnlyFit();
    PlacedWhereItFits(tb, job, claim, 0, pools, pools[1]);
  }

  lemma ExampleRefusedSecond(claim: Claim)
    requires claim == Claim("b", Some("b1"), 1) || claim == Claim("b", None, 2)
    ensures var r := ReserveAll(ExampleConf().tb, Job("m", Standard, 1), 0, [claim], ExampleAfter());
      r.Err? && r.error.CapacityUnavailable?
  {
    RefusedWhenFull(ExampleConf().tb, Job("m", Standard, 1), claim, 0, ExampleAfter(), ExampleAfter()[2]);
  }

  lemma ExampleTargets()
    ensures var t := ExampleTarget();
      F.CusAt(t, "a") == 3 && F.CusAt(t, "b") == 2 && F.Has(t, "a") && F.Has(t, "b")
  {
    var t := ExampleTarget();
    assert t[1..] == [F.RegionShare("b", 2), F.RegionShare("c", 1)];
    assert t[0].region == "a" && t[1].region == "b";
  }

  /** Region a's growth fits only on its other pool, so the region moves there whole. */
  lemma ExampleFirstMoves()
    ensures Grown(ExampleConf(), ExamplePt(), F.RegionShare("a", 1), ExampleTarget(), 1, 0, ExamplePools())
         == Ok((ExamplePt().(placements := map["a" := "a2"]), ExampleAfter()))
  {
    hide Place, ReserveAll;
    var conf, pt, pools := ExampleConf(), ExamplePt(), ExamplePools();
    assert HeldShares(pt) == pt.regions && pt.regions[0].region == "a";
    assert ClaimFor(conf, pt, F.RegionShare("a", 1)) == Claim("a", Some("a1"), 1);
    ExampleRefusedFirst();
    ExampleTargets();
    ExamplePlacedWhole();
    ExampleGivenBack();
    var placed := [PoolShare("a", "a2", 3)];
    assert placed[1..] == [] && Record(pt, placed) == pt.(placements := map["a" := "a2"]);
  }

  lemma ExampleGivenBack()
    ensures var conf, pt := ExampleConf(), ExamplePt();
      ReleaseAll(conf.tb, Standard, OnPools(conf, pt, InRegion(HeldShares(pt), "a")), Raise(ExamplePools(), A2, 3))
      == ExampleAfter()
  {
    var conf, pt := ExampleConf(), ExamplePt();
    var held := HeldShares(pt);
    assert held == pt.regions && held[1..] == [F.RegionShare("b", 1), F.RegionShare("c", 3)];
    var rest := held[1..];
    NoneInRegion(rest, "a");
    assert InRegion(held, "a") == [held[0]] + InRegion(rest, "a");
    var here := InRegion(held, "a");
    assert here == [F.RegionShare("a", 2)] && here[1..] == [];
    hide HeldShares, InRegion;
    var gone := OnPools(conf, pt, here);
    assert gone == [PoolShare("a", "a1", 2)] by {
      assert PoolOf(conf, pt, "a") == Some("a1") && OnPools(conf, pt, here[1..]) == [];
    }
    assert gone[1..] == [];
    hide OnPools;
    assert Lower(Raise(ExamplePools(), A2, 3), A1, 2) == ExampleAfter();
  }

  /** Region b's growth then fits nowhere. */
  lemma ExampleSecondFails()
    ensures Grown(ExampleConf(), ExamplePt().(placements := map["a" := "a2"]), F.RegionShare("b", 1), ExampleTarget(), 1, 0,
                  ExampleAfter()).Err?
  {
    hide Place, ReserveAll;
    var conf, pt := ExampleConf(), ExamplePt().(placements := map["a" := "a2"]);
    assert HeldShares(pt) == pt.regions && pt.regions[1].region == "b";
    assert ClaimFor(conf, pt, F.RegionShare("b", 1)) == Claim("b", Some("b1"), 1);
    ExampleTargets();
    ExampleRefusedSecond(Claim("b", Some("b1"), 1));
    ExampleRefusedSecond(Claim("b", None, 2));
  }

  lemma ExampleGrowth()
    ensures F.Growth(HeldShares(ExamplePt()), ExampleTarget()) == [F.RegionShare("a", 1), F.RegionShare("b", 1)]
  {
    ExampleContract();
    var held, t := HeldShares(ExamplePt()), ExampleTarget();
    assert held == ExamplePt().regions;
    assert t[1..] == [F.RegionShare("b", 2), F.RegionShare("c", 1)] && t[1..][1..] == [F.RegionShare("c", 1)] && t[1..][1..][1..] == [];
    hide F.CusAt;
    assert F.Growth(held, t[1..][1..]) == [];
    assert F.Growth(held, t[1..]) == [F.RegionShare("b", 1)];
  }

  /** The counters are not always at least what is held. Demand moves two CUs of the example
      from c to a and b. Region a moves whole to its second pool, b does not fit, and the move
      is left there: a's first pool is short of everything the unchanged reservation holds. */
  lemma DroppedLogLosesCapacity()
    ensures var conf, pt, start := ExampleConf(), ExamplePt(), ExamplePools();
      var next := NextHeld(conf, pt, ExampleTarget());
      var grown := AllGrown(conf, pt, F.Growth(HeldShares(pt), next), next, pt.ceiling, Max(pt.termStart, 0), start);
      && R.IsTarget(pt.regions, ExampleDemand(), 2, ExampleTarget())
      && Conserved(conf, [pt], start) && grown.0.Some? && grown.2 == ExampleAfter()
      && ExampleAfter()[0].key == A1 && ExampleAfter()[0].reserved < StoreCost(conf, [pt], A1)
  {
    hide Grown, R.IsTarget, Conserved;
    var conf, pt, start := ExampleConf(), ExamplePt(), ExamplePools();
    ExampleIsTarget();
    ExampleHolds();
    ExampleCosts(A1);
    assert NextHeld(conf, pt, ExampleTarget()) == ExampleTarget();
    ExampleGrowth();
    ExampleFirstMoves();
    ExampleSecondFails();
    assert [F.RegionShare("a", 1), F.RegionShare("b", 1)][1..] == [F.RegionShare("b", 1)];
    hide StoreCost;
  }

  // ---------------------------------------------------------------------------
  // An undo with a larger shape, and an undo on an oversold pool
  // ---------------------------------------------------------------------------

  function UndoConf(): Conf {
    Conf(Tables(map[(A1, Standard) := 1, (B1, Standard) := 1], map[]), map[], map[("a", "m") := "a1", ("b", "m") := "b1"])
  }

  /** CUs on a pool that serves shape 1 only; region b's pool serves shape 2. */
  function UndoPt(cus: nat): Pt {
    Pt("pt", "m", Standard, F.Regional, 1, [F.RegionShare("a", cus)], [], [], map[], false, true, Scheduled, None, 0, 100)
  }

  function UndoPools(cus: nat, capacity: nat): seq<PoolView> {
    [PoolView(A1, "m", capacity, cus, 1), PoolView(B1, "m", 1, 0, 2)]
  }

  /** Move to region b, with a shape. */
  function UndoRequest(ceiling: nat): UpdateRequest {
    UpdateRequest(None, None, None, Some([F.RegionShare("b", 1)]), Some(ceiling))
  }

  lemma UndoPooled(cus: nat)
    ensures HeldShares(UndoPt(cus)) == [F.RegionShare("a", cus)] && Pooled(UndoConf(), UndoPt(cus)) == [PoolShare("a", "a1", cus)]
  {
    var conf, pt := UndoConf(), UndoPt(cus);
    assert pt.regions[1..] == [] && OnPools(conf, pt, []) == [];
  }

  lemma UndoCost(cus: nat, key: Key)
    ensures CostOf(UndoConf().tb, Standard, Pooled(UndoConf(), UndoPt(cus)), key) == if key == A1 then cus else 0
    ensures StoreCost(UndoConf(), [UndoPt(cus)], key) == if key == A1 then cus else 0
  {
    UndoPooled(cus);
    hide Pooled;
    assert [PoolShare("a", "a1", cus)][1..] == [] && [UndoPt(cus)][1..] == [];
  }

  lemma UndoHolds(cus: nat, capacity: nat)
    requires cus > 0
    ensures Conserved(UndoConf(), [UndoPt(cus)], UndoPools(cus, capacity)) && AllHealthy(UndoConf(), [UndoPt(cus)], UndoPools(cus, capacity))
  {
    var conf, pt, pools := UndoConf(), UndoPt(cus), UndoPools(cus, capacity);
    UndoPooled(cus);
    UndoCost(cus, A1);
    UndoCost(cus, B1);
    hide HeldShares, Pooled, StoreCost;
    assert Serves(conf.tb, Job("m", Standard, 1), A1, pools[0]);
    assert ServedAt(conf, pt, 1, "a", pools);
  }

  /** A larger shape is not served, and a pool smaller than what is held on it is oversold. */
  lemma UndoUnsafe(cus: nat, capacity: nat, ceiling: nat)
    requires cus > 0 && (ceiling > 1 || capacity < cus)
    ensures ServesNew(UndoConf(), UndoPt(cus), UndoRequest(ceiling), UndoPools(cus, capacity)) ==>
      !Safe(UndoConf(), UndoPt(cus), UpdateReleased(UndoConf(), UndoPt(cus), UndoRequest(ceiling), 0, true, UndoPools(cus, capacity)),
            UndoPools(cus, capacity))
  {
    var conf, pt, pools := UndoConf(), UndoPt(cus), UndoPools(cus, capacity);
    UndoPooled(cus);
    UndoCost(cus, A1);
    hide HeldShares, Pooled;
    if ceiling > 1 {
      assert F.RegionShare("a", cus) in HeldShares(pt) && !ServedAt(conf, pt, ceiling, "a", pools);
    } else {
      assert "a" in UpdateReleased(conf, pt, UndoRequest(ceiling), 0, true, pools);
      assert CostAt(conf, pt, pools[0].key) > 0 && !Within(conf.tb, pools[0]);
    }
  }

  lemma UndoFits(cus: nat, capacity: nat, ceiling: nat)
    requires ceiling <= 2
    ensures FitsAfresh(UndoConf(), UndoPt(cus), WithRegions(UndoConf(), UndoPt(cus), [F.RegionShare("b", 1)]), ceiling, UndoPools(cus, capacity))
  {
    var conf, pt, pools := UndoConf(), UndoPt(cus), UndoPools(cus, capacity);
    UndoPooled(cus);
    var b := UndoPools(0, capacity);
    assert ReleaseAll(conf.tb, Standard, [PoolShare("a", "a1", cus)], pools) == b by {
      assert [PoolShare("a", "a1", cus)][1..] == [] && Lower(pools, A1, cus) == b;
    }
    var next := WithRegions(conf, pt, [F.RegionShare("b", 1)]);
    assert HeldShares(next) == [F.RegionShare("b", 1)];
    var claim := Claim("b", None, 1);
    assert ClaimsFor(conf, pt, HeldShares(next)) == [claim] by {
      assert HeldShares(pt)[0].region == "a" && !F.Has(HeldShares(pt), "b");
    }
    hide HeldShares, Pooled;
    assert b[1] in b && Usable(conf.tb, Job("m", Standard, ceiling), claim, b[1]) && Fits(conf.tb, Standard, b[1], 1, 0);
    PlaceOkIffSomeFits(conf.tb, Job("m", Standard, ceiling), claim, 0, b);
    OneClaim(conf.tb, Job("m", Standard, ceiling), claim, 0, b);
  }

  /** An update moves a reservation to another region, and its save then fails. If it also
      enlarges the shape, or if the pool was oversold, the reservation is as before and its
      pool's counter is short of it. */
  method FailedSaveLosesCapacity(cus: nat, capacity: nat, ceiling: nat) returns (s: Service, r: Result<Pt, Failure>)
    requires cus > 0 && ceiling <= 2 && (ceiling == 2 || capacity < cus)
    ensures r == Err(NotSaved) && s.conf == UndoConf() && s.store == [UndoPt(cus)] && Short(s.conf, s.store, s.planner.pools)
  {
    hide Conserved, AllHealthy, ServesNew, FitsAfresh, StaysWithin, LowerSomewhere, Safe, UpdateReleased, Refused, LacksTerm, Updated, Short;
    var planner := new Counters(UndoConf().tb, UndoPools(cus, capacity));
    s := new Service(UndoConf(), planner);
    s.store := [UndoPt(cus)];
    UndoHolds(cus, capacity);
    UndoUnsafe(cus, capacity, ceiling);
    UndoFits(cus, capacity, ceiling);
    ghost var a := planner.pools;
    ReplanAccepted(s.conf, UndoPt(cus), UndoRequest(ceiling), 0, a);
    r := s.Update(0, UndoRequest(ceiling), 0, true, false);
    LowerIsShort(s.conf, [UndoPt(cus)], 0, a, planner.pools);
  }

  lemma LowerIsShort(conf: Conf, store: seq<Pt>, i: nat, a: seq<PoolView>, b: seq<PoolView>)
    requires i < |store| && Conserved(conf, store, a) && LowerSomewhere(conf, store[i], a, b) && StaysWithin(conf.tb, a, b)
    ensures Short(conf, store, b)
  {
    SamePoolsKeys(a, b);
    var k :| 0 <= k < |a| && b[k].reserved < a[k].reserved;
    assert b[k].key == a[k].key;
  }

  // ---------------------------------------------------------------------------
  // A renewal on an oversold pool
  // ---------------------------------------------------------------------------

  function RenewalConf(): Conf {
    Conf(Tables(map[(A1, Standard) := 1], map[]), map[], map[("a", "m") := "a1"])
  }

  /** Two CUs, and three wanted from the next term on. */
  function RenewalPt(): Pt {
    Pt("pt", "m", Standard, F.Regional, 1, [F.RegionShare("a", 2)], [], [], map[], false, true, Active,
       Some(PendingChanges(None, Some([F.RegionShare("a", 3)]))), 0, 100)
  }

  /** A pool that has shrunk to one since they were sold. */
  function RenewalPools(): seq<PoolView> {
    [PoolView(A1, "m", 1, 2, 1)]
  }

  lemma RenewalPooled()
    ensures HeldShares(RenewalPt()) == [F.RegionShare("a", 2)] && Pooled(RenewalConf(), RenewalPt()) == [PoolShare("a", "a1", 2)]
    ensures Pooled(RenewalConf(), RenewalPt().(pending := None)) == [PoolShare("a", "a1", 2)]
  {
    var conf, pt := RenewalConf(), RenewalPt();
    assert pt.regions[1..] == [] && OnPools(conf, pt, []) == [];
    PooledSame(conf, pt, pt.(pending := None));
  }

  lemma RenewalHolds()
    ensures Conserved(RenewalConf(), [RenewalPt()], RenewalPools()) && AllHealthy(RenewalConf(), [RenewalPt()], RenewalPools())
    ensures !Own(RenewalConf(), RenewalPt(), RenewalPools())
  {
    var conf, pt, pools := RenewalConf(), RenewalPt(), RenewalPools();
    RenewalPooled();
    hide HeldShares, Pooled;
    assert [PoolShare("a", "a1", 2)][1..] == [] && [pt][1..] == [];
    assert StoreCost(conf, [pt], A1) == 2;
    assert Serves(conf.tb, Job("m", Standard, 1), A1, pools[0]);
    assert ServedAt(conf, pt, 1, "a", pools);
    assert CostOf(conf.tb, Standard, Pooled(conf, pt), pools[0].key) == 2;
  }

  lemma RenewalDoesNotFit()
    ensures !ChangeFits(RenewalConf(), RenewalPt(), RenewalPools())
  {
    var conf, pt, pools := RenewalConf(), RenewalPt(), RenewalPools();
    var p := pt.(pending := None);
    RenewalPooled();
    var b := [PoolView(A1, "m", 1, 0, 1)];
    assert ReleaseAll(conf.tb, Standard, [PoolShare("a", "a1", 2)], pools) == b by {
      assert [PoolShare("a", "a1", 2)][1..] == [] && Lower(pools, A1, 2) == b;
    }
    assert HeldShares(p) == [F.RegionShare("a", 2)] && HeldShares(p)[0].region == "a";
    assert HeldShares(WithRegions(conf, p, [F.RegionShare("a", 3)])) == [F.RegionShare("a", 3)];
    var claim := Claim("a", Some("a1"), 3);
    assert RegionClaims(conf, p, [F.RegionShare("a", 3)]) == [claim];
    hide HeldShares, Pooled, RegionClaims;
    assert !Fits(conf.tb, Standard, b[0], 3, 100);
    PlaceOkIffSomeFits(conf.tb, Job("m", Standard, 1), claim, 100, b);
    OneClaim(conf.tb, Job("m", Standard, 1), claim, 100, b);
  }

  /** A renewal whose change does not fit, on a pool oversold since: the reservation is
      renewed as it was, and the counter is short of it. */
  method RenewalLosesCapacity() returns (s: Service)
    ensures s.conf == RenewalConf() && |s.store| == 1 && s.store[0].state == Active && Short(s.conf, s.store, s.planner.pools)
  {
    hide Conserved, AllHealthy, Own, ChangeFits, StaysWithin, AllTurns, Short, Tidy;
    var planner := new Counters(RenewalConf().tb, RenewalPools());
    s := new Service(RenewalConf(), planner);
    s.store := [RenewalPt()];
    RenewalHolds();
    RenewalDoesNotFit();
    var nextEnd := (t: Timestamp) => if t < 200 then 200 else TIMESTAMP_MAX;
    TurnsReach(s.conf, RenewalPt(), 100, nextEnd, planner.pools);
    TidyState(AllTurns(s.conf, RenewalPt(), 100, nextEnd, planner.pools).0);
    s.Lifecycle(0, 100, nextEnd, true);
  }
}
