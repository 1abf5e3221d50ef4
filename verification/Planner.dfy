/**
 Best-fit placement and the in-memory capacity counters
 (crates/pt-control-plane/src/planner.rs).
 */
module Planner {
  import opened Prelude
  import opened Capacity

  datatype Claim = Claim(region: string, pool: Option<string>, cus: nat)

  datatype PoolView = PoolView(key: Key, model: string, capacity: nat, reserved: nat, maxContext: nat)

  datatype PlanError =
    | NotOffered(region: string)
    | ShapeUnsupported(region: string, maxContext: nat, needed: nat)
    | CapacityUnavailable(region: string, requested: nat, available: nat, availableFrom: Option<Timestamp>)

  /** What placement needs besides the counters. */
  datatype Tables = Tables(costs: Costs, schedule: Schedule)

  /** The request a claim belongs to: `ceiling` is the shape's context ceiling. */
  datatype Job = Job(model: string, tier: Tier, ceiling: nat)

  predicate DistinctKeys(pools: seq<PoolView>) {
    forall i, j :: 0 <= i < j < |pools| ==> pools[i].key != pools[j].key
  }

  /** Micro-replicas a pool holds at `at`, scheduled arrivals included. */
  function SizeAt(tb: Tables, p: PoolView, at: Timestamp): nat {
    p.capacity + AddedBy(tb.schedule, p.key, at)
  }

  function FreeAt(tb: Tables, p: PoolView, at: Timestamp): nat {
    SaturatingSub(SizeAt(tb, p, at), p.reserved)
  }

  // ---------------------------------------------------------------------------
  // Placement
  // ---------------------------------------------------------------------------

  predicate Candidate(claim: Claim, model: string, p: PoolView) {
    p.key.region == claim.region && p.model == model && (claim.pool.None? || claim.pool.value == p.key.pool)
  }

  function Candidates(claim: Claim, model: string, pools: seq<PoolView>): seq<PoolView> {
    if pools == [] then []
    else (if Candidate(claim, model, pools[0]) then [pools[0]] else []) + Candidates(claim, model, pools[1..])
  }

  function Serving(ceiling: nat, pools: seq<PoolView>): seq<PoolView> {
    if pools == [] then []
    else (if ceiling <= pools[0].maxContext then [pools[0]] else []) + Serving(ceiling, pools[1..])
  }

  function Costed(tb: Tables, tier: Tier, pools: seq<PoolView>): seq<PoolView> {
    if pools == [] then []
    else (if PerCu(tb.costs, pools[0].key, tier).Some? then [pools[0]] else []) + Costed(tb, tier, pools[1..])
  }

  function MaxContext(pools: seq<PoolView>): nat {
    if pools == [] then 0 else Max(pools[0].maxContext, MaxContext(pools[1..]))
  }

  function Need(tb: Tables, tier: Tier, p: PoolView, cus: nat): nat {
    match PerCu(tb.costs, p.key, tier) case None => 0 case Some(c) => c * cus
  }

  /** What placing `cus` CUs on `p` would leave free, if they fit. */
  function Offer(tb: Tables, tier: Tier, p: PoolView, cus: nat, at: Timestamp): Option<nat> {
    var need, free := Need(tb, tier, p, cus), FreeAt(tb, p, at);
    if free < need then None else Some(free - need)
  }

  predicate Fits(tb: Tables, tier: Tier, p: PoolView, cus: nat, at: Timestamp) {
    Offer(tb, tier, p, cus, at).Some?
  }

  function Offers(tb: Tables, tier: Tier, pools: seq<PoolView>, cus: nat, at: Timestamp): (r: seq<Option<nat>>)
    ensures |r| == |pools|
  {
    seq(|pools|, i requires 0 <= i < |pools| => Offer(tb, tier, pools[i], cus, at))
  }

  /** The least of the first `n` offers, the first one on a tie. */
  predicate IsLeast(offers: seq<Option<nat>>, n: nat, i: nat)
    requires n <= |offers|
  {
    && i < n && offers[i].Some?
    && (forall j :: 0 <= j < n && offers[j].Some? ==> offers[i].value <= offers[j].value)
    && (forall j :: 0 <= j < i && offers[j].Some? ==> offers[i].value < offers[j].value)
  }

  function Least(offers: seq<Option<nat>>, n: nat): (r: Option<nat>)
    requires n <= |offers|
    ensures r.Some? ==> IsLeast(offers, n, r.value)
    ensures r.None? ==> forall i :: 0 <= i < n ==> offers[i].None?
  {
    if n == 0 then None
    else
      var best := Least(offers, n - 1);
      if offers[n - 1].Some? && (best.None? || offers[n - 1].value < offers[best.value].value) then Some(n - 1) else best
  }

  function Available(tb: Tables, tier: Tier, pools: seq<PoolView>, at: Timestamp): nat {
    if pools == [] then 0
    else
      var here := CusIn(tb.costs, pools[0].key, tier, FreeAt(tb, pools[0], at));
      Max(if here.Some? then here.value else 0, Available(tb, tier, pools[1..], at))
  }

  function EarlierOf(a: Option<Timestamp>, b: Option<Timestamp>): Option<Timestamp> {
    if a.None? then b else if b.None? then a else Some(Min(a.value, b.value))
  }

  function AvailableFrom(tb: Tables, tier: Tier, pools: seq<PoolView>, cus: nat, at: Timestamp): Option<Timestamp> {
    if pools == [] then None
    else EarlierOf(FitsFrom(tb.schedule, pools[0].key, at, FreeAt(tb, pools[0], at), Need(tb, tier, pools[0], cus)),
                   AvailableFrom(tb, tier, pools[1..], cus, at))
  }

  /** Where `claim` goes and the micro-replicas it needs there. With `at == None` only the
      shape is checked. */
  function Place(tb: Tables, job: Job, claim: Claim, at: Option<Timestamp>, pools: seq<PoolView>)
    : Result<Option<(string, nat)>, PlanError>
  {
    var candidates := Candidates(claim, job.model, pools);
    if candidates == [] then Err(NotOffered(claim.region))
    else
      var serving := Serving(job.ceiling, candidates);
      if serving == [] then Err(ShapeUnsupported(claim.region, MaxContext(candidates), job.ceiling))
      else if at.None? then Ok(None)
      else
        var costed := Costed(tb, job.tier, serving);
        if costed == [] then Err(NotOffered(claim.region))
        else
          match Least(Offers(tb, job.tier, costed, claim.cus, at.value), |costed|)
          case Some(i) => Ok(Some((costed[i].key.pool, Need(tb, job.tier, costed[i], claim.cus))))
          case None =>
            Err(CapacityUnavailable(claim.region, claim.cus, Available(tb, job.tier, costed, at.value),
                                    AvailableFrom(tb, job.tier, costed, claim.cus, at.value)))
  }

  /** `place` with its best-so-far loop. */
  method PlaceByScan(tb: Tables, job: Job, claim: Claim, at: Option<Timestamp>, pools: seq<PoolView>)
    returns (r: Result<Option<(string, nat)>, PlanError>)
    ensures r == Place(tb, job, claim, at, pools)
  {
    var candidates := Candidates(claim, job.model, pools);
    if candidates == [] {
      return Err(NotOffered(claim.region));
    }
    var serving := Serving(job.ceiling, candidates);
    if serving == [] {
      return Err(ShapeUnsupported(claim.region, MaxContext(candidates), job.ceiling));
    }
    if at.None? {
      return Ok(None);
    }
    var costed := Costed(tb, job.tier, serving);
    if costed == [] {
      return Err(NotOffered(claim.region));
    }
    var best := ScanBest(tb, job.tier, costed, claim.cus, at.value);
    if best.Some? {
      return Ok(Some((best.value.0.key.pool, best.value.1)));
    }
    return Err(CapacityUnavailable(claim.region, claim.cus, Available(tb, job.tier, costed, at.value),
                                   AvailableFrom(tb, job.tier, costed, claim.cus, at.value)));
  }

  /** The best of the first `n` pools, what it needs and what it would leave. */
  function BestOf(tb: Tables, tier: Tier, pools: seq<PoolView>, cus: nat, at: Timestamp, n: nat): Option<(PoolView, nat, nat)>
    requires n <= |pools|
  {
    var offers := Offers(tb, tier, pools, cus, at);
    match Least(offers, n)
    case None => None
    case Some(i) => Some((pools[i], Need(tb, tier, pools[i], cus), offers[i].value))
  }

  lemma BestOfStep(tb: Tables, tier: Tier, pools: seq<PoolView>, cus: nat, at: Timestamp, n: nat)
    requires n < |pools|
    ensures var best := BestOf(tb, tier, pools, cus, at, n);
      var need, free := Need(tb, tier, pools[n], cus), FreeAt(tb, pools[n], at);
      BestOf(tb, tier, pools, cus, at, n + 1)
      == if free >= need && (best.None? || free - need < best.value.2) then Some((pools[n], need, free - need)) else best
  {
    var offers := Offers(tb, tier, pools, cus, at);
    assert offers[n] == Offer(tb, tier, pools[n], cus, at);
    hide Need, FreeAt;
  }

  /** The loop over pools that can cost the tier: the best pool so far, its need and slack. */
  method ScanBest(tb: Tables, tier: Tier, costed: seq<PoolView>, cus: nat, at: Timestamp)
    returns (best: Option<(PoolView, nat, nat)>)
    ensures best == BestOf(tb, tier, costed, cus, at, |costed|)
  {
    best := None;
    for i := 0 to |costed|
      invariant best == BestOf(tb, tier, costed, cus, at, i)
    {
      BestOfStep(tb, tier, costed, cus, at, i);
      var p := costed[i];
      var need := Need(tb, tier, p, cus);
      var free := FreeAt(tb, p, at);
      if free < need {
        continue;
      }
      var slack := free - need;
      if best.None? || slack < best.value.2 {
        best := Some((p, need, slack));
      }
    }
  }

  /** A pool the claim may use: right region and model, named pool if any, serving the
      shape, able to cost the tier. */
  predicate Usable(tb: Tables, job: Job, claim: Claim, p: PoolView) {
    Candidate(claim, job.model, p) && job.ceiling <= p.maxContext && PerCu(tb.costs, p.key, job.tier).Some?
  }

  function UsablePools(tb: Tables, job: Job, claim: Claim, pools: seq<PoolView>): seq<PoolView> {
    Costed(tb, job.tier, Serving(job.ceiling, Candidates(claim, job.model, pools)))
  }

  /** The usable pools, in configuration order. */
  lemma {:induction false} UsablePoolsAre(tb: Tables, job: Job, claim: Claim, pools: seq<PoolView>)
    ensures UsablePools(tb, job, claim, pools)
         == if pools == [] then []
            else (if Usable(tb, job, claim, pools[0]) then [pools[0]] else []) + UsablePools(tb, job, claim, pools[1..])
  {
    if pools != [] {
      var c := Candidates(claim, job.model, pools[1..]);
      var s := Serving(job.ceiling, c);
      if Candidate(claim, job.model, pools[0]) {
        assert ([pools[0]] + c)[1..] == c;
        assert ([pools[0]] + s)[1..] == s;
        assert Serving(job.ceiling, [pools[0]] + c) == if job.ceiling <= pools[0].maxContext then [pools[0]] + s else s;
      } else {
        assert Candidates(claim, job.model, pools) == c;
      }
    }
  }

  lemma {:induction false} UsablePoolsContents(tb: Tables, job: Job, claim: Claim, pools: seq<PoolView>)
    ensures forall p :: p in UsablePools(tb, job, claim, pools) <==> p in pools && Usable(tb, job, claim, p)
  {
    UsablePoolsAre(tb, job, claim, pools);
    if pools != [] {
      UsablePoolsContents(tb, job, claim, pools[1..]);
      assert pools == [pools[0]] + pools[1..];
    }
  }

  predicate SomeFits(tb: Tables, tier: Tier, pools: seq<PoolView>, cus: nat, t: Timestamp) {
    exists p :: p in pools && Fits(tb, tier, p, cus, t)
  }

  /** Placement succeeds exactly when some usable pool fits. */
  lemma PlaceOkIffSomeFits(tb: Tables, job: Job, claim: Claim, at: Timestamp, pools: seq<PoolView>)
    ensures Place(tb, job, claim, Some(at), pools).Ok?
            <==> SomeFits(tb, job.tier, UsablePools(tb, job, claim, pools), claim.cus, at)
    ensures Place(tb, job, claim, Some(at), pools).Ok?
            <==> exists p :: p in pools && Usable(tb, job, claim, p) && Fits(tb, job.tier, p, claim.cus, at)
  {
    var costed := UsablePools(tb, job, claim, pools);
    UsablePoolsContents(tb, job, claim, pools);
    EmptyStages(tb, job, claim, pools);
    var offers := Offers(tb, job.tier, costed, claim.cus, at);
    var b := Least(offers, |costed|);
    if b.Some? {
      assert costed[b.value] in costed && Fits(tb, job.tier, costed[b.value], claim.cus, at);
    } else {
      forall p | p in costed
        ensures !Fits(tb, job.tier, p, claim.cus, at)
      {
        var i :| 0 <= i < |costed| && costed[i] == p;
        assert offers[i].None?;
      }
    }
  }

  /** The pool chosen has the least slack of all usable pools that fit, and no pool listed
      before it does as well. */
  lemma PlaceIsBestFit(tb: Tables, job: Job, claim: Claim, at: Timestamp, pools: seq<PoolView>) returns (i: nat)
    requires Place(tb, job, claim, Some(at), pools).Ok?
    ensures var usable := UsablePools(tb, job, claim, pools);
      && i < |usable| && usable[i] in pools && Usable(tb, job, claim, usable[i])
      && IsLeast(Offers(tb, job.tier, usable, claim.cus, at), |usable|, i)
      && Place(tb, job, claim, Some(at), pools).value == Some((usable[i].key.pool, Need(tb, job.tier, usable[i], claim.cus)))
  {
    var costed := UsablePools(tb, job, claim, pools);
    UsablePoolsContents(tb, job, claim, pools);
    EmptyStages(tb, job, claim, pools);
    i := Least(Offers(tb, job.tier, costed, claim.cus, at), |costed|).value;
    assert costed[i] in costed;
  }

  lemma EmptyStages(tb: Tables, job: Job, claim: Claim, pools: seq<PoolView>)
    ensures Candidates(claim, job.model, pools) == [] ==> UsablePools(tb, job, claim, pools) == []
    ensures Serving(job.ceiling, Candidates(claim, job.model, pools)) == [] ==> UsablePools(tb, job, claim, pools) == []
  {
  }

  // ---------------------------------------------------------------------------
  // Placement, from the pools alone
  // ---------------------------------------------------------------------------

  /** A pool of the claim's region and model, and the one it names if it names one. */
  predicate Meant(job: Job, claim: Claim, p: PoolView) {
    p.key.region == claim.region && p.model == job.model && (claim.pool.Some? ==> p.key.pool == claim.pool.value)
  }

  /** Such a pool that serves the shape and has a price for the tier. */
  predicate Able(tb: Tables, job: Job, claim: Claim, p: PoolView) {
    Meant(job, claim, p) && job.ceiling <= p.maxContext && (p.key, job.tier) in tb.costs
  }

  /** Micro-replicas a pool would have left at `at`; negative if the claim does not fit. */
  function Left(tb: Tables, job: Job, claim: Claim, p: PoolView, at: Timestamp): int
    requires (p.key, job.tier) in tb.costs
  {
    Max(SizeAt(tb, p, at) - p.reserved, 0) - tb.costs[(p.key, job.tier)] * claim.cus
  }

  predicate HasRoom(tb: Tables, job: Job, claim: Claim, p: PoolView, at: Timestamp) {
    Able(tb, job, claim, p) && Left(tb, job, claim, p, at) >= 0
  }

  /** The claim goes to pool `k`: it has room, no pool with room would be left with less, and
      none before it with as little. */
  predicate GoesTo(tb: Tables, job: Job, claim: Claim, at: Timestamp, pools: seq<PoolView>, k: nat) {
    && k < |pools| && HasRoom(tb, job, claim, pools[k], at)
    && (forall j :: 0 <= j < |pools| && HasRoom(tb, job, claim, pools[j], at) ==>
          Left(tb, job, claim, pools[k], at) <= Left(tb, job, claim, pools[j], at))
    && (forall j :: 0 <= j < k && HasRoom(tb, job, claim, pools[j], at) ==>
          Left(tb, job, claim, pools[k], at) < Left(tb, job, claim, pools[j], at))
  }

  /** What a claim that goes nowhere is told. */
  predicate Refuses(tb: Tables, job: Job, claim: Claim, pools: seq<PoolView>, e: PlanError) {
    if forall p :: p in pools ==> !Meant(job, claim, p) then e == NotOffered(claim.region)
    else if forall p :: p in pools && Meant(job, claim, p) ==> p.maxContext < job.ceiling then
      && e.ShapeUnsupported? && e.region == claim.region && e.needed == job.ceiling
      && (forall p :: p in pools && Meant(job, claim, p) ==> p.maxContext <= e.maxContext)
      && exists p :: p in pools && Meant(job, claim, p) && p.maxContext == e.maxContext
    else if forall p :: p in pools ==> !Able(tb, job, claim, p) then e == NotOffered(claim.region)
    else e.CapacityUnavailable? && e.region == claim.region && e.requested == claim.cus
  }

  lemma OfferIs(tb: Tables, job: Job, claim: Claim, p: PoolView, at: Timestamp)
    ensures Usable(tb, job, claim, p) <==> Able(tb, job, claim, p)
    ensures Able(tb, job, claim, p) ==>
      var o := Offer(tb, job.tier, p, claim.cus, at);
      (o.Some? <==> HasRoom(tb, job, claim, p, at)) && (o.Some? ==> o.value == Left(tb, job, claim, p, at))
      && Need(tb, job.tier, p, claim.cus) == tb.costs[(p.key, job.tier)] * claim.cus
  {
  }

  /** `idx` lists where the pools of `usable` stand among all, in order. */
  ghost predicate Listed(pools: seq<PoolView>, usable: seq<PoolView>, idx: seq<nat>) {
    && |idx| == |usable| && (forall i :: 0 <= i < |idx| ==> idx[i] < |pools| && pools[idx[i]] == usable[i])
    && (forall i, j :: 0 <= i < j < |idx| ==> idx[i] < idx[j])
  }

  lemma ListedBehind(p: PoolView, rest: seq<PoolView>, usable: seq<PoolView>, idx: seq<nat>) returns (shifted: seq<nat>)
    requires Listed(rest, usable, idx)
    ensures Listed([p] + rest, usable, shifted) && (forall i :: 0 <= i < |shifted| ==> shifted[i] == idx[i] + 1)
    ensures Listed([p] + rest, [p] + usable, [0] + shifted)
  {
    shifted := seq(|idx|, i requires 0 <= i < |idx| => idx[i] + 1);
  }

  lemma {:induction false} UsableAmong(tb: Tables, job: Job, claim: Claim, pools: seq<PoolView>) returns (idx: seq<nat>)
    ensures Listed(pools, UsablePools(tb, job, claim, pools), idx)
    ensures forall k: nat :: k < |pools| && Usable(tb, job, claim, pools[k]) ==> k in idx
  {
    hide Usable, UsablePools, Listed;
    UsablePoolsAre(tb, job, claim, pools);
    if pools == [] {
      idx := [];
      ListedNone(pools);
    } else {
      var p, rest := pools[0], pools[1..];
      assert pools == [p] + rest;
      idx := UsableAmong(tb, job, claim, rest);
      var usable := UsablePools(tb, job, claim, rest);
      assert [] + usable == usable;
      var shifted := ListedBehind(p, rest, usable, idx);
      ListedLength(rest, usable, idx);
      ListedLength(pools, usable, shifted);
      CoversRest(tb, job, claim, pools, idx, shifted);
      idx := if Usable(tb, job, claim, p) then [0] + shifted else shifted;
    }
  }

  lemma ListedNone(pools: seq<PoolView>)
    ensures Listed(pools, [], [])
  {
  }

  lemma ListedLength(pools: seq<PoolView>, usable: seq<PoolView>, idx: seq<nat>)
    requires Listed(pools, usable, idx)
    ensures |idx| == |usable|
  {
  }

  lemma CoversRest(tb: Tables, job: Job, claim: Claim, pools: seq<PoolView>, idx: seq<nat>, shifted: seq<nat>)
    requires pools != [] && |shifted| == |idx| && (forall i :: 0 <= i < |shifted| ==> shifted[i] == idx[i] + 1)
    requires forall k: nat :: k < |pools[1..]| && Usable(tb, job, claim, pools[1..][k]) ==> k in idx
    ensures forall k: nat :: 0 < k < |pools| && Usable(tb, job, claim, pools[k]) ==> k in shifted
  {
    hide Usable;
    forall k: nat | 0 < k < |pools| && Usable(tb, job, claim, pools[k])
      ensures k in shifted
    {
      assert pools[1..][k - 1] == pools[k];
      var i :| 0 <= i < |idx| && idx[i] == k - 1;
      assert shifted[i] == k;
    }
  }

  /** Where a claim goes, and what it takes there; or what it is told. */
  lemma PlaceIs(tb: Tables, job: Job, claim: Claim, at: Timestamp, pools: seq<PoolView>) returns (k: nat)
    ensures var r := Place(tb, job, claim, Some(at), pools);
      match r
      case Ok(to) => GoesTo(tb, job, claim, at, pools, k) && to == Some((pools[k].key.pool, tb.costs[(pools[k].key, job.tier)] * claim.cus))
      case Err(e) => Refuses(tb, job, claim, pools, e) && forall p :: p in pools ==> !HasRoom(tb, job, claim, p, at)
  {
    hide Place, Usable, HasRoom, Offer, Need, Able, Refuses;
    k := 0;
    if Place(tb, job, claim, Some(at), pools).Ok? {
      var i := PlaceIsBestFit(tb, job, claim, at, pools);
      var idx := UsableAmong(tb, job, claim, pools);
      k := idx[i];
      BestGoes(tb, job, claim, at, pools, idx, i);
    } else {
      PlaceOkIffSomeFits(tb, job, claim, at, pools);
      forall p | p in pools
        ensures !HasRoom(tb, job, claim, p, at)
      {
        OfferIs(tb, job, claim, p, at);
        if HasRoom(tb, job, claim, p, at) {
          RoomIsAble(tb, job, claim, p, at);
        }
      }
      RefusalIs(tb, job, claim, at, pools);
    }
  }

  lemma RoomIsAble(tb: Tables, job: Job, claim: Claim, p: PoolView, at: Timestamp)
    requires HasRoom(tb, job, claim, p, at)
    ensures Able(tb, job, claim, p) && (p.key, job.tier) in tb.costs
  {
  }

  lemma BestGoes(tb: Tables, job: Job, claim: Claim, at: Timestamp, pools: seq<PoolView>, idx: seq<nat>, i: nat)
    requires var usable := UsablePools(tb, job, claim, pools);
      && i < |usable| && IsLeast(Offers(tb, job.tier, usable, claim.cus, at), |usable|, i) && Usable(tb, job, claim, usable[i])
      && Listed(pools, usable, idx) && (forall k: nat :: k < |pools| && Usable(tb, job, claim, pools[k]) ==> k in idx)
    ensures GoesTo(tb, job, claim, at, pools, idx[i])
    ensures var p := pools[idx[i]];
      (p.key, job.tier) in tb.costs && Need(tb, job.tier, p, claim.cus) == tb.costs[(p.key, job.tier)] * claim.cus
  {
    hide Usable, HasRoom, Offer, Need, Able, UsablePools, Left;
    var usable, k := UsablePools(tb, job, claim, pools), idx[i];
    var offers := Offers(tb, job.tier, usable, claim.cus, at);
    OfferIs(tb, job, claim, pools[k], at);
    assert offers[i] == Offer(tb, job.tier, pools[k], claim.cus, at);
    RoomIsAble(tb, job, claim, pools[k], at);
    forall j | 0 <= j < |pools| && HasRoom(tb, job, claim, pools[j], at)
      ensures (pools[j].key, job.tier) in tb.costs && Left(tb, job, claim, pools[k], at) <= Left(tb, job, claim, pools[j], at)
      ensures j < k ==> Left(tb, job, claim, pools[k], at) < Left(tb, job, claim, pools[j], at)
    {
      RoomIsAble(tb, job, claim, pools[j], at);
      OfferIs(tb, job, claim, pools[j], at);
      var m :| 0 <= m < |idx| && idx[m] == j;
      assert offers[m] == Offer(tb, job.tier, pools[j], claim.cus, at);
      assert j < k ==> m < i;
    }
  }

  lemma {:induction false} StagesAre(job: Job, claim: Claim, pools: seq<PoolView>)
    ensures forall p :: p in Candidates(claim, job.model, pools) <==> p in pools && Meant(job, claim, p)
    ensures forall p :: p in Serving(job.ceiling, pools) <==> p in pools && job.ceiling <= p.maxContext
    ensures forall p :: p in pools ==> p.maxContext <= MaxContext(pools)
    ensures pools != [] ==> exists p :: p in pools && p.maxContext == MaxContext(pools)
  {
    if pools != [] {
      StagesAre(job, claim, pools[1..]);
      assert pools == [pools[0]] + pools[1..];
      if MaxContext(pools) == pools[0].maxContext {
        assert pools[0] in pools;
      }
    }
  }

  lemma RefusalIs(tb: Tables, job: Job, claim: Claim, at: Timestamp, pools: seq<PoolView>)
    requires Place(tb, job, claim, Some(at), pools).Err?
    ensures Refuses(tb, job, claim, pools, Place(tb, job, claim, Some(at), pools).error)
  {
    var candidates := Candidates(claim, job.model, pools);
    StagesAre(job, claim, pools);
    StagesAre(job, claim, candidates);
    UsablePoolsContents(tb, job, claim, pools);
    var serving := Serving(job.ceiling, candidates);
    var usable := UsablePools(tb, job, claim, pools);
    hide Candidates, Serving, Costed, MaxContext, Least, Offers, Available, AvailableFrom;
    forall p | p in pools
      ensures Usable(tb, job, claim, p) <==> Able(tb, job, claim, p)
    {
      OfferIs(tb, job, claim, p, at);
    }
    assert candidates != [] ==> candidates[0] in candidates;
    assert serving != [] ==> serving[0] in serving;
    assert usable != [] ==> usable[0] in usable;
  }

  // ---------------------------------------------------------------------------
  // Refusals
  // ---------------------------------------------------------------------------

  /** Dividing and multiplying back: what whole CUs fit. */
  lemma WholeCus(micro: nat, c: nat, n: nat)
    requires c >= 1
    ensures c * n <= micro <==> n <= micro / c
  {
    if n <= micro / c {
      MulMonotone(c, n, micro / c);
    } else {
      MulMonotone(c, micro / c + 1, n);
    }
  }

  lemma MulMonotone(c: nat, a: nat, b: nat)
    requires a <= b
    ensures c * a <= c * b
  {
  }

  lemma {:induction false} AvailableIsMax(tb: Tables, tier: Tier, pools: seq<PoolView>, at: Timestamp)
    requires forall p :: p in pools ==> PerCu(tb.costs, p.key, tier).Some?
    ensures forall n: nat :: n <= U32_MAX && SomeFits(tb, tier, pools, n, at) ==> n <= Available(tb, tier, pools, at)
    ensures Available(tb, tier, pools, at) > 0 ==> exists p :: p in pools && Fits(tb, tier, p, Available(tb, tier, pools, at), at)
  {
    if pools != [] {
      var p0, rest := pools[0], pools[1..];
      AvailableIsMax(tb, tier, rest, at);
      var c := PerCu(tb.costs, p0.key, tier).value;
      var free := FreeAt(tb, p0, at);
      assert pools == [p0] + rest;
      forall n: nat | n <= U32_MAX && SomeFits(tb, tier, pools, n, at)
        ensures n <= Available(tb, tier, pools, at)
      {
        if Fits(tb, tier, p0, n, at) {
          WholeCus(free, c, n);
        } else {
          assert SomeFits(tb, tier, rest, n, at);
        }
      }
      var a := Available(tb, tier, pools, at);
      if a > 0 && a != Available(tb, tier, rest, at) {
        WholeCus(free, c, a);
        assert p0 in pools && Fits(tb, tier, p0, a, at);
      }
    }
  }

  /** What a refusal for lack of capacity reports, and that no usable pool fits. */
  lemma RefusedForCapacity(tb: Tables, job: Job, claim: Claim, at: Timestamp, pools: seq<PoolView>)
    requires Place(tb, job, claim, Some(at), pools).Err? && Place(tb, job, claim, Some(at), pools).error.CapacityUnavailable?
    ensures var usable := UsablePools(tb, job, claim, pools);
      && usable != []
      && (forall p :: p in usable ==> p in pools && Usable(tb, job, claim, p) && !Fits(tb, job.tier, p, claim.cus, at))
      && Place(tb, job, claim, Some(at), pools).error
         == CapacityUnavailable(claim.region, claim.cus, Available(tb, job.tier, usable, at),
                                AvailableFrom(tb, job.tier, usable, claim.cus, at))
  {
    UsablePoolsContents(tb, job, claim, pools);
    PlaceOkIffSomeFits(tb, job, claim, at, pools);
  }

  /** On refusal, `available` is the largest claim that would be placed, short of the request. */
  lemma RefusalReportsTheLargestFit(tb: Tables, job: Job, claim: Claim, at: Timestamp, pools: seq<PoolView>)
    requires claim.cus <= U32_MAX
    requires Place(tb, job, claim, Some(at), pools).Err? && Place(tb, job, claim, Some(at), pools).error.CapacityUnavailable?
    ensures Place(tb, job, claim, Some(at), pools).error.available < claim.cus
    ensures forall n: nat :: 0 < n <= U32_MAX ==>
      (Place(tb, job, claim.(cus := n), Some(at), pools).Ok? <==> n <= Place(tb, job, claim, Some(at), pools).error.available)
  {
    RefusedForCapacity(tb, job, claim, at, pools);
    var usable := UsablePools(tb, job, claim, pools);
    var a := Available(tb, job.tier, usable, at);
    AvailableIsMax(tb, job.tier, usable, at);
    forall n: nat | n <= U32_MAX
      ensures SomeFits(tb, job.tier, usable, n, at) <==> n <= a
    {
      if n <= a {
        var p := if a > 0 then AvailableWitness(tb, job.tier, usable, at) else usable[0];
        FitsShrinks(tb, job.tier, p, n, a, at);
      }
    }
    forall n: nat | 0 < n <= U32_MAX
      ensures Place(tb, job, claim.(cus := n), Some(at), pools).Ok? <==> n <= a
    {
      PlaceOkIffSomeFits(tb, job, claim.(cus := n), at, pools);
      UsableIgnoresSize(tb, job, claim, n, pools);
    }
    PlaceOkIffSomeFits(tb, job, claim, at, pools);
  }

  ghost function AvailableWitness(tb: Tables, tier: Tier, pools: seq<PoolView>, at: Timestamp): (p: PoolView)
    requires exists p :: p in pools && Fits(tb, tier, p, Available(tb, tier, pools, at), at)
    ensures p in pools && Fits(tb, tier, p, Available(tb, tier, pools, at), at)
  {
    var p :| p in pools && Fits(tb, tier, p, Available(tb, tier, pools, at), at);
    p
  }

  lemma FitsShrinks(tb: Tables, tier: Tier, p: PoolView, n: nat, m: nat, at: Timestamp)
    requires n <= m && Fits(tb, tier, p, m, at)
    ensures Fits(tb, tier, p, n, at)
  {
    match PerCu(tb.costs, p.key, tier)
    case None =>
    case Some(c) => MulMonotone(c, n, m);
  }

  lemma {:induction false} UsableIgnoresSize(tb: Tables, job: Job, claim: Claim, n: nat, pools: seq<PoolView>)
    ensures UsablePools(tb, job, claim.(cus := n), pools) == UsablePools(tb, job, claim, pools)
  {
    UsablePoolsAre(tb, job, claim, pools);
    UsablePoolsAre(tb, job, claim.(cus := n), pools);
    if pools != [] {
      UsableIgnoresSize(tb, job, claim, n, pools[1..]);
    }
  }

  /** How far a pool's counter exceeds its size at `at`. */
  function Deficit(tb: Tables, p: PoolView, at: Timestamp): nat {
    SaturatingSub(p.reserved, SizeAt(tb, p, at))
  }

  /** No later moment at which arrivals cover the need but not the deficit besides. */
  predicate NoBlindSpot(tb: Tables, tier: Tier, p: PoolView, cus: nat, at: Timestamp) {
    forall t: Timestamp {:trigger Growth(tb.schedule, p.key, at, t)} :: t > at ==>
      !(Need(tb, tier, p, cus) <= Growth(tb.schedule, p.key, at, t) < Need(tb, tier, p, cus) + Deficit(tb, p, at))
  }

  /** `r` is the first moment after `at` when `cus` fit in `p`, or `None` if none ever does. */
  predicate IsEarliestFit(tb: Tables, tier: Tier, p: PoolView, cus: nat, at: Timestamp, r: Option<Timestamp>) {
    match r
    case None => forall t: Timestamp :: t > at ==> !Fits(tb, tier, p, cus, t)
    case Some(f) => f > at && Fits(tb, tier, p, cus, f) && forall t: Timestamp :: at < t < f ==> !Fits(tb, tier, p, cus, t)
  }

  /** A pool's date is the true earliest one exactly when it has no blind spot; a pool that
      isn't in deficit never has one. */
  lemma DateExactIffNoBlindSpot(tb: Tables, tier: Tier, p: PoolView, cus: nat, at: Timestamp)
    requires !Fits(tb, tier, p, cus, at)
    ensures IsEarliestFit(tb, tier, p, cus, at, FitsFrom(tb.schedule, p.key, at, FreeAt(tb, p, at), Need(tb, tier, p, cus)))
            <==> NoBlindSpot(tb, tier, p, cus, at)
    ensures Deficit(tb, p, at) == 0 ==> NoBlindSpot(tb, tier, p, cus, at)
  {
    var need, free, deficit := Need(tb, tier, p, cus), FreeAt(tb, p, at), Deficit(tb, p, at);
    var r := FitsFrom(tb.schedule, p.key, at, free, need);
    FitsFromIsEarliest(tb.schedule, p.key, at, free, need);
    forall t: Timestamp | t > at
      ensures Fits(tb, tier, p, cus, t) <==> free + Growth(tb.schedule, p.key, at, t) >= need + deficit
    {
      AddedByMonotone(tb.schedule, p.key, at, t);
    }
    if r.Some? && deficit > 0 {
      forall t: Timestamp | t > at && NoBlindSpot(tb, tier, p, cus, at) && Fits(tb, tier, p, cus, t)
        ensures t >= r.value
      {
        assert free + Growth(tb.schedule, p.key, at, t) >= need;
      }
      if IsEarliestFit(tb, tier, p, cus, at, r) {
        forall t: Timestamp | t > at && Growth(tb.schedule, p.key, at, t) >= need
          ensures Growth(tb.schedule, p.key, at, t) >= need + deficit
        {
          assert t >= r.value;
          AddedByMonotone(tb.schedule, p.key, r.value, t);
        }
      }
    }
  }

  /** `r` is the first moment after `at` when some pool fits, or `None` if none ever does. */
  predicate IsEarliestSome(tb: Tables, tier: Tier, pools: seq<PoolView>, cus: nat, at: Timestamp, r: Option<Timestamp>) {
    match r
    case None => forall t: Timestamp :: t > at ==> !SomeFits(tb, tier, pools, cus, t)
    case Some(f) => f > at && SomeFits(tb, tier, pools, cus, f)
                    && forall t: Timestamp :: at < t < f ==> !SomeFits(tb, tier, pools, cus, t)
  }

  lemma {:induction false} AvailableFromIsEarliest(tb: Tables, tier: Tier, pools: seq<PoolView>, cus: nat, at: Timestamp)
    requires forall p :: p in pools ==> !Fits(tb, tier, p, cus, at) && NoBlindSpot(tb, tier, p, cus, at)
    ensures IsEarliestSome(tb, tier, pools, cus, at, AvailableFrom(tb, tier, pools, cus, at))
  {
    if pools != [] {
      hide Fits, SomeFits, NoBlindSpot, IsEarliestSome;
      var p, rest := pools[0], pools[1..];
      assert pools == [p] + rest && p in pools;
      AvailableFromIsEarliest(tb, tier, rest, cus, at);
      DateExactIffNoBlindSpot(tb, tier, p, cus, at);
      EarliestOfBoth(tb, tier, p, rest, cus, at,
                     FitsFrom(tb.schedule, p.key, at, FreeAt(tb, p, at), Need(tb, tier, p, cus)),
                     AvailableFrom(tb, tier, rest, cus, at));
    }
  }

  lemma EarliestOfBoth(tb: Tables, tier: Tier, p: PoolView, rest: seq<PoolView>, cus: nat, at: Timestamp,
                       a: Option<Timestamp>, b: Option<Timestamp>)
    requires IsEarliestFit(tb, tier, p, cus, at, a)
    requires IsEarliestSome(tb, tier, rest, cus, at, b)
    ensures IsEarliestSome(tb, tier, [p] + rest, cus, at, EarlierOf(a, b))
  {
    forall t: Timestamp
      ensures SomeFits(tb, tier, [p] + rest, cus, t) <==> Fits(tb, tier, p, cus, t) || SomeFits(tb, tier, rest, cus, t)
    {
      SomeFitsHead(tb, tier, p, rest, cus, t);
    }
    hide Fits, SomeFits;
  }

  lemma SomeFitsHead(tb: Tables, tier: Tier, p: PoolView, rest: seq<PoolView>, cus: nat, t: Timestamp)
    ensures SomeFits(tb, tier, [p] + rest, cus, t) <==> Fits(tb, tier, p, cus, t) || SomeFits(tb, tier, rest, cus, t)
  {
    hide Fits;
    assert p in [p] + rest;
  }

  predicate Placeable(tb: Tables, job: Job, claim: Claim, at: Timestamp, pools: seq<PoolView>) {
    Place(tb, job, claim, Some(at), pools).Ok?
  }

  /** `r` is the first moment after `at` when the claim is placed, or `None` if none is. */
  predicate IsEarliestPlacement(tb: Tables, job: Job, claim: Claim, at: Timestamp, pools: seq<PoolView>, r: Option<Timestamp>) {
    match r
    case None => forall t: Timestamp :: t > at ==> !Placeable(tb, job, claim, t, pools)
    case Some(f) => f > at && Placeable(tb, job, claim, f, pools)
                    && forall t: Timestamp :: at < t < f ==> !Placeable(tb, job, claim, t, pools)
  }

  /** A refused claim's date: the same claim is placed at that date and at no earlier one;
      without a date it is never placed. */
  lemma RefusalDateIsEarliest(tb: Tables, job: Job, claim: Claim, at: Timestamp, pools: seq<PoolView>)
    requires Place(tb, job, claim, Some(at), pools).Err? && Place(tb, job, claim, Some(at), pools).error.CapacityUnavailable?
    requires forall p :: p in pools && Usable(tb, job, claim, p) ==> NoBlindSpot(tb, job.tier, p, claim.cus, at)
    ensures IsEarliestPlacement(tb, job, claim, at, pools, Place(tb, job, claim, Some(at), pools).error.availableFrom)
  {
    var usable := UsablePools(tb, job, claim, pools);
    RefusedForCapacity(tb, job, claim, at, pools);
    AvailableFromIsEarliest(tb, job.tier, usable, claim.cus, at);
    EarliestPlacementFromFits(tb, job, claim, at, pools, AvailableFrom(tb, job.tier, usable, claim.cus, at));
  }

  /** By `t` a pool has got what the claim needs, had it not been short of anything. */
  predicate Promises(tb: Tables, tier: Tier, p: PoolView, cus: nat, at: Timestamp, t: Timestamp) {
    FreeAt(tb, p, at) + Growth(tb.schedule, p.key, at, t) >= Need(tb, tier, p, cus)
  }

  /** By `t` it has got what it was short of besides. */
  predicate Makes(tb: Tables, tier: Tier, p: PoolView, cus: nat, at: Timestamp, t: Timestamp) {
    FreeAt(tb, p, at) + Growth(tb.schedule, p.key, at, t) >= Need(tb, tier, p, cus) + Deficit(tb, p, at)
  }

  lemma MakesFits(tb: Tables, tier: Tier, p: PoolView, cus: nat, at: Timestamp, t: Timestamp)
    requires t > at && !Fits(tb, tier, p, cus, at)
    ensures Makes(tb, tier, p, cus, at, t) <==> Fits(tb, tier, p, cus, t)
    ensures Makes(tb, tier, p, cus, at, t) ==> Promises(tb, tier, p, cus, at, t)
  {
    AddedByMonotone(tb.schedule, p.key, at, t);
  }

  lemma MakesForGood(tb: Tables, tier: Tier, p: PoolView, cus: nat, at: Timestamp, t: Timestamp, later: Timestamp)
    requires at <= t <= later && Makes(tb, tier, p, cus, at, t)
    ensures Makes(tb, tier, p, cus, at, later)
  {
    AddedByMonotone(tb.schedule, p.key, at, t);
    AddedByMonotone(tb.schedule, p.key, t, later);
  }

  /** The date is no later than any at which a pool promises the need. */
  lemma {:induction false} NeverEarlier(tb: Tables, tier: Tier, pools: seq<PoolView>, cus: nat, at: Timestamp, p: PoolView, t: Timestamp)
    requires forall q :: q in pools ==> !Fits(tb, tier, q, cus, at)
    requires p in pools && t > at && Promises(tb, tier, p, cus, at, t)
    ensures var r := AvailableFrom(tb, tier, pools, cus, at); r.Some? && r.value <= t
  {
    if p == pools[0] {
      FitsFromIsEarliest(tb.schedule, p.key, at, FreeAt(tb, p, at), Need(tb, tier, p, cus));
    } else {
      NeverEarlier(tb, tier, pools[1..], cus, at, p, t);
    }
  }

  /** And on it some pool does. */
  lemma {:induction false} DateIsPromised(tb: Tables, tier: Tier, pools: seq<PoolView>, cus: nat, at: Timestamp)
    requires forall q :: q in pools ==> !Fits(tb, tier, q, cus, at)
    ensures var r := AvailableFrom(tb, tier, pools, cus, at);
      r.Some? ==> r.value > at && exists p :: p in pools && Promises(tb, tier, p, cus, at, r.value)
  {
    if pools != [] {
      var p := pools[0];
      assert p in pools;
      FitsFromIsEarliest(tb.schedule, p.key, at, FreeAt(tb, p, at), Need(tb, tier, p, cus));
      DateIsPromised(tb, tier, pools[1..], cus, at);
      var r := AvailableFrom(tb, tier, pools, cus, at);
      if r.Some? && r != AvailableFrom(tb, tier, pools[1..], cus, at) {
        assert Promises(tb, tier, p, cus, at, r.value);
      }
    }
  }

  predicate SomePromises(tb: Tables, job: Job, claim: Claim, at: Timestamp, pools: seq<PoolView>, t: Timestamp) {
    exists p :: p in pools && Usable(tb, job, claim, p) && Promises(tb, job.tier, p, claim.cus, at, t)
  }

  predicate SomeMakes(tb: Tables, job: Job, claim: Claim, at: Timestamp, pools: seq<PoolView>, t: Timestamp) {
    exists p :: p in pools && Usable(tb, job, claim, p) && Makes(tb, job.tier, p, claim.cus, at, t)
  }

  /** Whenever some usable pool promises what the claim needs, one has made up its deficit. */
  ghost predicate PromisesKept(tb: Tables, job: Job, claim: Claim, at: Timestamp, pools: seq<PoolView>) {
    forall t: Timestamp :: t > at && SomePromises(tb, job, claim, at, pools, t) ==> SomeMakes(tb, job, claim, at, pools, t)
  }

  lemma PlaceableIffMade(tb: Tables, job: Job, claim: Claim, at: Timestamp, pools: seq<PoolView>, t: Timestamp)
    requires t > at && forall p :: p in pools && Usable(tb, job, claim, p) ==> !Fits(tb, job.tier, p, claim.cus, at)
    ensures Placeable(tb, job, claim, t, pools) <==> SomeMakes(tb, job, claim, at, pools, t)
    ensures SomeMakes(tb, job, claim, at, pools, t) ==> SomePromises(tb, job, claim, at, pools, t)
  {
    PlaceOkIffSomeFits(tb, job, claim, t, pools);
    hide Place, Fits, Usable, Makes, Promises;
    forall p | p in pools && Usable(tb, job, claim, p)
      ensures Makes(tb, job.tier, p, claim.cus, at, t) <==> Fits(tb, job.tier, p, claim.cus, t)
      ensures Makes(tb, job.tier, p, claim.cus, at, t) ==> Promises(tb, job.tier, p, claim.cus, at, t)
    {
      MakesFits(tb, job.tier, p, claim.cus, at, t);
    }
  }

  /** The date of a refused claim is the first at which a usable pool promises what it needs. */
  lemma DateIsFirstPromise(tb: Tables, job: Job, claim: Claim, at: Timestamp, pools: seq<PoolView>)
    requires Place(tb, job, claim, Some(at), pools).Err? && Place(tb, job, claim, Some(at), pools).error.CapacityUnavailable?
    ensures forall p :: p in pools && Usable(tb, job, claim, p) ==> !Fits(tb, job.tier, p, claim.cus, at)
    ensures var date := Place(tb, job, claim, Some(at), pools).error.availableFrom;
      && (date.Some? ==> date.value > at && SomePromises(tb, job, claim, at, pools, date.value))
      && (forall t: Timestamp :: t > at && SomePromises(tb, job, claim, at, pools, t) ==> date.Some? && date.value <= t)
  {
    var usable := UsablePools(tb, job, claim, pools);
    RefusedForCapacity(tb, job, claim, at, pools);
    UsablePoolsContents(tb, job, claim, pools);
    DateIsPromised(tb, job.tier, usable, claim.cus, at);
    hide Place, Fits, Usable, UsablePools, AvailableFrom, Promises;
    forall t: Timestamp | t > at && SomePromises(tb, job, claim, at, pools, t)
      ensures var date := AvailableFrom(tb, job.tier, usable, claim.cus, at); date.Some? && date.value <= t
    {
      var p :| p in pools && Usable(tb, job, claim, p) && Promises(tb, job.tier, p, claim.cus, at, t);
      NeverEarlier(tb, job.tier, usable, claim.cus, at, p, t);
    }
  }

  /** A refused claim's date, or its having none, is right exactly when promises are kept, and
      it is never too late. */
  lemma RefusalDateExactIff(tb: Tables, job: Job, claim: Claim, at: Timestamp, pools: seq<PoolView>)
    requires Place(tb, job, claim, Some(at), pools).Err? && Place(tb, job, claim, Some(at), pools).error.CapacityUnavailable?
    ensures var date := Place(tb, job, claim, Some(at), pools).error.availableFrom;
      && (IsEarliestPlacement(tb, job, claim, at, pools, date) <==> PromisesKept(tb, job, claim, at, pools))
      && (forall t: Timestamp :: t > at && Placeable(tb, job, claim, t, pools) ==> date.Some? && date.value <= t)
  {
    DateIsFirstPromise(tb, job, claim, at, pools);
    var date := Place(tb, job, claim, Some(at), pools).error.availableFrom;
    forall t: Timestamp | t > at
      ensures Placeable(tb, job, claim, t, pools) <==> SomeMakes(tb, job, claim, at, pools, t)
      ensures SomeMakes(tb, job, claim, at, pools, t) ==> SomePromises(tb, job, claim, at, pools, t)
    {
      PlaceableIffMade(tb, job, claim, at, pools, t);
    }
    hide Place, Fits, Usable, Placeable, SomePromises, Makes;
    forall t: Timestamp | date.Some? && date.value <= t && SomeMakes(tb, job, claim, at, pools, date.value)
      ensures SomeMakes(tb, job, claim, at, pools, t)
    {
      var p :| p in pools && Usable(tb, job, claim, p) && Makes(tb, job.tier, p, claim.cus, at, date.value);
      MakesForGood(tb, job.tier, p, claim.cus, at, date.value, t);
    }
    hide SomeMakes;
  }

  lemma EarliestPlacementFromFits(tb: Tables, job: Job, claim: Claim, at: Timestamp, pools: seq<PoolView>, r: Option<Timestamp>)
    requires IsEarliestSome(tb, job.tier, UsablePools(tb, job, claim, pools), claim.cus, at, r)
    ensures IsEarliestPlacement(tb, job, claim, at, pools, r)
  {
    forall t: Timestamp
      ensures Placeable(tb, job, claim, t, pools) <==> SomeFits(tb, job.tier, UsablePools(tb, job, claim, pools), claim.cus, t)
    {
      PlaceOkIffSomeFits(tb, job, claim, t, pools);
    }
  }

  /** The date is wrong for a pool in deficit: one replica short, one arriving, one needed. */
  lemma DeficitMakesTheDateWrong()
    ensures exists tb: Tables, job: Job, claim: Claim, at: Timestamp, pools: seq<PoolView>, f: Timestamp ::
      && Place(tb, job, claim, Some(at), pools) == Err(CapacityUnavailable(claim.region, claim.cus, 0, Some(f)))
      && Place(tb, job, claim, Some(f), pools).Err?
  {
    var k := Key("r", "p");
    var tb := Tables(map[(k, Standard) := 1], map[k := [Arrival(5, 1)]]);
    var pool := PoolView(k, "m", 0, 1, 1);
    var job, claim := Job("m", Standard, 1), Claim("r", None, 1);
    assert AddedBy(tb.schedule, k, 0) == 0 && AddedBy(tb.schedule, k, 5) == 1;
    assert DatesAfter([Arrival(5, 1)], 0) == [5];
    assert Candidates(claim, "m", [pool]) == [pool];
    assert Serving(1, [pool]) == [pool] && Costed(tb, Standard, [pool]) == [pool];
    assert FitsFrom(tb.schedule, k, 0, 0, 1) == Some(5);
    assert AvailableFrom(tb, Standard, [pool], 1, 0) == Some(5);
    assert FreeAt(tb, pool, 0) == 0 && Available(tb, Standard, [pool], 0) == 0;
    assert Least(Offers(tb, Standard, [pool], 1, 0), 1) == None;
    assert Place(tb, job, claim, Some(0), [pool]) == Err(CapacityUnavailable("r", 1, 0, Some(5)));
    assert Place(tb, job, claim, Some(5), [pool]).Err?;
  }
}
