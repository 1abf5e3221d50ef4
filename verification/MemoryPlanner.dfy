/**
 The in-memory planner's counters: all-or-nothing reservation, release, restore and
 reconciliation (crates/pt-control-plane/src/planner.rs), and the promise of
 crates/pt-control-plane/src/capacity.rs that no moment is ever oversold.
 */
module MemoryPlanner {
  import opened Prelude
  import opened Capacity
  import opened Planner

  // ---------------------------------------------------------------------------
  // Counters
  // ---------------------------------------------------------------------------

  function Raise(pools: seq<PoolView>, key: Key, need: nat): (r: seq<PoolView>)
    ensures |r| == |pools|
  {
    seq(|pools|, i requires 0 <= i < |pools| =>
      if pools[i].key == key then pools[i].(reserved := pools[i].reserved + need) else pools[i])
  }

  function Lower(pools: seq<PoolView>, key: Key, need: nat): (r: seq<PoolView>)
    ensures |r| == |pools|
  {
    seq(|pools|, i requires 0 <= i < |pools| =>
      if pools[i].key == key then pools[i].(reserved := SaturatingSub(pools[i].reserved, need)) else pools[i])
  }

  function CostOrZero(tb: Tables, tier: Tier, s: PoolShare): nat {
    match ShareCost(tb.costs, tier, s) case None => 0 case Some(m) => m
  }

  /** Micro-replicas `shares` take from one pool. */
  function CostOf(tb: Tables, tier: Tier, shares: seq<PoolShare>, key: Key): nat {
    if shares == [] then 0
    else (if shares[0].Where() == key then CostOrZero(tb, tier, shares[0]) else 0) + CostOf(tb, tier, shares[1..], key)
  }

  /** Same pools, same order; only counters may differ. */
  predicate SamePools(a: seq<PoolView>, b: seq<PoolView>) {
    |a| == |b| && forall i :: 0 <= i < |a| ==> a[i].(reserved := 0) == b[i].(reserved := 0)
  }

  /** `b` holds `shares` more than `a`. */
  predicate Added(tb: Tables, tier: Tier, shares: seq<PoolShare>, a: seq<PoolView>, b: seq<PoolView>) {
    SamePools(a, b) && forall i :: 0 <= i < |a| ==> b[i].reserved == a[i].reserved + CostOf(tb, tier, shares, a[i].key)
  }

  /** Placement with a start date always names a pool. */
  function PlaceAt(tb: Tables, job: Job, claim: Claim, at: Timestamp, pools: seq<PoolView>): Result<(string, nat), PlanError> {
    match Place(tb, job, claim, Some(at), pools)
    case Err(e) => Err(e)
    case Ok(o) => Ok(o.value)
  }

  /** Every claim in turn, each seeing what the earlier ones took; or nothing at all. */
  function ReserveAll(tb: Tables, job: Job, at: Timestamp, claims: seq<Claim>, pools: seq<PoolView>)
    : Result<(seq<PoolShare>, seq<PoolView>), PlanError>
    decreases |claims|
  {
    if claims == [] then Ok(([], pools))
    else
      match PlaceAt(tb, job, claims[0], at, pools)
      case Err(e) => Err(e)
      case Ok((pool, need)) =>
        match ReserveAll(tb, job, at, claims[1..], Raise(pools, Key(claims[0].region, pool), need))
        case Err(e) => Err(e)
        case Ok((placed, after)) => Ok(([PoolShare(claims[0].region, pool, claims[0].cus)] + placed, after))
  }

  /** `r` with `placed` in front of its shares. */
  function Behind(placed: seq<PoolShare>, r: Result<(seq<PoolShare>, seq<PoolView>), PlanError>)
    : Result<(seq<PoolShare>, seq<PoolView>), PlanError>
  {
    match r case Err(e) => Err(e) case Ok((rest, after)) => Ok((placed + rest, after))
  }

  lemma ReserveAllStep(tb: Tables, job: Job, at: Timestamp, claims: seq<Claim>, pools: seq<PoolView>, placed: seq<PoolShare>)
    requires claims != []
    ensures var first := PlaceAt(tb, job, claims[0], at, pools);
      Behind(placed, ReserveAll(tb, job, at, claims, pools))
      == if first.Err? then Err(first.error)
         else Behind(placed + [PoolShare(claims[0].region, first.value.0, claims[0].cus)],
                     ReserveAll(tb, job, at, claims[1..], Raise(pools, Key(claims[0].region, first.value.0), first.value.1)))
  {
    var first := PlaceAt(tb, job, claims[0], at, pools);
    if first.Ok? {
      var rest := ReserveAll(tb, job, at, claims[1..], Raise(pools, Key(claims[0].region, first.value.0), first.value.1));
      if rest.Ok? {
        var share := PoolShare(claims[0].region, first.value.0, claims[0].cus);
        assert placed + ([share] + rest.value.0) == (placed + [share]) + rest.value.0;
      }
    }
  }

  lemma BehindNothing(r: Result<(seq<PoolShare>, seq<PoolView>), PlanError>)
    ensures Behind([], r) == r
  {
    if r.Ok? {
      assert [] + r.value.0 == r.value.0;
    }
  }

  function ReleaseAll(tb: Tables, tier: Tier, shares: seq<PoolShare>, pools: seq<PoolView>): seq<PoolView>
    decreases |shares|
  {
    if shares == [] then pools
    else ReleaseAll(tb, tier, shares[1..], Lower(pools, shares[0].Where(), CostOrZero(tb, tier, shares[0])))
  }

  /** The placed share of one claim: on a configured, usable pool with room. */
  lemma PlaceAtFits(tb: Tables, job: Job, claim: Claim, at: Timestamp, pools: seq<PoolView>) returns (p: PoolView)
    requires PlaceAt(tb, job, claim, at, pools).Ok?
    ensures p in pools && Usable(tb, job, claim, p) && Fits(tb, job.tier, p, claim.cus, at)
    ensures PlaceAt(tb, job, claim, at, pools).value == (p.key.pool, Need(tb, job.tier, p, claim.cus))
    ensures p.key == Key(claim.region, p.key.pool)
    ensures Need(tb, job.tier, p, claim.cus) == CostOrZero(tb, job.tier, PoolShare(claim.region, p.key.pool, claim.cus))
    ensures Need(tb, job.tier, p, claim.cus) > 0 ==> p.reserved + Need(tb, job.tier, p, claim.cus) <= SizeAt(tb, p, at)
  {
    var i := PlaceIsBestFit(tb, job, claim, at, pools);
    p := UsablePools(tb, job, claim, pools)[i];
  }

  /** One placed share answers one claim. */
  predicate Answers(claim: Claim, s: PoolShare) {
    s.region == claim.region && s.cus == claim.cus && (claim.pool.Some? ==> s.pool == claim.pool.value)
  }

  /** Reserving raises each pool's counter by exactly what was placed on it. */
  lemma {:induction false} ReserveAllAdds(tb: Tables, job: Job, at: Timestamp, claims: seq<Claim>, pools: seq<PoolView>)
    requires ReserveAll(tb, job, at, claims, pools).Ok?
    ensures var (placed, after) := ReserveAll(tb, job, at, claims, pools).value;
      && Added(tb, job.tier, placed, pools, after)
      && |placed| == |claims| && forall i :: 0 <= i < |claims| ==> Answers(claims[i], placed[i])
    decreases |claims|
  {
    if claims != [] {
      var p := PlaceAtFits(tb, job, claims[0], at, pools);
      var raised := Raise(pools, p.key, Need(tb, job.tier, p, claims[0].cus));
      ReserveAllAdds(tb, job, at, claims[1..], raised);
      var (placed, after) := ReserveAll(tb, job, at, claims, pools).value;
      var first := PoolShare(claims[0].region, p.key.pool, claims[0].cus);
      assert placed == [first] + placed[1..];
      forall i | 0 <= i < |claims|
        ensures Answers(claims[i], placed[i])
      {
        assert i > 0 ==> claims[i] == claims[1..][i - 1] && placed[i] == placed[1..][i - 1];
      }
    }
  }

  /** One claim placed: on the pool it goes to, whose counter alone rises, by its cost. */
  ghost predicate Settles(tb: Tables, job: Job, claim: Claim, at: Timestamp, a: seq<PoolView>, s: PoolShare, b: seq<PoolView>) {
    && Answers(claim, s) && SamePools(a, b)
    && exists k: nat ::
         && GoesTo(tb, job, claim, at, a, k) && a[k].key.pool == s.pool
         && forall j :: 0 <= j < |a| ==>
              b[j].reserved == a[j].reserved + if a[j].key == a[k].key then tb.costs[(a[k].key, job.tier)] * claim.cus else 0
  }

  lemma PlaceAtIs(tb: Tables, job: Job, claim: Claim, at: Timestamp, pools: seq<PoolView>)
    ensures match PlaceAt(tb, job, claim, at, pools)
      case Ok((pool, need)) => Settles(tb, job, claim, at, pools, PoolShare(claim.region, pool, claim.cus), Raise(pools, Key(claim.region, pool), need))
      case Err(e) => Refuses(tb, job, claim, pools, e) && forall p :: p in pools ==> !HasRoom(tb, job, claim, p, at)
  {
    hide Place, Refuses, GoesTo;
    var k := PlaceIs(tb, job, claim, at, pools);
    if PlaceAt(tb, job, claim, at, pools).Ok? {
      GoesWithin(tb, job, claim, at, pools, k);
    }
  }

  lemma GoesWithin(tb: Tables, job: Job, claim: Claim, at: Timestamp, pools: seq<PoolView>, k: nat)
    requires GoesTo(tb, job, claim, at, pools, k)
    ensures k < |pools| && pools[k].key.region == claim.region && (claim.pool.Some? ==> pools[k].key.pool == claim.pool.value)
  {
  }

  /** Claims are placed one after another, each on the counters the ones before it left, until
      one finds no room: then its refusal is the answer and nothing is placed. */
  lemma {:induction false} ReserveAllIs(tb: Tables, job: Job, at: Timestamp, claims: seq<Claim>, pools: seq<PoolView>)
    returns (placed: seq<PoolShare>, steps: seq<seq<PoolView>>)
    ensures |placed| <= |claims| && |steps| == |placed| + 1 && steps[0] == pools
    ensures forall i :: 0 <= i < |placed| ==> Settles(tb, job, claims[i], at, steps[i], placed[i], steps[i + 1])
    ensures match ReserveAll(tb, job, at, claims, pools)
      case Ok((shares, after)) => |placed| == |claims| && shares == placed && after == steps[|placed|]
      case Err(e) =>
        && |placed| < |claims| && Refuses(tb, job, claims[|placed|], steps[|placed|], e)
        && forall p :: p in steps[|placed|] ==> !HasRoom(tb, job, claims[|placed|], p, at)
    decreases |claims|
  {
    hide PlaceAt, Settles, Refuses, HasRoom;
    placed, steps := [], [pools];
    if claims != [] {
      PlaceAtIs(tb, job, claims[0], at, pools);
      var first := PlaceAt(tb, job, claims[0], at, pools);
      if first.Ok? {
        var share := PoolShare(claims[0].region, first.value.0, claims[0].cus);
        var raised := Raise(pools, Key(claims[0].region, first.value.0), first.value.1);
        var rest, later := ReserveAllIs(tb, job, at, claims[1..], raised);
        placed, steps := [share] + rest, [pools] + later;
        forall i | 0 <= i < |placed|
          ensures Settles(tb, job, claims[i], at, steps[i], placed[i], steps[i + 1])
        {
          if i > 0 {
            assert claims[i] == claims[1..][i - 1] && placed[i] == rest[i - 1] && steps[i] == later[i - 1] && steps[i + 1] == later[i];
          }
        }
      }
    }
  }

  /** `pools` hold at least `shares`. */
  predicate Covers(tb: Tables, tier: Tier, shares: seq<PoolShare>, pools: seq<PoolView>) {
    forall i :: 0 <= i < |pools| ==> CostOf(tb, tier, shares, pools[i].key) <= pools[i].reserved
  }

  /** Releasing what is held takes exactly it away. */
  lemma {:induction false} ReleaseAllRemoves(tb: Tables, tier: Tier, shares: seq<PoolShare>, pools: seq<PoolView>)
    requires Covers(tb, tier, shares, pools)
    ensures Added(tb, tier, shares, ReleaseAll(tb, tier, shares, pools), pools)
    decreases |shares|
  {
    if shares != [] {
      ReleaseAllRemoves(tb, tier, shares[1..], Lower(pools, shares[0].Where(), CostOrZero(tb, tier, shares[0])));
    }
  }

  lemma AddedUnique(tb: Tables, tier: Tier, shares: seq<PoolShare>, a: seq<PoolView>, b: seq<PoolView>, c: seq<PoolView>)
    requires Added(tb, tier, shares, a, c) && Added(tb, tier, shares, b, c)
    ensures a == b
  {
    forall i | 0 <= i < |a|
      ensures a[i] == b[i]
    {
      assert a[i].(reserved := 0) == c[i].(reserved := 0) == b[i].(reserved := 0);
    }
  }

  /** Releasing a reservation undoes it exactly. */
  lemma ReleaseUndoesReserve(tb: Tables, job: Job, at: Timestamp, claims: seq<Claim>, pools: seq<PoolView>)
    requires ReserveAll(tb, job, at, claims, pools).Ok?
    ensures var (placed, after) := ReserveAll(tb, job, at, claims, pools).value;
      ReleaseAll(tb, job.tier, placed, after) == pools
  {
    ReserveAllAdds(tb, job, at, claims, pools);
    var (placed, after) := ReserveAll(tb, job, at, claims, pools).value;
    assert Covers(tb, job.tier, placed, after);
    ReleaseAllRemoves(tb, job.tier, placed, after);
    AddedUnique(tb, job.tier, placed, ReleaseAll(tb, job.tier, placed, after), pools, after);
  }

  // ---------------------------------------------------------------------------
  // Reconciliation
  // ---------------------------------------------------------------------------

  datatype Held = Held(tier: Tier, shares: seq<PoolShare>)

  /** Micro-replicas every live reservation holds in one pool. */
  function ExpectedMicro(tb: Tables, held: seq<Held>, key: Key): nat {
    if held == [] then 0 else CostOf(tb, held[0].tier, held[0].shares, key) + ExpectedMicro(tb, held[1..], key)
  }

  datatype Drift = Drift(key: Key, reserved: nat, expected: nat, corrected: bool)

  /** What a pool's remembered drift becomes, and whether this run corrects it. */
  function Judged(pending: Option<(nat, nat)>, reserved: nat, expected: nat): (Option<(nat, nat)>, bool) {
    if reserved == expected then (None, false)
    else if pending == Some((reserved, expected)) then (None, true)
    else (Some((reserved, expected)), false)
  }

  function Wanted(expected: map<Key, nat>, key: Key): nat {
    if key in expected then expected[key] else 0
  }

  /** What a run does to one pool: what it remembers, the counter it leaves, what it reports. */
  function MemoryAfter(was: PoolView, pending: map<Key, (nat, nat)>, expected: map<Key, nat>): Option<(nat, nat)> {
    Judged(Lookup(pending, was.key), was.reserved, Wanted(expected, was.key)).0
  }

  function CounterAfter(was: PoolView, pending: map<Key, (nat, nat)>, expected: map<Key, nat>): nat {
    if Judged(Lookup(pending, was.key), was.reserved, Wanted(expected, was.key)).1 then Wanted(expected, was.key) else was.reserved
  }

  function DriftAt(was: PoolView, pending: map<Key, (nat, nat)>, expected: map<Key, nat>): Option<Drift> {
    if was.reserved == Wanted(expected, was.key) then None
    else Some(Drift(was.key, was.reserved, Wanted(expected, was.key), Judged(Lookup(pending, was.key), was.reserved, Wanted(expected, was.key)).1))
  }

  /** What a run reports of the first `n` pools. */
  function DriftsOf(pools: seq<PoolView>, pending: map<Key, (nat, nat)>, expected: map<Key, nat>, n: nat): seq<Drift>
    requires n <= |pools|
  {
    if n == 0 then []
    else
      var d := DriftAt(pools[n - 1], pending, expected);
      DriftsOf(pools, pending, expected, n - 1) + (if d.Some? then [d.value] else [])
  }

  function Lookup<K, V>(m: map<K, V>, k: K): Option<V> {
    if k in m then Some(m[k]) else None
  }

  /** One pool's memory after a series of runs, each seeing (reserved, expected). */
  function Remembered(runs: seq<(nat, nat)>): Option<(nat, nat)> {
    if runs == [] then None
    else Judged(Remembered(runs[..|runs| - 1]), runs[|runs| - 1].0, runs[|runs| - 1].1).0
  }

  predicate Corrects(runs: seq<(nat, nat)>, n: nat)
    requires n < |runs|
  {
    Judged(Remembered(runs[..n]), runs[n].0, runs[n].1).1
  }

  /** A run corrects a pool exactly when it drifts as it did on the run before, and that run
      did not correct it: a sale in flight, seen once, is never undone. */
  lemma CorrectedOnlyOnRepeat(runs: seq<(nat, nat)>, n: nat)
    requires n < |runs|
    ensures Corrects(runs, n) <==>
            runs[n].0 != runs[n].1 && n > 0 && runs[n - 1] == runs[n] && !Corrects(runs, n - 1)
  {
    if n > 0 {
      assert runs[..n][..n - 1] == runs[..n - 1];
    }
  }

  class Counters {
    const tb: Tables
    var pools: seq<PoolView>
    var pending: map<Key, (nat, nat)>

    constructor (tb: Tables, pools: seq<PoolView>)
      requires DistinctKeys(pools)
      ensures this.tb == tb && this.pools == pools && pending == map[]
    {
      this.tb, this.pools, pending := tb, pools, map[];
    }

    /** Places every claim on a scratch copy, so a later failure changes nothing. */
    method Reserve(job: Job, claims: seq<Claim>, at: Timestamp) returns (r: Result<seq<PoolShare>, PlanError>)
      requires DistinctKeys(pools)
      modifies this`pools
      ensures DistinctKeys(pools)
      ensures var spec := ReserveAll(tb, job, at, claims, old(pools));
        if spec.Err? then r == Err(spec.error) && pools == old(pools)
        else r == Ok(spec.value.0) && pools == spec.value.1
    {
      var scratch := pools;
      var placed := [];
      assert claims[0..] == claims;
      BehindNothing(ReserveAll(tb, job, at, claims, pools));
      for i := 0 to |claims|
        invariant pools == old(pools) && DistinctKeys(scratch)
        invariant ReserveAll(tb, job, at, claims, pools) == Behind(placed, ReserveAll(tb, job, at, claims[i..], scratch))
      {
        var c := claims[i];
        ReserveAllStep(tb, job, at, claims[i..], scratch, placed);
        assert claims[i..][0] == c && claims[i..][1..] == claims[i + 1..];
        var where := PlaceOne(tb, job, c, at, scratch);
        if where.Err? {
          return Err(where.error);
        }
        var (pool, need) := where.value;
        scratch := BumpFirst(scratch, Key(c.region, pool), need);
        placed := placed + [PoolShare(c.region, pool, c.cus)];
      }
      assert claims[|claims|..] == [] && placed + [] == placed;
      pools := scratch;
      r := Ok(placed);
    }

    static method PlaceOne(tb: Tables, job: Job, claim: Claim, at: Timestamp, pools: seq<PoolView>)
      returns (r: Result<(string, nat), PlanError>)
      ensures r == PlaceAt(tb, job, claim, at, pools)
    {
      var where := PlaceByScan(tb, job, claim, Some(at), pools);
      r := if where.Err? then Err(where.error) else Ok(where.value.value);
    }

    /** `iter_mut().find(..)` then `reserved += need`. */
    static method BumpFirst(pools: seq<PoolView>, key: Key, need: nat) returns (r: seq<PoolView>)
      requires DistinctKeys(pools)
      ensures r == Raise(pools, key, need) && DistinctKeys(r)
    {
      r := pools;
      for i := 0 to |pools|
        invariant r == pools
        invariant forall j :: 0 <= j < i ==> pools[j].key != key
      {
        if pools[i].key == key {
          r := r[i := pools[i].(reserved := pools[i].reserved + need)];
          return;
        }
      }
    }

    static method CutFirst(pools: seq<PoolView>, key: Key, need: nat) returns (r: seq<PoolView>)
      requires DistinctKeys(pools)
      ensures r == Lower(pools, key, need) && DistinctKeys(r)
    {
      r := pools;
      for i := 0 to |pools|
        invariant r == pools
        invariant forall j :: 0 <= j < i ==> pools[j].key != key
      {
        if pools[i].key == key {
          r := r[i := pools[i].(reserved := SaturatingSub(pools[i].reserved, need))];
          return;
        }
      }
    }

    method Release(tier: Tier, shares: seq<PoolShare>)
      requires DistinctKeys(pools)
      modifies this`pools
      ensures pools == ReleaseAll(tb, tier, shares, old(pools)) && DistinctKeys(pools)
    {
      for i := 0 to |shares|
        invariant DistinctKeys(pools)
        invariant ReleaseAll(tb, tier, shares, old(pools)) == ReleaseAll(tb, tier, shares[i..], pools)
      {
        assert shares[i..][1..] == shares[i + 1..];
        pools := CutFirst(pools, shares[i].Where(), CostOrZero(tb, tier, shares[i]));
      }
      assert shares[|shares|..] == [];
    }

    /** Raises each pool by what live reservations hold there, whatever its size. */
    method Restore(live: seq<Held>)
      requires DistinctKeys(pools)
      modifies this`pools
      ensures SamePools(old(pools), pools)
      ensures forall i :: 0 <= i < |pools| ==>
        pools[i].reserved == old(pools)[i].reserved + ExpectedMicro(tb, live, pools[i].key)
    {
      for i := 0 to |pools|
        invariant SamePools(old(pools), pools)
        invariant forall j :: 0 <= j < |pools| ==>
          pools[j].reserved == old(pools)[j].reserved + if j < i then ExpectedMicro(tb, live, pools[j].key) else 0
      {
        pools := pools[i := pools[i].(reserved := pools[i].reserved + ExpectedMicro(tb, live, pools[i].key))];
      }
    }

    /** `judge_drift`: what is remembered of one pool, and what is reported. */
    static method JudgeDrift(pending: map<Key, (nat, nat)>, key: Key, reserved: nat, expected: nat)
      returns (pending': map<Key, (nat, nat)>, drift: Option<Drift>)
      ensures Lookup(pending', key) == Judged(Lookup(pending, key), reserved, expected).0
      ensures forall k :: k != key ==> Lookup(pending', k) == Lookup(pending, k)
      ensures drift == if reserved == expected then None
                       else Some(Drift(key, reserved, expected, Judged(Lookup(pending, key), reserved, expected).1))
    {
      if reserved == expected {
        return pending - {key}, None;
      }
      var fix := key in pending && pending[key] == (reserved, expected);
      pending' := if fix then pending - {key} else pending[key := (reserved, expected)];
      drift := Some(Drift(key, reserved, expected, fix));
    }

    /** Each pool is judged on its own memory; only a repeated drift is corrected, and every
        drift is reported. */
    method Reconcile(expected: map<Key, nat>) returns (drifts: seq<Drift>)
      requires DistinctKeys(pools)
      modifies this
      ensures SamePools(old(pools), pools)
      ensures forall i :: 0 <= i < |pools| ==>
        Lookup(pending, pools[i].key) == MemoryAfter(old(pools)[i], old(pending), expected)
        && pools[i].reserved == CounterAfter(old(pools)[i], old(pending), expected)
      ensures drifts == DriftsOf(old(pools), old(pending), expected, |pools|)
    {
      drifts := [];
      for i := 0 to |pools|
        invariant SamePools(old(pools), pools)
        invariant drifts == DriftsOf(old(pools), old(pending), expected, i)
        invariant forall j :: i <= j < |pools| ==> pools[j] == old(pools)[j]
        invariant forall j :: i <= j < |pools| ==> Lookup(pending, pools[j].key) == Lookup(old(pending), pools[j].key)
        invariant forall j :: 0 <= j < i ==>
          Lookup(pending, pools[j].key) == MemoryAfter(old(pools)[j], old(pending), expected)
          && pools[j].reserved == CounterAfter(old(pools)[j], old(pending), expected)
      {
        var want := Wanted(expected, pools[i].key);
        var drift;
        pending, drift := JudgeDrift(pending, pools[i].key, pools[i].reserved, want);
        if drift.Some? {
          if drift.value.corrected {
            pools := pools[i := pools[i].(reserved := want)];
          }
          drifts := drifts + [drift.value];
        }
      }
    }
  }

  // ---------------------------------------------------------------------------
  // No moment is ever oversold
  // ---------------------------------------------------------------------------

  /** CUs sold on one pool from a start date. */
  datatype Sale = Sale(share: PoolShare, tier: Tier, start: Timestamp)

  /** The counters, and the live sales in the order they were made. */
  datatype Book = Book(pools: seq<PoolView>, live: seq<Sale>)

  datatype Trade =
    | Sell(job: Job, claims: seq<Claim>, at: Timestamp)
    | GiveBack(i: nat, cus: nat)     // returns `cus` CUs of sale `i`, which may be all of them

  function SaleCost(tb: Tables, s: Sale): nat {
    CostOrZero(tb, s.tier, s.share)
  }

  /** What the first `n` sales take from a pool. */
  function SoldIn(tb: Tables, live: seq<Sale>, n: nat, key: Key): nat
    requires n <= |live|
  {
    if n == 0 then 0
    else SoldIn(tb, live, n - 1, key) + if live[n - 1].share.Where() == key then SaleCost(tb, live[n - 1]) else 0
  }

  /** What those of them that have started by `t` take. */
  function StartedIn(tb: Tables, live: seq<Sale>, n: nat, key: Key, t: Timestamp): nat
    requires n <= |live|
  {
    if n == 0 then 0
    else StartedIn(tb, live, n - 1, key, t) +
         if live[n - 1].share.Where() == key && live[n - 1].start <= t then SaleCost(tb, live[n - 1]) else 0
  }

  /** The counter is the live sales' total, and each sale fits, with all live sales made
      before it, in the pool as it will be at its own start. */
  predicate PoolSound(tb: Tables, live: seq<Sale>, p: PoolView) {
    && p.reserved == SoldIn(tb, live, |live|, p.key)
    && forall i :: 0 <= i < |live| && live[i].share.Where() == p.key && SaleCost(tb, live[i]) > 0 ==>
         SoldIn(tb, live, i + 1, p.key) <= SizeAt(tb, p, live[i].start)
  }

  predicate Sound(tb: Tables, b: Book) {
    DistinctKeys(b.pools) && forall k :: 0 <= k < |b.pools| ==> PoolSound(tb, b.live, b.pools[k])
  }

  function SalesOf(placed: seq<PoolShare>, tier: Tier, at: Timestamp): (r: seq<Sale>)
    ensures |r| == |placed|
  {
    seq(|placed|, i requires 0 <= i < |placed| => Sale(placed[i], tier, at))
  }

  function Traded(tb: Tables, b: Book, trade: Trade): Book {
    match trade
    case Sell(job, claims, at) =>
      (match ReserveAll(tb, job, at, claims, b.pools)
       case Err(_) => b
       case Ok(r) => Book(r.1, b.live + SalesOf(r.0, job.tier, at)))
    case GiveBack(i, cus) =>
      if i < |b.live| && cus <= b.live[i].share.cus then
        var s := b.live[i];
        Book(ReleaseAll(tb, s.tier, [s.share.(cus := cus)], b.pools),
             b.live[i := s.(share := s.share.(cus := s.share.cus - cus))])
      else b
  }

  function Trading(tb: Tables, b: Book, trades: seq<Trade>): Book
    decreases |trades|
  {
    if trades == [] then b else Trading(tb, Traded(tb, b, trades[0]), trades[1..])
  }

  lemma {:induction false} SoldInPrefix(tb: Tables, a: seq<Sale>, b: seq<Sale>, n: nat, key: Key)
    requires n <= |a| && n <= |b| && a[..n] == b[..n]
    ensures SoldIn(tb, a, n, key) == SoldIn(tb, b, n, key)
  {
    if n > 0 {
      assert a[..n][n - 1] == b[..n][n - 1];
      assert a[..n - 1] == a[..n][..n - 1] && b[..n - 1] == b[..n][..n - 1];
      SoldInPrefix(tb, a, b, n - 1, key);
    }
  }

  /** One more sale, placed where it fits. */
  lemma SellOneKeepsSound(tb: Tables, b: Book, p: PoolView, sale: Sale)
    requires Sound(tb, b) && p in b.pools && sale.share.Where() == p.key
    requires SaleCost(tb, sale) > 0 ==> p.reserved + SaleCost(tb, sale) <= SizeAt(tb, p, sale.start)
    ensures Sound(tb, Book(Raise(b.pools, p.key, SaleCost(tb, sale)), b.live + [sale]))
  {
    var raised := Raise(b.pools, p.key, SaleCost(tb, sale));
    var live := b.live + [sale];
    forall k | 0 <= k < |raised|
      ensures PoolSound(tb, live, raised[k])
    {
      var q := b.pools[k];
      assert PoolSound(tb, b.live, q);
      forall n | 0 <= n <= |b.live|
        ensures SoldIn(tb, live, n, q.key) == SoldIn(tb, b.live, n, q.key)
      {
        assert live[..n] == b.live[..n];
        SoldInPrefix(tb, live, b.live, n, q.key);
      }
      if q.key == p.key {
        var i :| 0 <= i < |b.pools| && b.pools[i] == p;
        assert i == k;
      }
    }
  }

  /** The first claim's share, and what the rest then do. */
  lemma ReserveAllHead(tb: Tables, job: Job, at: Timestamp, claims: seq<Claim>, pools: seq<PoolView>)
    returns (p: PoolView, share: PoolShare)
    requires claims != [] && ReserveAll(tb, job, at, claims, pools).Ok?
    ensures p in pools && share == PoolShare(claims[0].region, p.key.pool, claims[0].cus) && share.Where() == p.key
    ensures var need := CostOrZero(tb, job.tier, share);
      && Usable(tb, job, claims[0], p)
      && (need > 0 ==> p.reserved + need <= SizeAt(tb, p, at))
      && ReserveAll(tb, job, at, claims[1..], Raise(pools, p.key, need)).Ok?
      && var rest := ReserveAll(tb, job, at, claims[1..], Raise(pools, p.key, need)).value;
         ReserveAll(tb, job, at, claims, pools) == Ok(([share] + rest.0, rest.1))
  {
    p := PlaceAtFits(tb, job, claims[0], at, pools);
    share := PoolShare(claims[0].region, p.key.pool, claims[0].cus);
  }

  lemma {:induction false} SellKeepsSound(tb: Tables, job: Job, at: Timestamp, claims: seq<Claim>, b: Book)
    requires Sound(tb, b) && ReserveAll(tb, job, at, claims, b.pools).Ok?
    ensures SoundWith(tb, job.tier, at, b.live, ReserveAll(tb, job, at, claims, b.pools).value)
    decreases |claims|
  {
    if claims == [] {
      assert b.live + SalesOf([], job.tier, at) == b.live;
    } else {
      var p, share := ReserveAllHead(tb, job, at, claims, b.pools);
      var sale := Sale(share, job.tier, at);
      SellOneKeepsSound(tb, b, p, sale);
      var b1 := Book(Raise(b.pools, p.key, SaleCost(tb, sale)), b.live + [sale]);
      SellKeepsSound(tb, job, at, claims[1..], b1);
      SoundWithFirst(tb, job.tier, at, b.live, share, ReserveAll(tb, job, at, claims[1..], b1.pools).value);
    }
  }

  /** Sound with `r`'s shares sold and its counters. */
  predicate SoundWith(tb: Tables, tier: Tier, at: Timestamp, live: seq<Sale>, r: (seq<PoolShare>, seq<PoolView>)) {
    Sound(tb, Book(r.1, live + SalesOf(r.0, tier, at)))
  }

  lemma SoundWithFirst(tb: Tables, tier: Tier, at: Timestamp, live: seq<Sale>, share: PoolShare, rest: (seq<PoolShare>, seq<PoolView>))
    requires SoundWith(tb, tier, at, live + [Sale(share, tier, at)], rest)
    ensures SoundWith(tb, tier, at, live, ([share] + rest.0, rest.1))
  {
    assert live + [Sale(share, tier, at)] + SalesOf(rest.0, tier, at) == live + SalesOf([share] + rest.0, tier, at);
  }

  lemma CostSplits(c: nat, a: nat, b: nat)
    requires b <= a
    ensures c * (a - b) == c * a - c * b && c * b <= c * a
  {
  }

  /** Shrinking one sale lowers every prefix that contains it by what was given back. */
  lemma {:induction false} SoldInAfterGiveBack(tb: Tables, live: seq<Sale>, i: nat, s: Sale, back: nat, n: nat, key: Key)
    requires i < |live| && n <= |live| && s.share.Where() == live[i].share.Where()
    requires SaleCost(tb, s) + back == SaleCost(tb, live[i])
    ensures SoldIn(tb, live[i := s], n, key) + (if i < n && s.share.Where() == key then back else 0) == SoldIn(tb, live, n, key)
  {
    if n > 0 {
      SoldInAfterGiveBack(tb, live, i, s, back, n - 1, key);
    }
  }

  lemma ReleaseOne(tb: Tables, tier: Tier, s: PoolShare, pools: seq<PoolView>)
    ensures ReleaseAll(tb, tier, [s], pools) == Lower(pools, s.Where(), CostOrZero(tb, tier, s))
  {
    assert [s][1..] == [];
  }

  /** One pool, when sale `i` becomes `s` and gives back `back`. */
  lemma GiveBackPoolSound(tb: Tables, live: seq<Sale>, i: nat, s: Sale, back: nat, q: PoolView)
    requires PoolSound(tb, live, q) && i < |live|
    requires s.share.Where() == live[i].share.Where() && s.start == live[i].start
    requires SaleCost(tb, s) + back == SaleCost(tb, live[i])
    ensures PoolSound(tb, live[i := s],
              if q.key == s.share.Where() then q.(reserved := SaturatingSub(q.reserved, back)) else q)
  {
    forall n | 0 <= n <= |live|
      ensures SoldIn(tb, live[i := s], n, q.key) + (if i < n && s.share.Where() == q.key then back else 0)
              == SoldIn(tb, live, n, q.key)
    {
      SoldInAfterGiveBack(tb, live, i, s, back, n, q.key);
    }
    ShrunkPoolSound(tb, live, live[i := s], q, q.(reserved := SoldIn(tb, live[i := s], |live|, q.key)));
  }

  lemma GiveBackKeepsSound(tb: Tables, b: Book, i: nat, cus: nat)
    requires Sound(tb, b)
    ensures Sound(tb, Traded(tb, b, GiveBack(i, cus)))
  {
    if i < |b.live| && cus <= b.live[i].share.cus {
      var sale := b.live[i];
      var back := CostOrZero(tb, sale.tier, sale.share.(cus := cus));
      var s := sale.(share := sale.share.(cus := sale.share.cus - cus));
      assert SaleCost(tb, s) + back == SaleCost(tb, sale) by {
        match PerCu(tb.costs, sale.share.Where(), sale.tier)
        case None =>
        case Some(c) => CostSplits(c, sale.share.cus, cus);
      }
      ReleaseOne(tb, sale.tier, sale.share.(cus := cus), b.pools);
      forall k | 0 <= k < |b.pools|
        ensures PoolSound(tb, b.live[i := s], Lower(b.pools, s.share.Where(), back)[k])
      {
        GiveBackPoolSound(tb, b.live, i, s, back, b.pools[k]);
      }
    }
  }

  lemma ShrunkPoolSound(tb: Tables, live: seq<Sale>, less: seq<Sale>, q: PoolView, r: PoolView)
    requires PoolSound(tb, live, q) && |less| == |live| && r == q.(reserved := SoldIn(tb, less, |less|, q.key))
    requires forall j :: 0 <= j < |live| ==>
      less[j].share.Where() == live[j].share.Where() && less[j].start == live[j].start && SaleCost(tb, less[j]) <= SaleCost(tb, live[j])
    requires forall n :: 0 <= n <= |live| ==> SoldIn(tb, less, n, q.key) <= SoldIn(tb, live, n, q.key)
    ensures PoolSound(tb, less, r)
  {
    forall j | 0 <= j < |less| && less[j].share.Where() == r.key && SaleCost(tb, less[j]) > 0
      ensures SoldIn(tb, less, j + 1, r.key) <= SizeAt(tb, r, less[j].start)
    {
      assert SoldIn(tb, less, j + 1, q.key) <= SoldIn(tb, live, j + 1, q.key);
    }
  }

  lemma {:induction false} TradingKeepsSound(tb: Tables, b: Book, trades: seq<Trade>)
    requires Sound(tb, b)
    ensures Sound(tb, Trading(tb, b, trades))
    decreases |trades|
  {
    if trades != [] {
      match trades[0] {
        case Sell(job, claims, at) =>
          if ReserveAll(tb, job, at, claims, b.pools).Ok? {
            SellKeepsSound(tb, job, at, claims, b);
          }
        case GiveBack(i, cus) => GiveBackKeepsSound(tb, b, i, cus);
      }
      TradingKeepsSound(tb, Traded(tb, b, trades[0]), trades[1..]);
    }
  }

  lemma {:induction false} SoundStartedFits(tb: Tables, b: Book, k: nat, n: nat, t: Timestamp)
    requires Sound(tb, b) && k < |b.pools| && n <= |b.live|
    ensures StartedIn(tb, b.live, n, b.pools[k].key, t) <= SizeAt(tb, b.pools[k], t)
    ensures StartedIn(tb, b.live, n, b.pools[k].key, t) <= SoldIn(tb, b.live, n, b.pools[k].key)
  {
    var p := b.pools[k];
    assert PoolSound(tb, b.live, p);
    if n > 0 {
      SoundStartedFits(tb, b, k, n - 1, t);
      var s := b.live[n - 1];
      if s.share.Where() == p.key && s.start <= t && SaleCost(tb, s) > 0 {
        AddedByMonotone(tb.schedule, p.key, s.start, t);
      }
    }
  }

  /** After any run of sales and returns on an empty planner, at every moment the sales that
      have started fit every pool, though each was checked only at its own start. */
  lemma NeverOversold(tb: Tables, pools: seq<PoolView>, trades: seq<Trade>, k: nat, t: Timestamp)
    requires DistinctKeys(pools) && forall i :: 0 <= i < |pools| ==> pools[i].reserved == 0
    requires k < |pools|
    ensures var b := Trading(tb, Book(pools, []), trades);
      StartedIn(tb, b.live, |b.live|, pools[k].key, t) <= SizeAt(tb, pools[k], t)
  {
    var b := Trading(tb, Book(pools, []), trades);
    TradingKeepsSound(tb, Book(pools, []), trades);
    TradingKeepsPools(tb, Book(pools, []), trades);
    assert pools[k].(reserved := 0) == b.pools[k].(reserved := 0);
    SoundStartedFits(tb, b, k, |b.live|, t);
  }

  /** Trading never changes what pools there are or their configured size. */
  lemma {:induction false} TradingKeepsPools(tb: Tables, b: Book, trades: seq<Trade>)
    ensures SamePools(b.pools, Trading(tb, b, trades).pools)
    decreases |trades|
  {
    if trades != [] {
      match trades[0] {
        case Sell(job, claims, at) =>
          if ReserveAll(tb, job, at, claims, b.pools).Ok? {
            ReserveAllAdds(tb, job, at, claims, b.pools);
          }
        case GiveBack(i, cus) =>
          if i < |b.live| && cus <= b.live[i].share.cus {
            ReleaseAllKeepsPools(tb, b.live[i].tier, [b.live[i].share.(cus := cus)], b.pools);
          }
      }
      assert SamePools(b.pools, Traded(tb, b, trades[0]).pools);
      TradingKeepsPools(tb, Traded(tb, b, trades[0]), trades[1..]);
      SamePoolsTransitive(b.pools, Traded(tb, b, trades[0]).pools, Trading(tb, b, trades).pools);
    }
  }

  lemma {:induction false} ReleaseAllKeepsPools(tb: Tables, tier: Tier, shares: seq<PoolShare>, pools: seq<PoolView>)
    ensures SamePools(pools, ReleaseAll(tb, tier, shares, pools))
    decreases |shares|
  {
    if shares != [] {
      var lowered := Lower(pools, shares[0].Where(), CostOrZero(tb, tier, shares[0]));
      ReleaseAllKeepsPools(tb, tier, shares[1..], lowered);
      SamePoolsTransitive(pools, lowered, ReleaseAll(tb, tier, shares, pools));
    }
  }

  lemma SamePoolsTransitive(a: seq<PoolView>, b: seq<PoolView>, c: seq<PoolView>)
    requires SamePools(a, b) && SamePools(b, c)
    ensures SamePools(a, c)
  {
    forall i | 0 <= i < |a|
      ensures a[i].(reserved := 0) == c[i].(reserved := 0)
    {
      assert a[i].(reserved := 0) == b[i].(reserved := 0);
    }
  }
}
