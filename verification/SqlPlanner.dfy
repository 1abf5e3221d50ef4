/**
 The planner over a shared database (crates/pt-control-plane/src/sql_planner.rs), proved to
 sell exactly what the in-memory planner sells although it visits claims in region order,
 reads one region at a time and guards each sale with a conditional update.
 */
module SqlPlanner {
  import opened Prelude
  import opened Capacity
  import opened Planner
  import opened MemoryPlanner
  import opened Sorting

  datatype Row = Row(capacity: nat, reserved: nat)

  type Rows = map<Key, Row>

  /** Every configured pool has its row. */
  predicate AllRows(config: seq<PoolView>, rows: Rows) {
    forall p :: p in config ==> p.key in rows
  }

  function WithRow(p: PoolView, row: Row): PoolView {
    p.(capacity := row.capacity, reserved := row.reserved)
  }

  /** The configured pools with the database's counts, in configuration order. */
  function Counted(config: seq<PoolView>, rows: Rows): (r: seq<PoolView>)
    requires AllRows(config, rows)
    ensures |r| == |config|
  {
    seq(|config|, i requires 0 <= i < |config| => WithRow(config[i], rows[config[i].key]))
  }

  /** One region's configured pools of one model that have rows. */
  function Views(config: seq<PoolView>, rows: Rows, region: string, model: string): seq<PoolView> {
    if config == [] then []
    else
      (if config[0].key.region == region && config[0].model == model && config[0].key in rows
       then [WithRow(config[0], rows[config[0].key])] else [])
      + Views(config[1..], rows, region, model)
  }

  /** Reading one region loses no candidate. */
  lemma {:induction false} ViewsCandidates(config: seq<PoolView>, rows: Rows, claim: Claim, model: string)
    requires AllRows(config, rows)
    ensures Candidates(claim, model, Views(config, rows, claim.region, model)) == Candidates(claim, model, Counted(config, rows))
  {
    if config != [] {
      var rest := Views(config[1..], rows, claim.region, model);
      ViewsCandidates(config[1..], rows, claim, model);
      assert Counted(config, rows)[1..] == Counted(config[1..], rows);
      var p := WithRow(config[0], rows[config[0].key]);
      if config[0].key.region == claim.region && config[0].model == model {
        assert ([p] + rest)[1..] == rest;
      } else {
        assert Views(config, rows, claim.region, model) == rest;
      }
    }
  }

  lemma PlaceOnViews(tb: Tables, job: Job, claim: Claim, at: Timestamp, config: seq<PoolView>, rows: Rows)
    requires AllRows(config, rows)
    ensures PlaceAt(tb, job, claim, at, Views(config, rows, claim.region, job.model)) == PlaceAt(tb, job, claim, at, Counted(config, rows))
  {
    ViewsCandidates(config, rows, claim, job.model);
  }

  /** `reserved + need <= capacity + added`, then raise; `None` when no row is affected. */
  function GuardedRaise(rows: Rows, key: Key, need: nat, added: nat): Option<Rows> {
    if key in rows && rows[key].reserved + need <= rows[key].capacity + added
    then Some(rows[key := rows[key].(reserved := rows[key].reserved + need)])
    else None
  }

  /** The guard refuses a placement exactly when it needs nothing from an oversold pool. */
  lemma GuardRefusesIff(tb: Tables, job: Job, claim: Claim, at: Timestamp, config: seq<PoolView>, rows: Rows)
    requires AllRows(config, rows) && DistinctKeys(config) && PlaceAt(tb, job, claim, at, Counted(config, rows)).Ok?
    ensures var (pool, need) := PlaceAt(tb, job, claim, at, Counted(config, rows)).value;
      var key := Key(claim.region, pool);
      && key in rows
      && (GuardedRaise(rows, key, need, AddedBy(tb.schedule, key, at)).None?
          <==> need == 0 && rows[key].reserved > rows[key].capacity + AddedBy(tb.schedule, key, at))
      && (need == 0 <==> claim.cus == 0)
  {
    var p := PlaceAtFits(tb, job, claim, at, Counted(config, rows));
    var i :| 0 <= i < |config| && Counted(config, rows)[i] == p;
    assert config[i] in config;
    var c := PerCu(tb.costs, p.key, job.tier).value;
    if claim.cus > 0 {
      MulMonotone(c, 1, claim.cus);
    }
  }

  /** A guarded sale that goes through is the in-memory one. */
  lemma GuardedRaiseCounts(config: seq<PoolView>, rows: Rows, key: Key, need: nat, added: nat)
    requires AllRows(config, rows) && GuardedRaise(rows, key, need, added).Some?
    ensures var rows' := GuardedRaise(rows, key, need, added).value;
      AllRows(config, rows') && Counted(config, rows') == Raise(Counted(config, rows), key, need)
  {
    var rows' := GuardedRaise(rows, key, need, added).value;
    forall i | 0 <= i < |config|
      ensures Counted(config, rows')[i] == Raise(Counted(config, rows), key, need)[i]
    {
      assert config[i] in config;
    }
  }

  // ---------------------------------------------------------------------------
  // The order of claims does not matter across regions
  // ---------------------------------------------------------------------------

  datatype Tagged = Tagged(index: nat, claim: Claim)

  /** Pools so far, and where each claim placed so far went. */
  datatype Sold = Sold(pools: seq<PoolView>, at: map<nat, PoolShare>)

  function SellOne(tb: Tables, job: Job, at: Timestamp, t: Tagged, s: Sold): Option<Sold> {
    match PlaceAt(tb, job, t.claim, at, s.pools)
    case Err(_) => None
    case Ok((pool, need)) =>
      Some(Sold(Raise(s.pools, Key(t.claim.region, pool), need), s.at[t.index := PoolShare(t.claim.region, pool, t.claim.cus)]))
  }

  function SellAll(tb: Tables, job: Job, at: Timestamp, ts: seq<Tagged>, s: Sold): Option<Sold>
    decreases |ts|
  {
    if ts == [] then Some(s)
    else
      match SellOne(tb, job, at, ts[0], s)
      case None => None
      case Some(s') => SellAll(tb, job, at, ts[1..], s')
  }

  lemma SellAllStep(tb: Tables, job: Job, at: Timestamp, ts: seq<Tagged>, i: nat, s: Sold)
    requires i < |ts|
    ensures var one := SellOne(tb, job, at, ts[i], s);
      SellAll(tb, job, at, ts[i..], s) == if one.None? then None else SellAll(tb, job, at, ts[i + 1..], one.value)
  {
    hide SellOne;
    assert ts[i..][0] == ts[i] && ts[i..][1..] == ts[i + 1..];
  }

  lemma SellAllNone(tb: Tables, job: Job, at: Timestamp, ts: seq<Tagged>, s: Sold)
    ensures SellAll(tb, job, at, ts[|ts|..], s) == Some(s)
  {
    assert ts[|ts|..] == [];
  }

  /** A sale in one region leaves every other region's candidates as they were. */
  lemma {:induction false} OtherRegionUntouched(claim: Claim, model: string, pools: seq<PoolView>, key: Key, need: nat)
    requires key.region != claim.region
    ensures Candidates(claim, model, Raise(pools, key, need)) == Candidates(claim, model, pools)
  {
    if pools != [] {
      OtherRegionUntouched(claim, model, pools[1..], key, need);
      assert Raise(pools, key, need)[1..] == Raise(pools[1..], key, need);
    }
  }

  lemma PlaceIgnoresOtherRegions(tb: Tables, job: Job, claim: Claim, at: Timestamp, pools: seq<PoolView>, key: Key, need: nat)
    requires key.region != claim.region
    ensures PlaceAt(tb, job, claim, at, Raise(pools, key, need)) == PlaceAt(tb, job, claim, at, pools)
  {
    OtherRegionUntouched(claim, job.model, pools, key, need);
  }

  lemma RaisesCommute(pools: seq<PoolView>, a: Key, m: nat, b: Key, n: nat)
    ensures Raise(Raise(pools, a, m), b, n) == Raise(Raise(pools, b, n), a, m)
  {
  }

  /** Two neighbouring claims in different regions can be sold in either order. */
  lemma SalesCommute(tb: Tables, job: Job, at: Timestamp, x: Tagged, y: Tagged, s: Sold)
    requires x.claim.region != y.claim.region && x.index != y.index
    ensures SellAll(tb, job, at, [x, y], s) == SellAll(tb, job, at, [y, x], s)
  {
    hide Place;
    var px := PlaceAt(tb, job, x.claim, at, s.pools);
    var py := PlaceAt(tb, job, y.claim, at, s.pools);
    assert [x, y][1..] == [y] && [y, x][1..] == [x] && [y][1..] == [] && [x][1..] == [];
    if px.Ok? {
      PlaceIgnoresOtherRegions(tb, job, y.claim, at, s.pools, Key(x.claim.region, px.value.0), px.value.1);
    }
    if py.Ok? {
      PlaceIgnoresOtherRegions(tb, job, x.claim, at, s.pools, Key(y.claim.region, py.value.0), py.value.1);
    }
    if px.Ok? && py.Ok? {
      var kx, ky := Key(x.claim.region, px.value.0), Key(y.claim.region, py.value.0);
      RaisesCommute(s.pools, kx, px.value.1, ky, py.value.1);
      var sx, sy := PoolShare(x.claim.region, px.value.0, x.claim.cus), PoolShare(y.claim.region, py.value.0, y.claim.cus);
      assert s.at[x.index := sx][y.index := sy] == s.at[y.index := sy][x.index := sx];
    }
  }

  lemma {:induction false} SellAllAppend(tb: Tables, job: Job, at: Timestamp, a: seq<Tagged>, b: seq<Tagged>, s: Sold)
    ensures var first := SellAll(tb, job, at, a, s);
      SellAll(tb, job, at, a + b, s) == if first.None? then None else SellAll(tb, job, at, b, first.value)
    decreases |a|
  {
    hide SellOne;
    if a == [] {
      assert a + b == b;
    } else {
      assert (a + b)[1..] == a[1..] + b;
      var one := SellOne(tb, job, at, a[0], s);
      if one.Some? {
        SellAllAppend(tb, job, at, a[1..], b, one.value);
      }
    }
  }

  predicate ByRegion(a: Tagged, b: Tagged) {
    NameLeq(a.claim.region, b.claim.region)
  }

  predicate DistinctTags(ts: seq<Tagged>) {
    forall i, j :: 0 <= i < j < |ts| ==> ts[i].index != ts[j].index
  }

  /** Inserting a claim among sorted ones sells the same as selling it first. */
  lemma {:induction false} InsertSells(tb: Tables, job: Job, at: Timestamp, x: Tagged, ts: seq<Tagged>, s: Sold)
    requires forall t :: t in ts ==> t.index != x.index
    ensures SellAll(tb, job, at, Insert(ByRegion, x, ts), s) == SellAll(tb, job, at, [x] + ts, s)
    decreases |ts|
  {
    hide SellOne;
    if ts != [] && !ByRegion(x, ts[0]) {
      var y := ts[0];
      NameLeqTotal(x.claim.region, x.claim.region);
      var rest := Insert(ByRegion, x, ts[1..]);
      assert [x] + ts == [x, y] + ts[1..];
      assert [y] + ([x] + ts[1..]) == [y, x] + ts[1..];
      SalesCommute(tb, job, at, x, y, s);
      SellAllAppend(tb, job, at, [x, y], ts[1..], s);
      SellAllAppend(tb, job, at, [y, x], ts[1..], s);
      SellAllAppend(tb, job, at, [y], [x] + ts[1..], s);
      SellAllAppend(tb, job, at, [y], rest, s);
      var one := SellAll(tb, job, at, [y], s);
      if one.Some? {
        InsertSells(tb, job, at, x, ts[1..], one.value);
      }
    }
  }

  /** Selling in region order sells the same, to the same pools. */
  lemma {:induction false} SortSells(tb: Tables, job: Job, at: Timestamp, ts: seq<Tagged>, s: Sold)
    requires DistinctTags(ts)
    ensures SellAll(tb, job, at, Sort(ByRegion, ts), s) == SellAll(tb, job, at, ts, s)
    decreases |ts|
  {
    hide SellOne;
    if ts != [] {
      var x, sorted := ts[0], Sort(ByRegion, ts[1..]);
      SortContents(ByRegion, ts[1..]);
      forall t | t in sorted
        ensures t.index != x.index
      {
        assert t in ts[1..];
      }
      InsertSells(tb, job, at, x, sorted, s);
      assert ([x] + sorted)[1..] == sorted;
      var one := SellOne(tb, job, at, x, s);
      if one.Some? {
        SortSells(tb, job, at, ts[1..], one.value);
      }
    }
  }

  // ---------------------------------------------------------------------------
  // The same as the in-memory planner
  // ---------------------------------------------------------------------------

  function Tags(claims: seq<Claim>, from: nat): (r: seq<Tagged>)
    ensures |r| == |claims| && forall i :: 0 <= i < |r| ==> r[i] == Tagged(from + i, claims[i])
  {
    if claims == [] then [] else [Tagged(from, claims[0])] + Tags(claims[1..], from + 1)
  }

  /** `placed`, by claim number from `from`, over `base`. */
  function ByNumber(base: map<nat, PoolShare>, placed: seq<PoolShare>, from: nat): map<nat, PoolShare>
    decreases |placed|
  {
    if placed == [] then base else ByNumber(base[from := placed[0]], placed[1..], from + 1)
  }

  lemma {:induction false} SellAllReserves(tb: Tables, job: Job, at: Timestamp, claims: seq<Claim>, from: nat, s: Sold)
    ensures var spec := ReserveAll(tb, job, at, claims, s.pools);
      SellAll(tb, job, at, Tags(claims, from), s)
      == if spec.Err? then None else Some(Sold(spec.value.1, ByNumber(s.at, spec.value.0, from)))
    decreases |claims|
  {
    hide Place;
    if claims != [] {
      var one := SellOne(tb, job, at, Tagged(from, claims[0]), s);
      assert Tags(claims, from)[1..] == Tags(claims[1..], from + 1);
      if one.Some? {
        SellAllReserves(tb, job, at, claims[1..], from + 1, one.value);
        var spec := ReserveAll(tb, job, at, claims, s.pools);
        if spec.Ok? {
          var rest := ReserveAll(tb, job, at, claims[1..], one.value.pools).value.0;
          assert spec.value.0[1..] == rest;
        }
      }
    }
  }

  lemma {:induction false} ByNumberKeeps(base: map<nat, PoolShare>, placed: seq<PoolShare>, from: nat, n: nat)
    requires n in base && n < from
    ensures n in ByNumber(base, placed, from) && ByNumber(base, placed, from)[n] == base[n]
    decreases |placed|
  {
    if placed != [] {
      ByNumberKeeps(base[from := placed[0]], placed[1..], from + 1, n);
    }
  }

  lemma {:induction false} ByNumberAt(base: map<nat, PoolShare>, placed: seq<PoolShare>, from: nat, i: nat)
    requires i < |placed|
    ensures from + i in ByNumber(base, placed, from) && ByNumber(base, placed, from)[from + i] == placed[i]
    decreases |placed|
  {
    var next := base[from := placed[0]];
    if i == 0 {
      ByNumberKeeps(next, placed[1..], from + 1, from);
    } else {
      ByNumberAt(next, placed[1..], from + 1, i - 1);
    }
  }

  /** `placed.into_iter().flatten()`. */
  function Flatten(at: map<nat, PoolShare>, n: nat): seq<PoolShare> {
    if n == 0 then [] else Flatten(at, n - 1) + (if n - 1 in at then [at[n - 1]] else [])
  }

  lemma {:induction false} FlattenIs(at: map<nat, PoolShare>, placed: seq<PoolShare>)
    requires forall i :: 0 <= i < |placed| ==> i in at && at[i] == placed[i]
    ensures Flatten(at, |placed|) == placed
  {
    if placed != [] {
      var n := |placed| - 1;
      FlattenIs(at, placed[..n]);
      assert placed == placed[..n] + [placed[n]];
    }
  }

  /** Collected by number and read back in order. */
  lemma NumberedFlatten(placed: seq<PoolShare>)
    ensures Flatten(ByNumber(map[], placed, 0), |placed|) == placed
  {
    forall i | 0 <= i < |placed|
      ensures i in ByNumber(map[], placed, 0) && ByNumber(map[], placed, 0)[i] == placed[i]
    {
      ByNumberAt(map[], placed, 0, i);
    }
    FlattenIs(ByNumber(map[], placed, 0), placed);
  }

  // ---------------------------------------------------------------------------
  // Releases
  // ---------------------------------------------------------------------------

  predicate ByPool(a: PoolShare, b: PoolShare) {
    if a.region == b.region then NameLeq(a.pool, b.pool) else NameLeq(a.region, b.region)
  }

  lemma CutsCommute(pools: seq<PoolView>, a: Key, m: nat, b: Key, n: nat)
    ensures Lower(Lower(pools, a, m), b, n) == Lower(Lower(pools, b, n), a, m)
  {
  }

  lemma {:induction false} InsertReleases(tb: Tables, tier: Tier, x: PoolShare, shares: seq<PoolShare>, pools: seq<PoolView>)
    ensures ReleaseAll(tb, tier, Insert(ByPool, x, shares), pools) == ReleaseAll(tb, tier, [x] + shares, pools)
    decreases |shares|
  {
    assert ([x] + shares)[1..] == shares;
    if shares != [] && !ByPool(x, shares[0]) {
      var y := shares[0];
      var cx, cy := CostOrZero(tb, tier, x), CostOrZero(tb, tier, y);
      CutsCommute(pools, x.Where(), cx, y.Where(), cy);
      InsertReleases(tb, tier, x, shares[1..], Lower(pools, y.Where(), cy));
      assert ([x] + shares[1..])[1..] == shares[1..];
      assert ([y] + Insert(ByPool, x, shares[1..]))[1..] == Insert(ByPool, x, shares[1..]);
    }
  }

  /** Releasing in pool order releases the same. */
  lemma {:induction false} SortReleases(tb: Tables, tier: Tier, shares: seq<PoolShare>, pools: seq<PoolView>)
    ensures ReleaseAll(tb, tier, Sort(ByPool, shares), pools) == ReleaseAll(tb, tier, shares, pools)
    decreases |shares|
  {
    if shares != [] {
      var x, sorted := shares[0], Sort(ByPool, shares[1..]);
      InsertReleases(tb, tier, x, sorted, pools);
      assert ([x] + sorted)[1..] == sorted;
      SortReleases(tb, tier, shares[1..], Lower(pools, x.Where(), CostOrZero(tb, tier, x)));
    }
  }

  /** `reserved = GREATEST(reserved - need, 0)`, where the row exists. */
  function CutRow(rows: Rows, key: Key, need: nat): Rows {
    if key in rows then rows[key := rows[key].(reserved := SaturatingSub(rows[key].reserved, need))] else rows
  }

  lemma CutRowCounts(config: seq<PoolView>, rows: Rows, key: Key, need: nat)
    requires AllRows(config, rows)
    ensures AllRows(config, CutRow(rows, key, need))
    ensures Counted(config, CutRow(rows, key, need)) == Lower(Counted(config, rows), key, need)
  {
    forall i | 0 <= i < |config|
      ensures Counted(config, CutRow(rows, key, need))[i] == Lower(Counted(config, rows), key, need)[i]
    {
      assert config[i] in config;
    }
  }

  /** One claim of the transaction is one sale of the in-memory planner. */
  lemma GuardedSale(tb: Tables, job: Job, at: Timestamp, t: Tagged, config: seq<PoolView>, rows: Rows, placed: map<nat, PoolShare>)
    requires DistinctKeys(config) && AllRows(config, rows)
    ensures var where := PlaceAt(tb, job, t.claim, at, Views(config, rows, t.claim.region, job.model));
      var sold := SellOne(tb, job, at, t, Sold(Counted(config, rows), placed));
      if where.Err? then sold.None?
      else
        var key := Key(t.claim.region, where.value.0);
        var done := GuardedRaise(rows, key, where.value.1, AddedBy(tb.schedule, key, at));
        if done.None? then t.claim.cus == 0 && Oversold(tb, rows, key, at)
        else
          && AllRows(config, done.value)
          && sold == Some(Sold(Counted(config, done.value), placed[t.index := PoolShare(t.claim.region, where.value.0, t.claim.cus)]))
  {
    PlaceOnViews(tb, job, t.claim, at, config, rows);
    hide Place;
    var where := PlaceAt(tb, job, t.claim, at, Counted(config, rows));
    if where.Ok? {
      var key := Key(t.claim.region, where.value.0);
      GuardRefusesIff(tb, job, t.claim, at, config, rows);
      if GuardedRaise(rows, key, where.value.1, AddedBy(tb.schedule, key, at)).Some? {
        GuardedRaiseCounts(config, rows, key, where.value.1, AddedBy(tb.schedule, key, at));
      }
    }
  }

  /** More of a pool is reserved than it holds at `at`. */
  predicate Oversold(tb: Tables, rows: Rows, key: Key, at: Timestamp) {
    key in rows && rows[key].reserved > rows[key].capacity + AddedBy(tb.schedule, key, at)
  }

  /** Where a transaction has got to: it has only raised counters, of pools that had room. */
  predicate Raised(tb: Tables, at: Timestamp, rows: Rows, tx: Rows) {
    forall key :: key in rows ==>
      && key in tx && tx[key].capacity == rows[key].capacity && rows[key].reserved <= tx[key].reserved
      && (tx[key] != rows[key] ==> !Oversold(tb, tx, key, at))
  }

  lemma GuardedRaiseRaises(tb: Tables, at: Timestamp, rows: Rows, tx: Rows, key: Key, need: nat)
    requires Raised(tb, at, rows, tx) && GuardedRaise(tx, key, need, AddedBy(tb.schedule, key, at)).Some?
    ensures Raised(tb, at, rows, GuardedRaise(tx, key, need, AddedBy(tb.schedule, key, at)).value)
  {
    var tx' := GuardedRaise(tx, key, need, AddedBy(tb.schedule, key, at)).value;
    forall k | k in rows
      ensures k in tx' && tx'[k].capacity == rows[k].capacity && rows[k].reserved <= tx'[k].reserved
      ensures tx'[k] != rows[k] ==> !Oversold(tb, tx', k, at)
    {
      assert k != key ==> tx'[k] == tx[k];
    }
  }

  /** A claim that found no room, on counters the transaction had got to, and why. */
  ghost predicate RefusedAt(tb: Tables, job: Job, claims: seq<Claim>, at: Timestamp, config: seq<PoolView>, rows: Rows, tx: Rows, c: Claim, e: PlanError) {
    && c in claims && AllRows(config, tx) && Raised(tb, at, rows, tx) && Refuses(tb, job, c, Counted(config, tx), e)
    && forall p :: p in Counted(config, tx) ==> !HasRoom(tb, job, c, p, at)
  }

  datatype SqlError = Plan(error: PlanError) | Changed(pool: string)

  class SqlCounters {
    const tb: Tables
    const config: seq<PoolView>
    var rows: Rows

    constructor (tb: Tables, config: seq<PoolView>, rows: Rows)
      requires DistinctKeys(config) && AllRows(config, rows)
      ensures this.tb == tb && this.config == config && this.rows == rows
    {
      this.tb, this.config, this.rows := tb, config, rows;
    }

    ghost predicate Valid()
      reads this
    {
      DistinctKeys(config) && AllRows(config, rows)
    }

    /** One transaction: claims in region order, each placed on its region's locked rows and
        sold with a guarded update; any failure rolls everything back. */
    method Reserve(job: Job, claims: seq<Claim>, at: Timestamp) returns (r: Result<seq<PoolShare>, SqlError>)
      requires Valid()
      modifies this`rows
      ensures Valid()
      ensures var spec := ReserveAll(tb, job, at, claims, Counted(config, old(rows)));
        && (r.Ok? ==> spec.Ok? && r == Ok(spec.value.0) && Counted(config, rows) == spec.value.1)
        && (r.Err? ==> rows == old(rows) && (r.error.Plan? ==> spec.Err?))
      ensures r.Err? && r.error.Changed? ==> exists c :: c in claims && c.cus == 0 && Oversold(tb, old(rows), Key(c.region, r.error.pool), at)
      ensures r.Err? && r.error.Plan? ==> exists c, tx :: RefusedAt(tb, job, claims, at, config, old(rows), tx, c, r.error.error)
      ensures r.Ok? ==> Raised(tb, at, old(rows), rows)
    {
      hide Place, SellOne, PlaceAt, SellAll, ReserveAll, ByNumber, Refuses, HasRoom;
      var order := Sort(ByRegion, Tags(claims, 0));
      var tx := rows;
      var placed: map<nat, PoolShare> := map[];
      ghost var begin := Sold(Counted(config, rows), map[]);
      ghost var goal := SellAll(tb, job, at, order, begin);
      SortSells(tb, job, at, Tags(claims, 0), begin);
      SellAllReserves(tb, job, at, claims, 0, begin);
      SortContents(ByRegion, Tags(claims, 0));
      assert order[0..] == order;
      for i := 0 to |order|
        invariant rows == old(rows) && AllRows(config, tx) && Raised(tb, at, rows, tx)
        invariant tx.Keys == rows.Keys
        invariant goal == SellAll(tb, job, at, order[i..], Sold(Counted(config, tx), placed))
      {
        var c := order[i].claim;
        assert order[i] in order && order[i] in Tags(claims, 0);
        assert c in claims;
        SellAllStep(tb, job, at, order, i, Sold(Counted(config, tx), placed));
        var views := Views(config, tx, c.region, job.model);
        GuardedSale(tb, job, at, order[i], config, tx, placed);
        var where := Counters.PlaceOne(tb, job, c, at, views);
        if where.Err? {
          PlaceOnViews(tb, job, c, at, config, tx);
          PlaceAtIs(tb, job, c, at, Counted(config, tx));
          assert RefusedAt(tb, job, claims, at, config, rows, tx, c, where.error);
          return Err(Plan(where.error));
        }
        var (pool, need) := where.value;
        var added := AddedBy(tb.schedule, Key(c.region, pool), at);
        var done := GuardedRaise(tx, Key(c.region, pool), need, added);
        if done.None? {
          assert Oversold(tb, rows, Key(c.region, pool), at);
          return Err(Changed(pool));
        }
        GuardedRaiseRaises(tb, at, rows, tx, Key(c.region, pool), need);
        tx := done.value;
        placed := placed[order[i].index := PoolShare(c.region, pool, c.cus)];
      }
      SellAllNone(tb, job, at, order, Sold(Counted(config, tx), placed));
      ghost var spec := ReserveAll(tb, job, at, claims, begin.pools).value;
      ReserveAllAdds(tb, job, at, claims, begin.pools);
      NumberedFlatten(spec.0);
      rows := tx;
      r := Ok(Flatten(placed, |claims|));
    }

    method Release(tier: Tier, shares: seq<PoolShare>)
      requires Valid()
      modifies this`rows
      ensures Valid() && Counted(config, rows) == ReleaseAll(tb, tier, shares, Counted(config, old(rows)))
    {
      var ordered := Sort(ByPool, shares);
      var tx := rows;
      SortReleases(tb, tier, shares, Counted(config, rows));
      ghost var goal := ReleaseAll(tb, tier, ordered, Counted(config, rows));
      assert ordered[0..] == ordered;
      for i := 0 to |ordered|
        invariant rows == old(rows) && AllRows(config, tx)
        invariant goal == ReleaseAll(tb, tier, ordered[i..], Counted(config, tx))
      {
        var s := ordered[i];
        assert ordered[i..][0] == s && ordered[i..][1..] == ordered[i + 1..];
        CutRowCounts(config, tx, s.Where(), CostOrZero(tb, tier, s));
        tx := CutRow(tx, s.Where(), CostOrZero(tb, tier, s));
      }
      rows := tx;
    }
  }
}
