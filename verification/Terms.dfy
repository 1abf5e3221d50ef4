/**
 What happens to a reservation when its term is over (`renew` and `run_lifecycle`,
 crates/pt-control-plane/src/service.rs): as its effect, and what it keeps.
 */
module Terms {
  import opened Prelude
  import opened Capacity
  import opened Planner
  import opened MemoryPlanner
  import opened Holdings
  import opened Moves
  import opened Changes
  import F = Failover

  // ---------------------------------------------------------------------------
  // Renewals and turns, as their effect
  // ---------------------------------------------------------------------------

  /** A reservation in mid-change, its shape kept, on pools that serve it. */
  ghost predicate Going(conf: Conf, pt0: Pt, pt: Pt, ops: seq<PlanOp>, trail: Trail, pools: seq<PoolView>) {
    OnTrack(conf, pt0, pt, ops, trail, pools) && pt.ceiling == pt0.ceiling && Healthy(conf, pt, pools)
  }

  lemma SameHoldingGoing(conf: Conf, pt0: Pt, a: Pt, b: Pt, ops: seq<PlanOp>, trail: Trail, pools: seq<PoolView>)
    requires Going(conf, pt0, a, ops, trail, pools) && SameHolding(a, b) && a.ceiling == b.ceiling && ValidPt(b)
    ensures Going(conf, pt0, b, ops, trail, pools)
  {
    SameHoldingOnTrack(conf, pt0, a, b, a.ceiling, ops, trail, pools);
  }

  /** `claims` fit from the next term once `pt` has given up all it holds. */
  predicate SwapFits(conf: Conf, pt: Pt, job: Job, claims: seq<Claim>, pools: seq<PoolView>) {
    ReserveAll(conf.tb, job, pt.termEnd, claims, ReleaseAll(conf.tb, pt.tier, Pooled(conf, pt), pools)).Ok?
  }

  /** All that `pt` holds swapped for `claims` from the next term, as its effect: what was
      placed, if they fit, and the counters. What does not fit is put back if that fits. */
  function SwapOut(conf: Conf, pt: Pt, job: Job, claims: seq<Claim>, pools: seq<PoolView>): (Option<seq<PoolShare>>, seq<PoolView>) {
    var gone := Pooled(conf, pt);
    var b := ReleaseAll(conf.tb, pt.tier, gone, pools);
    match ReserveAll(conf.tb, job, pt.termEnd, claims, b)
    case Ok((placed, after)) => (Some(placed), after)
    case Err(_) => (None, UndoOne(conf.tb, pt.model, pt.ceiling, Released(pt.tier, gone), b))
  }

  function RegionClaims(conf: Conf, pt: Pt, regions: seq<F.RegionShare>): seq<Claim> {
    ClaimsFor(conf, pt, HeldShares(WithRegions(conf, pt, regions)))
  }

  /** The split kept for the next term taken afresh, if it fits. */
  function RenewedRegions(conf: Conf, pt: Pt, regions: seq<F.RegionShare>, pools: seq<PoolView>): (Pt, seq<PoolView>) {
    var out := SwapOut(conf, pt, Job(pt.model, pt.tier, pt.ceiling), RegionClaims(conf, pt, regions), pools);
    (if out.0.Some? then Record(WithRegions(conf, pt, regions), out.0.value) else pt, out.1)
  }

  /** The tier kept for the next term taken on the same pools, if it fits. */
  function RenewedTier(conf: Conf, pt: Pt, tier: Tier, pools: seq<PoolView>): (Pt, seq<PoolView>) {
    var out := SwapOut(conf, pt, Job(pt.model, tier, pt.ceiling), AsClaims(Pooled(conf, pt)), pools);
    (if out.0.Some? then pt.(tier := tier) else pt, out.1)
  }

  predicate WantsRegions(pt: Pt) {
    pt.pending.Some? && pt.pending.value.regions.Some? && pt.pending.value.regions.value != pt.regions
  }

  predicate WantsTier(pt: Pt) {
    pt.pending.Some? && pt.pending.value.tier.Some? && pt.pending.value.tier.value != pt.tier
  }

  /** A renewal, as its effect: first the split kept for it, then the tier, then the term. */
  function Renewed(conf: Conf, pt: Pt, nextEnd: Timestamp, pools: seq<PoolView>): (Pt, seq<PoolView>) {
    var first := if WantsRegions(pt) then RenewedRegions(conf, pt.(pending := None), pt.pending.value.regions.value, pools)
                 else (pt.(pending := None), pools);
    var second := if WantsTier(pt) then RenewedTier(conf, first.0, pt.pending.value.tier.value, first.1) else first;
    (second.0.(termStart := pt.termEnd, termEnd := nextEnd), second.1)
  }

  /** A term that is over renews, or ends the reservation. */
  predicate Renews(pt: Pt) {
    pt.state == Active && pt.autoRenew
  }

  predicate Due(pt: Pt, now: Timestamp) {
    (pt.state == Active || pt.state == PendingCancellation) && now >= pt.termEnd
  }

  function Started(pt: Pt, now: Timestamp): Pt {
    if pt.state == Scheduled && now >= pt.termStart then pt.(state := Active) else pt
  }

  function TurnedOver(conf: Conf, pt: Pt, nextEnd: Timestamp, pools: seq<PoolView>): (Pt, seq<PoolView>) {
    if Renews(pt) then Renewed(conf, pt, nextEnd, pools)
    else (pt.(state := Ended, pending := None), ReleaseAll(conf.tb, pt.tier, Pooled(conf, pt), pools))
  }

  lemma RenewedKeeps(conf: Conf, pt: Pt, nextEnd: Timestamp, pools: seq<PoolView>)
    ensures var r := Renewed(conf, pt, nextEnd, pools).0;
      && r.state == pt.state && r.autoRenew == pt.autoRenew && r.pending == None
      && r.termStart == pt.termEnd && r.termEnd == nextEnd && r.ceiling == pt.ceiling && r.model == pt.model
  {
    hide SwapOut;
    if WantsRegions(pt) {
      var p, regions := pt.(pending := None), pt.pending.value.regions.value;
      var out := SwapOut(conf, p, Job(pt.model, pt.tier, pt.ceiling), RegionClaims(conf, p, regions), pools);
      if out.0.Some? {
        RecordKeeps(WithRegions(conf, p, regions), out.0.value);
      }
    }
  }

  /** All that has fallen due by `now`, term by term, as its effect. */
  function AllTurns(conf: Conf, pt: Pt, now: Timestamp, nextEnd: Timestamp -> Timestamp, pools: seq<PoolView>): (Pt, seq<PoolView>)
    requires forall t: Timestamp :: t <= now ==> nextEnd(t) > t
    decreases IsLive(pt.state), now - pt.termEnd
  {
    if !Due(pt, now) then (pt, pools)
    else
      RenewedKeeps(conf, pt, nextEnd(pt.termEnd), pools);
      var next := TurnedOver(conf, pt, nextEnd(pt.termEnd), pools);
      AllTurns(conf, next.0, now, nextEnd, next.1)
  }

  /** The end of the term that `now` falls in, from a term that ends at `end` on. */
  function EndAfter(end: Timestamp, now: Timestamp, nextEnd: Timestamp -> Timestamp): (r: Timestamp)
    requires forall t: Timestamp :: t <= now ==> nextEnd(t) > t
    ensures now < r
    decreases now - end
  {
    if now < end then end else EndAfter(nextEnd(end), now, nextEnd)
  }

  /** What every run of turns comes to: nothing is left due; a reservation that renews is in
      the term `now` falls in, and one that does not has ended. */
  lemma {:induction false} TurnsReach(conf: Conf, pt: Pt, now: Timestamp, nextEnd: Timestamp -> Timestamp, pools: seq<PoolView>)
    requires forall t: Timestamp :: t <= now ==> nextEnd(t) > t
    ensures var r := AllTurns(conf, pt, now, nextEnd, pools).0;
      && !Due(r, now) && r.ceiling == pt.ceiling && r.model == pt.model
      && (!Due(pt, now) ==> r == pt)
      && (Renews(pt) ==> r.state == Active && r.termEnd == EndAfter(pt.termEnd, now, nextEnd))
      && (Due(pt, now) && !Renews(pt) ==> r == pt.(state := Ended, pending := None))
    decreases IsLive(pt.state), now - pt.termEnd
  {
    if Due(pt, now) {
      var next := TurnedOver(conf, pt, nextEnd(pt.termEnd), pools);
      RenewedKeeps(conf, pt, nextEnd(pt.termEnd), pools);
      hide Renewed;
      TurnsReach(conf, next.0, now, nextEnd, next.1);
    }
  }

  /** The outcome of swapping all that `pt` holds for `claims`: done and logged, or nothing. */
  ghost predicate Swapped(conf: Conf, pt0: Pt, pt: Pt, job: Job, claims: seq<Claim>, r: Result<seq<PoolShare>, PlanError>,
                          ops: seq<PlanOp>, trail: Trail, a: seq<PoolView>, b: seq<PoolView>)
  {
    && Logged(conf.tb, trail, ops, b) && LogServed(conf.tb, pt0.model, pt0.ceiling, trail) && SamePools(a, b)
    && if r.Err? then a == b
       else
         && Exchanged(conf.tb, pt.tier, Pooled(conf, pt), job.tier, r.value, a, b)
         && |r.value| == |claims| && (forall i :: 0 <= i < |claims| ==> Answers(claims[i], r.value[i]))
         && AllServed(conf.tb, job, r.value, b) && WithinFinal(conf.tb, job.tier, r.value, b)
  }

  lemma SwappedLog(conf: Conf, pt0: Pt, pt: Pt, job: Job, claims: seq<Claim>, at: Timestamp, ops: seq<PlanOp>, trail: Trail, a: seq<PoolView>)
    requires Going(conf, pt0, pt, ops, trail, a) && DistinctKeys(a)
    requires ReserveAll(conf.tb, job, at, claims, ReleaseAll(conf.tb, pt.tier, Pooled(conf, pt), a)).Ok?
    ensures var b := ReleaseAll(conf.tb, pt.tier, Pooled(conf, pt), a);
      var r := ReserveAll(conf.tb, job, at, claims, b).value;
      Swapped(conf, pt0, pt, job, claims, Ok(r.0), ops + [Released(pt.tier, Pooled(conf, pt)), Reserved(job.tier, r.0)],
              Then(Then(trail, Released(pt.tier, Pooled(conf, pt)), b), Reserved(job.tier, r.0), r.1), a, r.1)
  {
    var gone := Pooled(conf, pt);
    var b := ReleaseAll(conf.tb, pt.tier, gone, a);
    var r := ReserveAll(conf.tb, job, at, claims, b).value;
    ExchangedCovers(conf.tb, pt0.tier, Pooled(conf, pt0), pt.tier, gone, trail.First(), a);
    ReleaseKeepsWithin(conf.tb, pt.tier, gone, a);
    ReserveKeepsWithin(conf.tb, job, at, claims, b);
    ReserveAllAdds(conf.tb, job, at, claims, b);
    ReservedWithin(conf.tb, job, at, claims, b);
    hide ReserveAll, ReleaseAll, Pooled, AllServedAt, LogServed, Own, Covers;
    PlacedWithin(conf.tb, job, at, r.0, b, r.1);
    SwapLogged(conf, pt0, pt, Reserved(job.tier, r.0), ops, trail, b, r.1);
    AllServedSame(conf.tb, job, r.0, b, r.1);
    SamePoolsTransitive(a, b, r.1);
    ReleasedThenReserved(conf.tb, pt.tier, gone, job.tier, r.0, a, b, r.1);
  }

  /** Pools just reserved on are not oversold. */
  lemma PlacedWithin(tb: Tables, job: Job, at: Timestamp, placed: seq<PoolShare>, a: seq<PoolView>, b: seq<PoolView>)
    requires SamePools(a, b)
    requires forall k :: 0 <= k < |a| && CostOf(tb, job.tier, placed, a[k].key) > 0 ==> b[k].reserved <= SizeAt(tb, a[k], at)
    ensures WithinFinal(tb, job.tier, placed, b)
  {
    SamePoolsKeys(a, b);
    forall k | 0 <= k < |b| && CostOf(tb, job.tier, placed, b[k].key) > 0
      ensures b[k].reserved <= SizeAt(tb, b[k], TIMESTAMP_MAX)
    {
      assert a[k].key == b[k].key;
      AddedByMonotone(tb.schedule, a[k].key, at, TIMESTAMP_MAX);
    }
  }

  lemma SwapLogged(conf: Conf, pt0: Pt, pt: Pt, next: PlanOp, ops: seq<PlanOp>, trail: Trail, b: seq<PoolView>, c: seq<PoolView>)
    requires next.Reserved? && OnTrack(conf, pt0, pt, ops, trail, trail.pools)
    requires AllServedAt(conf, pt, pt0.ceiling, HeldShares(pt), trail.pools)
    requires OpStep(conf.tb, trail.pools, Released(pt.tier, Pooled(conf, pt)), b) && OpStep(conf.tb, b, next, c)
    requires DistinctKeys(b) && DistinctKeys(c) && StaysWithin(conf.tb, trail.pools, b) && StaysWithin(conf.tb, b, c)
    ensures var trail' := Then(Then(trail, Released(pt.tier, Pooled(conf, pt)), b), next, c);
      && Logged(conf.tb, trail', ops + [Released(pt.tier, Pooled(conf, pt)), next], c)
      && LogServed(conf.tb, pt0.model, pt0.ceiling, trail')
  {
    hide LogServed, Pooled, AllServedAt, OpStep, DistinctKeys, StaysWithin, Carried, Own;
    var gone := Released(pt.tier, Pooled(conf, pt));
    var t1 := Then(trail, gone, b);
    DropCarried(conf, pt, trail, b);
    TakeCarried(conf, pt, trail.pools, t1, next.tier, next.shares, c);
    CarriedTransitive(conf, pt, trail.pools, trail, t1, Then(t1, next, c));
    StillServed(conf, pt0, pt, ops, trail, trail.pools, Then(t1, next, c));
    assert Logged(conf.tb, t1, ops + [gone], b);
    assert ops + [gone] + [next] == ops + [gone, next];
  }

  /** Putting back all that `pt` held, right after releasing it, goes through exactly when no
      pool `pt` draws on is oversold, and then restores the counters; otherwise every one of
      its pools is left without it. */
  lemma PutBack(conf: Conf, pt: Pt, a: seq<PoolView>)
    requires Healthy(conf, pt, a) && DistinctKeys(a) && Covers(conf.tb, pt.tier, Pooled(conf, pt), a)
    ensures var b := ReleaseAll(conf.tb, pt.tier, Pooled(conf, pt), a);
      var r := ReserveAll(conf.tb, Job(pt.model, pt.tier, pt.ceiling), TIMESTAMP_MAX, AsClaims(Pooled(conf, pt)), b);
      && (r.Ok? <==> Own(conf, pt, a)) && (r.Ok? ==> r.value.1 == a)
      && UndoOne(conf.tb, pt.model, pt.ceiling, Released(pt.tier, Pooled(conf, pt)), b) == (if Own(conf, pt, a) then a else b)
      && Exchanged(conf.tb, pt.tier, Pooled(conf, pt), pt.tier, [], a, b)
  {
    var gone, job := Pooled(conf, pt), Job(pt.model, pt.tier, pt.ceiling);
    var b := ReleaseAll(conf.tb, pt.tier, gone, a);
    ReleaseAllRemoves(conf.tb, pt.tier, gone, a);
    ReleaseKeepsWithin(conf.tb, pt.tier, gone, a);
    ServedOnPools(conf, pt, pt.ceiling, HeldShares(pt), a);
    hide ReserveAll, ReleaseAll, AllServed, WithinFinal, AsClaims, Covers;
    UndoReleaseIff(conf.tb, job, gone, a, b);
  }

  /** A swap that does not fit, of a reservation drawing on an oversold pool, leaves that
      pool's counter lower, whatever comes later. */
  lemma LostForGood(tb: Tables, tier: Tier, gone: seq<PoolShare>, a: seq<PoolView>, b: seq<PoolView>, c: seq<PoolView>)
    requires !WithinFinal(tb, tier, gone, a) && Exchanged(tb, tier, gone, tier, [], a, b) && StaysWithin(tb, b, c)
    ensures exists k :: 0 <= k < |a| && k < |c| && CostOf(tb, tier, gone, a[k].key) > 0 && c[k].reserved < a[k].reserved
    ensures c != a
  {
    SamePoolsKeys(a, b);
    SamePoolsKeys(b, c);
    var k :| 0 <= k < |a| && CostOf(tb, tier, gone, a[k].key) > 0 && a[k].reserved > SizeAt(tb, a[k], TIMESTAMP_MAX);
    assert b[k].reserved < a[k].reserved;
    assert SizeAt(tb, c[k], TIMESTAMP_MAX) == SizeAt(tb, a[k], TIMESTAMP_MAX) by {
      assert a[k].key == b[k].key == c[k].key && a[k].capacity == b[k].capacity == c[k].capacity;
    }
    assert c[k].reserved < a[k].reserved by {
      if b[k].reserved < c[k].reserved {
        assert Within(tb, c[k]);
      }
    }
  }

  /** The first change a renewal tries fits, if it tries any. */
  predicate ChangeFits(conf: Conf, pt: Pt, pools: seq<PoolView>) {
    var p := pt.(pending := None);
    if WantsRegions(pt) then
      SwapFits(conf, p, Job(pt.model, pt.tier, pt.ceiling), RegionClaims(conf, p, pt.pending.value.regions.value), pools)
    else
      WantsTier(pt) ==> SwapFits(conf, p, Job(pt.model, pt.pending.value.tier.value, pt.ceiling), AsClaims(Pooled(conf, p)), pools)
  }

  /** A renewal loses nothing: the reservation draws on no oversold pool, or the first change
      kept for it fits, if there is one. */
  predicate RenewSafe(conf: Conf, pt: Pt, pools: seq<PoolView>) {
    Own(conf, pt, pools) || ChangeFits(conf, pt, pools)
  }

  /** All turns due at `now` lose nothing. */
  predicate TurnsSafe(conf: Conf, pt: Pt, now: Timestamp, pools: seq<PoolView>) {
    Due(pt, now) && Renews(pt) ==> RenewSafe(conf, pt, pools)
  }

  /** A reservation in the middle of its lifecycle turn: live, or ended with all given back. */
  ghost predicate Turn(conf: Conf, pt0: Pt, pt: Pt, ops: seq<PlanOp>, trail: Trail, pools: seq<PoolView>) {
    && (IsLive(pt.state) ==> Going(conf, pt0, pt, ops, trail, pools))
    && Logged(conf.tb, trail, ops, pools) && LogServed(conf.tb, pt0.model, pt0.ceiling, trail)
    && Exchanged(conf.tb, pt0.tier, Pooled(conf, pt0), pt.tier, HeldBy(conf, pt), trail.First(), pools)
  }

  lemma FirstTurn(conf: Conf, pt0: Pt, pt: Pt, pools: seq<PoolView>)
    requires ValidPt(pt0) && ValidPt(pt) && SameHolding(pt0, pt) && pt.ceiling == pt0.ceiling && IsLive(pt.state)
    requires DistinctKeys(pools) && Covers(conf.tb, pt0.tier, Pooled(conf, pt0), pools) && Healthy(conf, pt0, pools)
    ensures Turn(conf, pt0, pt, [], Start(pools), pools)
  {
    UntouchedOnTrack(conf, pt0, pt, pools);
  }

  /** Everything given up at once, and logged. */
  lemma EndedLog(conf: Conf, pt0: Pt, pt: Pt, ops: seq<PlanOp>, trail: Trail, a: seq<PoolView>)
    requires OnTrack(conf, pt0, pt, ops, trail, a) && AllServedAt(conf, pt, pt0.ceiling, HeldShares(pt), a)
    ensures var b := ReleaseAll(conf.tb, pt.tier, Pooled(conf, pt), a);
      var trail' := Then(trail, Released(pt.tier, Pooled(conf, pt)), b);
      && Logged(conf.tb, trail', ops + [Released(pt.tier, Pooled(conf, pt))], b) && LogServed(conf.tb, pt0.model, pt0.ceiling, trail')
      && Exchanged(conf.tb, pt0.tier, Pooled(conf, pt0), pt.tier, [], trail.First(), b)
  {
    hide ReleaseAll, Pooled, HeldShares, LogServed, Own, Covers, Carried, StaysWithin, Exchanged, OpStep, AllServedAt;
    var gone := Pooled(conf, pt);
    var b := ReleaseAll(conf.tb, pt.tier, gone, a);
    ExchangedCovers(conf.tb, pt0.tier, Pooled(conf, pt0), pt.tier, gone, trail.First(), a);
    ReleaseKeepsWithin(conf.tb, pt.tier, gone, a);
    DropCarried(conf, pt, trail, b);
    StillServed(conf, pt0, pt, ops, trail, a, Then(trail, Released(pt.tier, gone), b));
    ExchangedTransitive(conf.tb, pt0.tier, Pooled(conf, pt0), pt.tier, gone, pt.tier, [], trail.First(), a, b);
  }

  lemma EndedTurn(conf: Conf, pt0: Pt, pt: Pt, ops: seq<PlanOp>, trail: Trail, a: seq<PoolView>)
    requires Turn(conf, pt0, pt, ops, trail, a) && IsLive(pt.state)
    ensures var b := ReleaseAll(conf.tb, pt.tier, Pooled(conf, pt), a);
      Turn(conf, pt0, pt.(state := Ended, pending := None), ops + [Released(pt.tier, Pooled(conf, pt))],
           Then(trail, Released(pt.tier, Pooled(conf, pt)), b), b)
  {
    hide OnTrack, Logged, Exchanged, AllServedAt, ReleaseAll, Pooled;
    EndedLog(conf, pt0, pt, ops, trail, a);
  }

  // ---------------------------------------------------------------------------
  // What turns never undo
  // ---------------------------------------------------------------------------

  lemma SwapOutStaysWithin(conf: Conf, pt: Pt, job: Job, claims: seq<Claim>, pools: seq<PoolView>)
    requires DistinctKeys(pools)
    ensures var out, b := SwapOut(conf, pt, job, claims, pools), ReleaseAll(conf.tb, pt.tier, Pooled(conf, pt), pools);
      && StaysWithin(conf.tb, b, out.1) && StaysWithin(conf.tb, pools, out.1) && DistinctKeys(out.1)
      && (out.0.Some? ==> Added(conf.tb, job.tier, out.0.value, b, out.1))
  {
    var gone := Pooled(conf, pt);
    var b := ReleaseAll(conf.tb, pt.tier, gone, pools);
    ReleaseStaysWithin(conf.tb, pt.tier, gone, pools);
    SamePoolsKeys(pools, b);
    hide ReleaseAll, Pooled, StaysWithin;
    StaysWithinItself(conf.tb, b);
    var out := SwapOut(conf, pt, job, claims, pools);
    if ReserveAll(conf.tb, job, pt.termEnd, claims, b).Ok? {
      ReserveKeepsWithin(conf.tb, job, pt.termEnd, claims, b);
    } else {
      var back := Job(pt.model, pt.tier, pt.ceiling);
      if ReserveAll(conf.tb, back, TIMESTAMP_MAX, AsClaims(gone), b).Ok? {
        ReserveKeepsWithin(conf.tb, back, TIMESTAMP_MAX, AsClaims(gone), b);
      }
    }
    StaysWithinTransitive(conf.tb, pools, b, out.1);
  }

  /** A renewal oversells no pool; and one that tries a change never gets back what an
      oversold pool had. */
  lemma RenewedStaysWithin(conf: Conf, pt: Pt, nextEnd: Timestamp, pools: seq<PoolView>)
    requires DistinctKeys(pools)
    ensures var r := Renewed(conf, pt, nextEnd, pools).1;
      && StaysWithin(conf.tb, pools, r) && DistinctKeys(r)
      && (WantsRegions(pt) || WantsTier(pt) ==> StaysWithin(conf.tb, ReleaseAll(conf.tb, pt.tier, Pooled(conf, pt), pools), r))
  {
    hide SwapOut, ReleaseAll, StaysWithin, Record, HeldShares, OnPools, DistinctKeys;
    var p := pt.(pending := None);
    PooledSame(conf, pt, p);
    StaysWithinItself(conf.tb, pools);
    var first := (p, pools);
    if WantsRegions(pt) {
      SwapOutStaysWithin(conf, p, Job(pt.model, pt.tier, pt.ceiling), RegionClaims(conf, p, pt.pending.value.regions.value), pools);
      first := RenewedRegions(conf, p, pt.pending.value.regions.value, pools);
    }
    if WantsTier(pt) {
      var tier := pt.pending.value.tier.value;
      SwapOutStaysWithin(conf, first.0, Job(first.0.model, tier, first.0.ceiling), AsClaims(Pooled(conf, first.0)), first.1);
      var second := RenewedTier(conf, first.0, tier, first.1);
      StaysWithinTransitive(conf.tb, pools, first.1, second.1);
      if WantsRegions(pt) {
        StaysWithinTransitive(conf.tb, ReleaseAll(conf.tb, pt.tier, Pooled(conf, pt), pools), first.1, second.1);
      }
    }
  }

  lemma PooledSame(conf: Conf, a: Pt, b: Pt)
    requires SameHolding(a, b)
    ensures Pooled(conf, a) == Pooled(conf, b) && HeldShares(a) == HeldShares(b)
  {
    OnPoolsSame(conf, a, b, HeldShares(a));
  }

  lemma OwnSame(conf: Conf, a: Pt, b: Pt, pools: seq<PoolView>)
    requires SameHolding(a, b)
    ensures Own(conf, a, pools) <==> Own(conf, b, pools)
  {
    PooledSame(conf, a, b);
  }

  lemma GoingTurn(conf: Conf, pt0: Pt, pt: Pt, ops: seq<PlanOp>, trail: Trail, pools: seq<PoolView>)
    requires Going(conf, pt0, pt, ops, trail, pools) && IsLive(pt.state)
    ensures Turn(conf, pt0, pt, ops, trail, pools)
  {
  }

  lemma TurnKeeps(conf: Conf, pt: Pt, nextEnd: Timestamp, pools: seq<PoolView>)
    ensures var r := TurnedOver(conf, pt, nextEnd, pools).0;
      && r.pending == None && r.ceiling == pt.ceiling && r.model == pt.model
      && if Renews(pt) then r.state == Active && r.autoRenew && r.termEnd == nextEnd else r.state == Ended
  {
    RenewedKeeps(conf, pt, nextEnd, pools);
  }

  lemma NothingWanted(conf: Conf, pt: Pt, pools: seq<PoolView>)
    requires pt.pending == None
    ensures RenewSafe(conf, pt, pools)
  {
  }

  lemma StartedSame(conf: Conf, pt: Pt, now: Timestamp, pools: seq<PoolView>)
    ensures var p := Started(pt, now);
      && SameHolding(pt, p) && p.ceiling == pt.ceiling && Pooled(conf, p) == Pooled(conf, pt)
      && (Own(conf, p, pools) <==> Own(conf, pt, pools)) && (Healthy(conf, pt, pools) ==> Healthy(conf, p, pools))
      && (WantsRegions(p) <==> WantsRegions(pt)) && (WantsTier(p) <==> WantsTier(pt)) && (IsLive(pt.state) ==> IsLive(p.state))
  {
    var p := Started(pt, now);
    PooledSame(conf, pt, p);
    if Healthy(conf, pt, pools) {
      ServedSameHolding(conf, pt, p, pt.ceiling, pools);
    }
  }

  lemma StartedValid(conf: Conf, pt: Pt, now: Timestamp)
    ensures ValidPt(pt) ==> ValidPt(Started(pt, now))
    ensures Backed(conf, pt) ==> Backed(conf, Started(pt, now))
  {
  }

  lemma AllTurnsStep(conf: Conf, pt: Pt, now: Timestamp, nextEnd: Timestamp -> Timestamp, pools: seq<PoolView>)
    requires forall t: Timestamp :: t <= now ==> nextEnd(t) > t
    requires Due(pt, now)
    ensures var next := TurnedOver(conf, pt, nextEnd(pt.termEnd), pools);
      AllTurns(conf, pt, now, nextEnd, pools) == AllTurns(conf, next.0, now, nextEnd, next.1)
  {
  }

  lemma NotDue(conf: Conf, pt: Pt, now: Timestamp, nextEnd: Timestamp -> Timestamp, pools: seq<PoolView>)
    requires forall t: Timestamp :: t <= now ==> nextEnd(t) > t
    requires !Due(pt, now)
    ensures AllTurns(conf, pt, now, nextEnd, pools) == (pt, pools) && TurnsSafe(conf, pt, now, pools) && Quiet(pt, now)
  {
  }

  /** A lifecycle turn that was not saved, undone. */
  lemma TurnUndone(conf: Conf, pt0: Pt, pt: Pt, ops: seq<PlanOp>, trail: Trail, pools: seq<PoolView>)
    requires Turn(conf, pt0, pt, ops, trail, pools)
    ensures Own(conf, pt0, trail.First()) ==> UndoAll(conf.tb, pt0.model, pt0.ceiling, ops, pools) == trail.First()
  {
    UndoIff(conf.tb, pt0.model, pt0.ceiling, trail, ops, pools);
    if Own(conf, pt0, trail.First()) {
      TrailStaysWithin(conf.tb, trail);
      OwnSpared(conf.tb, pt0.tier, Pooled(conf, pt0), pt.tier, HeldBy(conf, pt), trail.First(), pools);
    }
  }

  lemma TurnExchanged(conf: Conf, pt0: Pt, pt: Pt, ops: seq<PlanOp>, trail: Trail, pools: seq<PoolView>)
    requires Turn(conf, pt0, pt, ops, trail, pools)
    ensures Exchanged(conf.tb, pt0.tier, Pooled(conf, pt0), pt.tier, HeldBy(conf, pt), trail.First(), pools)
    ensures IsLive(pt.state) ==> Healthy(conf, pt, pools)
    ensures SamePools(trail.First(), pools)
  {
  }

  lemma OwnIsSafe(conf: Conf, pt: Pt, now: Timestamp, pools: seq<PoolView>)
    requires Own(conf, pt, pools)
    ensures TurnsSafe(conf, pt, now, pools)
  {
  }

  /** What a reservation drawing on an oversold pool has once released, no later step gets
      back on that pool. */
  lemma NeverBack(conf: Conf, pt: Pt, a: seq<PoolView>, b: seq<PoolView>, c: seq<PoolView>)
    requires !Own(conf, pt, a) && DistinctKeys(a) && Covers(conf.tb, pt.tier, Pooled(conf, pt), a)
    requires StaysWithin(conf.tb, ReleaseAll(conf.tb, pt.tier, Pooled(conf, pt), a), b) && StaysWithin(conf.tb, b, c)
    ensures c != a
  {
    hide ReleaseAll, Pooled, StaysWithin, Covers, WithinFinal, DistinctKeys;
    var gone := Pooled(conf, pt);
    ReleaseKeepsWithin(conf.tb, pt.tier, gone, a);
    StaysWithinTransitive(conf.tb, ReleaseAll(conf.tb, pt.tier, gone, a), b, c);
    LostForGood(conf.tb, pt.tier, gone, a, ReleaseAll(conf.tb, pt.tier, gone, a), c);
  }

  /** By `now` nothing is due, or only renewals that change nothing. */
  predicate Quiet(pt: Pt, now: Timestamp) {
    Due(pt, now) ==> Renews(pt) && !WantsRegions(pt) && !WantsTier(pt)
  }

  /** Where a run of turns from `first` has got to; `turned` says that it has left `first`. */
  ghost predicate Turning(conf: Conf, pt0: Pt, first: Pt, pt: Pt, now: Timestamp, a: seq<PoolView>, pools: seq<PoolView>,
                          ops: seq<PlanOp>, trail: Trail, sound: bool, turned: bool)
  {
    && pt.ceiling == pt0.ceiling && pt.model == pt0.model
    && (sound ==> Turn(conf, pt0, pt, ops, trail, pools) && trail.First() == a)
    && (!turned ==> sound && pt == first && pools == a)
    && (turned ==> Due(first, now) && pt.pending == None && (sound <==> TurnsSafe(conf, first, now, a)))
    && (Quiet(first, now) ==> ops == [] && Quiet(pt, now))
  }

  lemma TurningStarts(conf: Conf, pt0: Pt, first: Pt, now: Timestamp, a: seq<PoolView>)
    requires Turn(conf, pt0, first, [], Start(a), a) && first.ceiling == pt0.ceiling && first.model == pt0.model
    ensures Turning(conf, pt0, first, first, now, a, a, [], Start(a), true, false)
  {
    hide Turn;
  }

  lemma TurningFacts(conf: Conf, pt0: Pt, first: Pt, pt: Pt, now: Timestamp, a: seq<PoolView>, pools: seq<PoolView>,
                     ops: seq<PlanOp>, trail: Trail, sound: bool, turned: bool)
    requires Turning(conf, pt0, first, pt, now, a, pools, ops, trail, sound, turned)
    ensures pt.ceiling == pt0.ceiling && pt.model == pt0.model
    ensures sound ==> Turn(conf, pt0, pt, ops, trail, pools) && trail.First() == a
  {
    hide Turn, TurnsSafe, Quiet;
  }

  lemma TurningStep(conf: Conf, pt0: Pt, first: Pt, pt: Pt, pt': Pt, now: Timestamp, end: Timestamp,
                    a: seq<PoolView>, b: seq<PoolView>, c: seq<PoolView>, ops: seq<PlanOp>, trail: Trail, sound: bool, turned: bool,
                    ops': seq<PlanOp>, trail': Trail, sound': bool)
    requires Turning(conf, pt0, first, pt, now, a, b, ops, trail, sound, turned) && Due(pt, now)
    requires (pt', c) == TurnedOver(conf, pt, end, b)
    requires sound' <==> sound && (Renews(pt) ==> RenewSafe(conf, pt, b))
    requires sound' ==> Turn(conf, pt0, pt', ops', trail', c) && trail'.First() == trail.First()
    requires Renews(pt) && !WantsRegions(pt) && !WantsTier(pt) ==> ops' == ops
    ensures Turning(conf, pt0, first, pt', now, a, c, ops', trail', sound', true)
  {
    hide Turn, RenewSafe, TurnedOver;
    TurnKeeps(conf, pt, end, b);
    if turned {
      NothingWanted(conf, pt, b);
    }
  }

  lemma TurningEnds(conf: Conf, pt0: Pt, first: Pt, pt: Pt, now: Timestamp, a: seq<PoolView>, pools: seq<PoolView>,
                    ops: seq<PlanOp>, trail: Trail, sound: bool, turned: bool)
    requires Turning(conf, pt0, first, pt, now, a, pools, ops, trail, sound, turned) && !Due(pt, now)
    ensures sound <==> TurnsSafe(conf, first, now, a)
    ensures turned <==> Due(first, now)
    ensures Quiet(first, now) ==> ops == []
    ensures pt.ceiling == pt0.ceiling && pt.model == pt0.model
    ensures sound ==> Turn(conf, pt0, pt, ops, trail, pools) && trail.First() == a
  {
    hide Turn, RenewSafe;
  }

  lemma {:induction false} TurnsStayWithin(conf: Conf, pt: Pt, now: Timestamp, nextEnd: Timestamp -> Timestamp, pools: seq<PoolView>)
    requires forall t: Timestamp :: t <= now ==> nextEnd(t) > t
    requires DistinctKeys(pools)
    ensures var r := AllTurns(conf, pt, now, nextEnd, pools).1;
      && StaysWithin(conf.tb, pools, r) && DistinctKeys(r)
      && (!Quiet(pt, now) ==> StaysWithin(conf.tb, ReleaseAll(conf.tb, pt.tier, Pooled(conf, pt), pools), r))
    decreases IsLive(pt.state), now - pt.termEnd
  {
    hide Renewed, StaysWithin, Pooled, DistinctKeys, ReleaseAll;
    StaysWithinItself(conf.tb, pools);
    if Due(pt, now) {
      var next := TurnedOver(conf, pt, nextEnd(pt.termEnd), pools);
      RenewedKeeps(conf, pt, nextEnd(pt.termEnd), pools);
      var b := ReleaseAll(conf.tb, pt.tier, Pooled(conf, pt), pools);
      if Renews(pt) {
        RenewedStaysWithin(conf, pt, nextEnd(pt.termEnd), pools);
      } else {
        ReleaseStaysWithin(conf.tb, pt.tier, Pooled(conf, pt), pools);
        StaysWithinItself(conf.tb, b);
        ReleaseDistinct(conf.tb, pt.tier, Pooled(conf, pt), pools);
      }
      TurnsStayWithin(conf, next.0, now, nextEnd, next.1);
      var r := AllTurns(conf, pt, now, nextEnd, pools).1;
      StaysWithinTransitive(conf.tb, pools, next.1, r);
      if !Quiet(pt, now) {
        StaysWithinTransitive(conf.tb, b, next.1, r);
      }
    }
  }

  /** Turns with nothing to change leave every counter alone, and the same holding. */
  lemma {:induction false} QuietTurns(conf: Conf, pt: Pt, now: Timestamp, nextEnd: Timestamp -> Timestamp, pools: seq<PoolView>)
    requires forall t: Timestamp :: t <= now ==> nextEnd(t) > t
    requires Quiet(pt, now)
    ensures var r := AllTurns(conf, pt, now, nextEnd, pools);
      r.1 == pools && SameHolding(r.0, pt) && r.0.state == pt.state && r.0.ceiling == pt.ceiling
    decreases IsLive(pt.state), now - pt.termEnd
  {
    if Due(pt, now) {
      var next := TurnedOver(conf, pt, nextEnd(pt.termEnd), pools);
      RenewedKeeps(conf, pt, nextEnd(pt.termEnd), pools);
      QuietTurns(conf, next.0, now, nextEnd, next.1);
    }
  }

  /** Both a split and a tier are kept for the next term, the split did not fit and nothing
      was put back: the tier then fits on counters that were lowered twice. */
  predicate TierFits(conf: Conf, pt: Pt, pools: seq<PoolView>) {
    && WantsRegions(pt) && WantsTier(pt)
    && SwapFits(conf, pt, Job(pt.model, pt.pending.value.tier.value, pt.ceiling), AsClaims(Pooled(conf, pt)),
                ReleaseAll(conf.tb, pt.tier, Pooled(conf, pt), pools))
  }

  /** And nobody else is on the pools the reservation is on, so lowering them twice was the
      same as once: its counters come out right after all. */
  predicate Rescued(conf: Conf, pt: Pt, pools: seq<PoolView>) {
    && TierFits(conf, pt, pools)
    && forall k :: 0 <= k < |pools| && CostOf(conf.tb, pt.tier, Pooled(conf, pt), pools[k].key) > 0 ==>
         pools[k].reserved == CostOf(conf.tb, pt.tier, Pooled(conf, pt), pools[k].key)
  }

  /** A reservation drawing on an oversold pool, where the first change kept for the next term
      does not fit: the renewal leaves it all it had, unless a tier kept as well then fits. */
  lemma LostRenewal(conf: Conf, pt: Pt, nextEnd: Timestamp, pools: seq<PoolView>)
    requires Healthy(conf, pt, pools) && DistinctKeys(pools) && Covers(conf.tb, pt.tier, Pooled(conf, pt), pools)
    requires !RenewSafe(conf, pt, pools)
    ensures var r := Renewed(conf, pt, nextEnd, pools);
      if TierFits(conf, pt, pools) then
        var b := ReleaseAll(conf.tb, pt.tier, Pooled(conf, pt), ReleaseAll(conf.tb, pt.tier, Pooled(conf, pt), pools));
        var tier := pt.pending.value.tier.value;
        && SameHolding(r.0, pt.(tier := tier))
        && r.1 == ReserveAll(conf.tb, Job(pt.model, tier, pt.ceiling), pt.termEnd, AsClaims(Pooled(conf, pt)), b).value.1
      else SameHolding(r.0, pt)
  {
    hide ReserveAll, ReleaseAll, HeldShares, OnPools, Covers, AllServedAt, WithinFinal, UndoOne;
    PooledSame(conf, pt, pt.(pending := None));
    PutBack(conf, pt, pools);
  }

  lemma LostRun(conf: Conf, pt: Pt, now: Timestamp, nextEnd: Timestamp -> Timestamp, pools: seq<PoolView>)
    requires forall t: Timestamp :: t <= now ==> nextEnd(t) > t
    requires Healthy(conf, pt, pools) && DistinctKeys(pools) && Covers(conf.tb, pt.tier, Pooled(conf, pt), pools)
    requires !TurnsSafe(conf, pt, now, pools)
    ensures var r, next := AllTurns(conf, pt, now, nextEnd, pools), Renewed(conf, pt, nextEnd(pt.termEnd), pools);
      SameHolding(r.0, next.0) && r.0.state == pt.state && r.0.ceiling == pt.ceiling && r.1 == next.1
    ensures !WithinFinal(conf.tb, pt.tier, Pooled(conf, pt), pools) && IsLive(pt.state) && !Quiet(pt, now) && !RenewSafe(conf, pt, pools)
  {
    hide Renewed, Healthy, Covers, WithinFinal, Pooled, DistinctKeys, SwapFits;
    var end := nextEnd(pt.termEnd);
    RenewedKeeps(conf, pt, end, pools);
    var next := Renewed(conf, pt, end, pools);
    QuietTurns(conf, next.0, now, nextEnd, next.1);
  }

  /** After such a renewal, and the turns that follow it, some counter is below what the
      store's reservations hold, unless the renewal was rescued; and then all are exact. */
  lemma LostTurns(conf: Conf, store: seq<Pt>, i: nat, pt: Pt, now: Timestamp, nextEnd: Timestamp -> Timestamp, pools: seq<PoolView>)
    requires forall t: Timestamp :: t <= now ==> nextEnd(t) > t
    requires i < |store| && Conserved(conf, store, pools) && SameHolding(store[i], pt) && IsLive(store[i].state)
    requires Healthy(conf, pt, pools) && DistinctKeys(pools) && Covers(conf.tb, pt.tier, Pooled(conf, pt), pools)
    requires !TurnsSafe(conf, pt, now, pools)
    ensures var r := AllTurns(conf, pt, now, nextEnd, pools);
      if Rescued(conf, pt, pools) then Conserved(conf, store[i := Tidy(r.0)], r.1) && Healthy(conf, r.0, r.1) && SamePools(pools, r.1)
      else Short(conf, store[i := Tidy(r.0)], r.1)
  {
    hide Healthy, Covers, Conserved, TurnsSafe, AllTurns, Renewed, WithinFinal, Exchanged, Pooled, DistinctKeys, Tidy, Short, RenewSafe, Quiet, Due;
    hide SameHolding, IsLive, ReleaseAll, ReserveAll, StaysWithin, CostOf, AsClaims, SwapFits, SamePools;
    LostRun(conf, pt, now, nextEnd, pools);
    var r := AllTurns(conf, pt, now, nextEnd, pools);
    var end := nextEnd(pt.termEnd);
    LostRenewal(conf, pt, end, pools);
    if TierFits(conf, pt, pools) {
      SameTwice(r.0, Renewed(conf, pt, end, pools).0, pt.(tier := pt.pending.value.tier.value));
      TierKept(conf, store, i, pt, r.0, pools, r.1);
    } else {
      SameTwice(r.0, Renewed(conf, pt, end, pools).0, pt);
      TurnsStayWithin(conf, pt, now, nextEnd, pools);
      LostIsShort(conf, store, i, pt, r.0, pools, r.1);
    }
  }

  /** The turns of a stored reservation that lose nothing keep the store exact. */
  lemma KeptTurns(conf: Conf, store: seq<Pt>, i: nat, pt: Pt, ops: seq<PlanOp>, trail: Trail, pools: seq<PoolView>)
    requires i < |store| && Conserved(conf, store, trail.First()) && AllHealthy(conf, store, trail.First())
    requires Turn(conf, store[i], pt, ops, trail, pools) && IsLive(store[i].state) && ValidPt(pt) && Backed(conf, pt)
    ensures Conserved(conf, store[i := Tidy(pt)], pools) && AllHealthy(conf, store[i := Tidy(pt)], pools)
  {
    hide Turn, Conserved, Exchanged, Healthy, AllHealthy, Pooled, ValidPt, SamePools;
    TurnExchanged(conf, store[i], pt, ops, trail, pools);
    TidyHealthy(conf, pt, pools);
    ConservedExchange(conf, store, i, Tidy(pt), trail.First(), pools);
    HealthyUpdate(conf, store, i, Tidy(pt), trail.First(), pools);
  }

  /** And the others keep it exact only if they are rescued. */
  lemma RescuedTurns(conf: Conf, store: seq<Pt>, i: nat, pt: Pt, now: Timestamp, nextEnd: Timestamp -> Timestamp, pools: seq<PoolView>)
    requires forall t: Timestamp :: t <= now ==> nextEnd(t) > t
    requires i < |store| && Conserved(conf, store, pools) && AllHealthy(conf, store, pools) && SameHolding(store[i], pt) && IsLive(store[i].state)
    requires Healthy(conf, pt, pools) && DistinctKeys(pools) && Covers(conf.tb, pt.tier, Pooled(conf, pt), pools)
    requires !TurnsSafe(conf, pt, now, pools)
    requires var final := AllTurns(conf, pt, now, nextEnd, pools).0; ValidPt(final) && Backed(conf, final)
    ensures var r := AllTurns(conf, pt, now, nextEnd, pools);
      if Rescued(conf, pt, pools) then Conserved(conf, store[i := Tidy(r.0)], r.1) && AllHealthy(conf, store[i := Tidy(r.0)], r.1)
      else Short(conf, store[i := Tidy(r.0)], r.1)
  {
    hide AllTurns, Rescued, TurnsSafe, Conserved, AllHealthy, Short, Healthy, Covers, Pooled, DistinctKeys, SameHolding, ValidPt, SamePools;
    LostTurns(conf, store, i, pt, now, nextEnd, pools);
    var r := AllTurns(conf, pt, now, nextEnd, pools);
    if Rescued(conf, pt, pools) {
      TidyHealthy(conf, r.0, r.1);
      HealthyUpdate(conf, store, i, Tidy(r.0), pools, r.1);
    }
  }

  lemma SameTwice(a: Pt, b: Pt, c: Pt)
    requires SameHolding(a, b) && SameHolding(b, c)
    ensures SameHolding(a, c)
  {
  }

  lemma LostIsShort(conf: Conf, store: seq<Pt>, i: nat, pt: Pt, final: Pt, a: seq<PoolView>, c: seq<PoolView>)
    requires i < |store| && Conserved(conf, store, a) && SameHolding(store[i], pt) && IsLive(store[i].state)
    requires SameHolding(final, pt) && IsLive(final.state)
    requires DistinctKeys(a) && Covers(conf.tb, pt.tier, Pooled(conf, pt), a) && !WithinFinal(conf.tb, pt.tier, Pooled(conf, pt), a)
    requires StaysWithin(conf.tb, ReleaseAll(conf.tb, pt.tier, Pooled(conf, pt), a), c)
    ensures Short(conf, store[i := Tidy(final)], c)
  {
    var gone := Pooled(conf, pt);
    hide Pooled, Tidy, ReleaseAll, WithinFinal;
    ReleaseKeepsWithin(conf.tb, pt.tier, gone, a);
    var b := ReleaseAll(conf.tb, pt.tier, gone, a);
    LostForGood(conf.tb, pt.tier, gone, a, b, c);
    SamePoolsKeys(a, b);
    SamePoolsKeys(b, c);
    hide StaysWithin, Exchanged, Covers;
    var k :| 0 <= k < |a| && k < |c| && CostOf(conf.tb, pt.tier, gone, a[k].key) > 0 && c[k].reserved < a[k].reserved;
    assert c[k].key == a[k].key;
    SameStoreCost(conf, store, i, pt, final, a[k].key);
  }

  /** What a release leaves of a counter. */
  lemma {:induction false} ReleaseAt(tb: Tables, tier: Tier, shares: seq<PoolShare>, pools: seq<PoolView>, k: nat)
    requires k < |pools|
    ensures SamePools(pools, ReleaseAll(tb, tier, shares, pools))
    ensures ReleaseAll(tb, tier, shares, pools)[k].reserved == SaturatingSub(pools[k].reserved, CostOf(tb, tier, shares, pools[k].key))
    decreases |shares|
  {
    if shares != [] {
      var lower := Lower(pools, shares[0].Where(), CostOrZero(tb, tier, shares[0]));
      ReleaseAt(tb, tier, shares[1..], lower, k);
      SamePoolsTransitive(pools, lower, ReleaseAll(tb, tier, shares[1..], lower));
    }
  }

  /** Named shares reserved: they come back as they were, on pools that serve them. */
  lemma NamedReserved(conf: Conf, pt: Pt, tier: Tier, at: Timestamp, pools: seq<PoolView>)
    requires DistinctKeys(pools) && ReserveAll(conf.tb, Job(pt.model, tier, pt.ceiling), at, AsClaims(Pooled(conf, pt)), pools).Ok?
    ensures var after := ReserveAll(conf.tb, Job(pt.model, tier, pt.ceiling), at, AsClaims(Pooled(conf, pt)), pools).value.1;
      && Added(conf.tb, tier, Pooled(conf, pt), pools, after) && DistinctKeys(after)
      && AllServed(conf.tb, Job(pt.model, tier, pt.ceiling), Pooled(conf, pt), after)
  {
    var job, claims := Job(pt.model, tier, pt.ceiling), AsClaims(Pooled(conf, pt));
    ReserveAllAdds(conf.tb, job, at, claims, pools);
    ReservedServed(conf.tb, job, at, claims, pools);
    var r := ReserveAll(conf.tb, job, at, claims, pools).value;
    hide ReserveAll;
    NamedComeBack(Pooled(conf, pt), r.0);
    SamePoolsKeys(pools, r.1);
    AllServedSame(conf.tb, job, r.0, pools, r.1);
  }

  /** Counters lowered twice and then raised for the new tier: exact where nobody else was on
      the pool, and short elsewhere. */
  lemma TierKept(conf: Conf, store: seq<Pt>, i: nat, pt: Pt, final: Pt, a: seq<PoolView>, c: seq<PoolView>)
    requires i < |store| && Conserved(conf, store, a) && SameHolding(store[i], pt) && IsLive(store[i].state)
    requires TierFits(conf, pt, a) && DistinctKeys(a) && Covers(conf.tb, pt.tier, Pooled(conf, pt), a) && Healthy(conf, pt, a)
    requires SameHolding(final, pt.(tier := pt.pending.value.tier.value)) && IsLive(final.state) && final.ceiling == pt.ceiling
    requires var b := ReleaseAll(conf.tb, pt.tier, Pooled(conf, pt), ReleaseAll(conf.tb, pt.tier, Pooled(conf, pt), a));
      c == ReserveAll(conf.tb, Job(pt.model, pt.pending.value.tier.value, pt.ceiling), pt.termEnd, AsClaims(Pooled(conf, pt)), b).value.1
    ensures if Rescued(conf, pt, a) then Conserved(conf, store[i := Tidy(final)], c) && Healthy(conf, final, c) && SamePools(a, c)
            else Short(conf, store[i := Tidy(final)], c)
  {
    hide ReserveAll, ReleaseAll, HeldShares, OnPools, AsClaims, AllServed, AllServedAt;
    var tier, gone := pt.pending.value.tier.value, Pooled(conf, pt);
    var b1 := ReleaseAll(conf.tb, pt.tier, gone, a);
    var b2 := ReleaseAll(conf.tb, pt.tier, gone, b1);
    ReleaseDistinct(conf.tb, pt.tier, gone, a);
    ReleaseDistinct(conf.tb, pt.tier, gone, b1);
    NamedReserved(conf, pt, tier, pt.termEnd, b2);
    ReleaseAllKeepsPools(conf.tb, pt.tier, gone, a);
    ReleaseAllKeepsPools(conf.tb, pt.tier, gone, b1);
    SamePoolsTransitive(a, b1, b2);
    SamePoolsTransitive(a, b2, c);
    RetiredHealthy(conf, pt, tier, final, a, c);
    forall k | 0 <= k < |a|
      ensures c[k].reserved <= StoreCost(conf, store[i := Tidy(final)], c[k].key)
      ensures c[k].reserved == StoreCost(conf, store[i := Tidy(final)], c[k].key)
              <==> (CostOf(conf.tb, pt.tier, gone, a[k].key) > 0 ==> a[k].reserved == CostOf(conf.tb, pt.tier, gone, a[k].key))
    {
      TierKeptAt(conf, store, i, pt, tier, final, a, b1, b2, c, k);
    }
    hide Pooled, Healthy, Tidy, StoreCost, SwapFits;
    if !Rescued(conf, pt, a) {
      var k :| 0 <= k < |a| && CostOf(conf.tb, pt.tier, gone, a[k].key) > 0 && a[k].reserved != CostOf(conf.tb, pt.tier, gone, a[k].key);
      assert c[k].reserved < StoreCost(conf, store[i := Tidy(final)], c[k].key);
    }
  }

  lemma RetiredHealthy(conf: Conf, pt: Pt, tier: Tier, final: Pt, a: seq<PoolView>, c: seq<PoolView>)
    requires Healthy(conf, pt, a) && SamePools(a, c) && DistinctKeys(c)
    requires AllServed(conf.tb, Job(pt.model, tier, pt.ceiling), Pooled(conf, pt), c)
    requires SameHolding(final, pt.(tier := tier)) && final.ceiling == pt.ceiling
    ensures Healthy(conf, final, c)
  {
    RetierServed(conf, pt, tier, pt.ceiling, pt.ceiling, a, c);
    ServedSameHolding(conf, pt.(tier := tier), final, pt.ceiling, c);
  }

  lemma TierKeptAt(conf: Conf, store: seq<Pt>, i: nat, pt: Pt, tier: Tier, final: Pt,
                   a: seq<PoolView>, b1: seq<PoolView>, b2: seq<PoolView>, c: seq<PoolView>, k: nat)
    requires i < |store| && Conserved(conf, store, a) && SameHolding(store[i], pt) && IsLive(store[i].state) && k < |a|
    requires Covers(conf.tb, pt.tier, Pooled(conf, pt), a) && SameHolding(final, pt.(tier := tier)) && IsLive(final.state)
    requires b1 == ReleaseAll(conf.tb, pt.tier, Pooled(conf, pt), a) && b2 == ReleaseAll(conf.tb, pt.tier, Pooled(conf, pt), b1)
    requires SamePools(a, b1) && SamePools(b1, b2) && Added(conf.tb, tier, Pooled(conf, pt), b2, c)
    ensures var cost := CostOf(conf.tb, pt.tier, Pooled(conf, pt), a[k].key);
      && k < |c| && c[k].reserved <= StoreCost(conf, store[i := Tidy(final)], c[k].key)
      && (c[k].reserved == StoreCost(conf, store[i := Tidy(final)], c[k].key) <==> (cost > 0 ==> a[k].reserved == cost))
  {
    var gone := Pooled(conf, pt);
    SamePoolsKeys(a, b1);
    SamePoolsKeys(b1, b2);
    SamePoolsKeys(b2, c);
    assert a[k].key == b1[k].key == b2[k].key == c[k].key;
    ReleaseAt(conf.tb, pt.tier, gone, a, k);
    ReleaseAt(conf.tb, pt.tier, gone, b1, k);
    PooledSame(conf, store[i], pt);
    PooledSame(conf, final, pt.(tier := tier));
    OnPoolsSame(conf, pt, pt.(tier := tier), HeldShares(pt));
    TidyKeepsPooled(conf, final);
    TidyState(final);
    assert Pooled(conf, pt.(tier := tier)) == gone;
    hide Pooled, Tidy, ReleaseAll, HeldShares;
    StoreCostUpdate(conf, store, i, Tidy(final), a[k].key);
  }

  /** Some counter is below what the reservations hold. */
  predicate Short(conf: Conf, store: seq<Pt>, pools: seq<PoolView>) {
    exists k :: 0 <= k < |pools| && pools[k].reserved < StoreCost(conf, store, pools[k].key)
  }

  lemma SameStoreCost(conf: Conf, store: seq<Pt>, i: nat, pt: Pt, final: Pt, key: Key)
    requires i < |store| && SameHolding(store[i], pt) && SameHolding(final, pt) && IsLive(store[i].state) && IsLive(final.state)
    ensures StoreCost(conf, store[i := Tidy(final)], key) == StoreCost(conf, store, key)
  {
    PooledSame(conf, store[i], pt);
    PooledSame(conf, final, pt);
    TidyKeepsPooled(conf, final);
    hide Pooled, Tidy;
    StoreCostUpdate(conf, store, i, Tidy(final), key);
    assert HeldBy(conf, Tidy(final)) == Pooled(conf, pt) && Tidy(final).tier == pt.tier by {
      TidyState(final);
    }
  }

  lemma TidyState(pt: Pt)
    ensures Tidy(pt).state == pt.state && Tidy(pt).tier == pt.tier
  {
  }
}
