/**
 Moving a split toward demand (crates/pt-control-plane/src/rebalance.rs). Demand and loads
 are reals.
 */
module Rebalance {
  import opened Prelude
  import F = Failover

  const MIN_GAIN: real := 1.1

  type Split = seq<F.RegionShare>

  function Demand(demand: map<string, real>, region: string): real {
    if region in demand && demand[region] > 0.0 then demand[region] else 0.0
  }

  function Load(demand: map<string, real>, s: F.RegionShare): real
    requires s.cus > 0
  {
    Demand(demand, s.region) / s.cus as real
  }

  /** Every region has at least one CU. */
  predicate Positive(split: Split) {
    forall i :: 0 <= i < |split| ==> split[i].cus > 0
  }

  predicate CanGrow(contract: Split, shift: nat, s: F.RegionShare) {
    s.cus < F.CusAt(contract, s.region) + shift
  }

  predicate CanShrink(contract: Split, shift: nat, s: F.RegionShare) {
    s.cus > Max(SaturatingSub(F.CusAt(contract, s.region), shift), 1)
  }

  /** `max_by` over the regions that may grow: the busiest, the last one on a tie. */
  predicate IsReceiver(contract: Split, demand: map<string, real>, shift: nat, split: Split, n: nat, r: nat)
    requires Positive(split) && n <= |split|
  {
    && r < n && CanGrow(contract, shift, split[r])
    && (forall i :: 0 <= i < n && CanGrow(contract, shift, split[i]) ==> Load(demand, split[i]) <= Load(demand, split[r]))
    && (forall i :: r < i < n && CanGrow(contract, shift, split[i]) ==> Load(demand, split[i]) < Load(demand, split[r]))
  }

  /** `min_by` over the other regions that may shrink: the quietest, the first one on a tie. */
  predicate IsDonor(contract: Split, demand: map<string, real>, shift: nat, split: Split, r: nat, n: nat, k: nat)
    requires Positive(split) && n <= |split|
  {
    && k < n && k != r && CanShrink(contract, shift, split[k])
    && (forall i :: 0 <= i < n && i != r && CanShrink(contract, shift, split[i]) ==> Load(demand, split[k]) <= Load(demand, split[i]))
    && (forall i :: 0 <= i < k && i != r && CanShrink(contract, shift, split[i]) ==> Load(demand, split[k]) < Load(demand, split[i]))
  }

  method FindReceiver(contract: Split, demand: map<string, real>, shift: nat, split: Split) returns (r: Option<nat>)
    requires Positive(split)
    ensures r.Some? ==> IsReceiver(contract, demand, shift, split, |split|, r.value)
    ensures r.None? ==> forall i :: 0 <= i < |split| ==> !CanGrow(contract, shift, split[i])
  {
    r := None;
    for n := 0 to |split|
      invariant r.Some? ==> IsReceiver(contract, demand, shift, split, n, r.value)
      invariant r.None? ==> forall i :: 0 <= i < n ==> !CanGrow(contract, shift, split[i])
    {
      if CanGrow(contract, shift, split[n]) && (r.None? || Load(demand, split[n]) >= Load(demand, split[r.value])) {
        r := Some(n);
      }
    }
  }

  method FindDonor(contract: Split, demand: map<string, real>, shift: nat, split: Split, r: nat) returns (k: Option<nat>)
    requires Positive(split)
    ensures k.Some? ==> IsDonor(contract, demand, shift, split, r, |split|, k.value)
    ensures k.None? ==> forall i :: 0 <= i < |split| && i != r ==> !CanShrink(contract, shift, split[i])
  {
    k := None;
    for n := 0 to |split|
      invariant k.Some? ==> IsDonor(contract, demand, shift, split, r, n, k.value)
      invariant k.None? ==> forall i :: 0 <= i < n && i != r ==> !CanShrink(contract, shift, split[i])
    {
      if n != r && CanShrink(contract, shift, split[n]) && (k.None? || Load(demand, split[n]) < Load(demand, split[k.value])) {
        k := Some(n);
      }
    }
  }

  /** One CU from region `donor` to region `receiver`. */
  datatype Move = Move(donor: nat, receiver: nat)

  function Moved(split: Split, m: Move): Split
    requires m.donor < |split| && m.receiver < |split| && m.donor != m.receiver && split[m.donor].cus > 0
  {
    split[m.receiver := split[m.receiver].(cus := split[m.receiver].cus + 1)][m.donor := split[m.donor].(cus := split[m.donor].cus - 1)]
  }

  /** Worth a change: one CU lighter, the donor is still clearly less loaded. */
  predicate Gains(demand: map<string, real>, split: Split, m: Move)
    requires Positive(split) && m.donor < |split| && m.receiver < |split| && split[m.donor].cus > 1
  {
    Demand(demand, split[m.donor].region) / (split[m.donor].cus - 1) as real * MIN_GAIN < Load(demand, split[m.receiver])
  }

  /** The move the loop makes next, if any. */
  predicate IsNext(contract: Split, demand: map<string, real>, shift: nat, split: Split, m: Move)
    requires Positive(split)
  {
    && IsReceiver(contract, demand, shift, split, |split|, m.receiver)
    && IsDonor(contract, demand, shift, split, m.receiver, |split|, m.donor)
    && Gains(demand, split, m)
  }

  /** Nothing more to move. */
  ghost predicate Settled(contract: Split, demand: map<string, real>, shift: nat, split: Split)
    requires Positive(split)
  {
    forall m :: !IsNext(contract, demand, shift, split, m)
  }

  function Total(split: Split): nat {
    if split == [] then 0 else split[0].cus + Total(split[1..])
  }

  /** No region is loaded beyond `bound`. */
  predicate Under(demand: map<string, real>, split: Split, bound: real)
    requires Positive(split)
  {
    forall i :: 0 <= i < |split| ==> Load(demand, split[i]) <= bound
  }

  /** Same regions, each within `shift` of its contract. */
  predicate Within(contract: Split, shift: nat, split: Split) {
    && |split| == |contract|
    && forall i :: 0 <= i < |split| ==>
         split[i].region == contract[i].region && contract[i].cus - shift <= split[i].cus <= contract[i].cus + shift
  }

  // ---------------------------------------------------------------------------

  lemma {:induction false} TotalUpdate(split: Split, i: nat, cus: nat)
    requires i < |split|
    ensures Total(split[i := split[i].(cus := cus)]) == Total(split) - split[i].cus + cus
  {
    var s := split[i := split[i].(cus := cus)];
    if i == 0 {
      assert s[1..] == split[1..];
    } else {
      assert s[1..] == split[1..][i - 1 := split[i].(cus := cus)];
      TotalUpdate(split[1..], i - 1, cus);
    }
  }

  lemma MoveKeepsTotal(split: Split, m: Move)
    requires m.donor < |split| && m.receiver < |split| && m.donor != m.receiver && split[m.donor].cus > 0
    ensures Total(Moved(split, m)) == Total(split)
  {
    hide Total;
    var more, less := split[m.receiver].cus + 1, split[m.donor].cus - 1;
    var one := split[m.receiver := split[m.receiver].(cus := more)];
    TotalUpdate(split, m.receiver, more);
    assert one[m.donor] == split[m.donor];
    TotalUpdate(one, m.donor, less);
  }

  lemma Lighter(d: real, c: nat)
    requires d >= 0.0 && c > 0
    ensures d / (c + 1) as real <= d / c as real && d / c as real >= 0.0
  {
    var x, y := d / c as real, d / (c + 1) as real;
    assert x * c as real == d && y * (c + 1) as real == d;
    if y > x {
      assert y * c as real > x * c as real;
    }
  }

  /** What a worthwhile move does to the two loads: neither ends above the receiver's. */
  lemma MoveLoads(contract: Split, demand: map<string, real>, shift: nat, split: Split, m: Move)
    requires Positive(split) && IsNext(contract, demand, shift, split, m)
    ensures Positive(Moved(split, m))
    ensures Load(demand, Moved(split, m)[m.receiver]) <= Load(demand, split[m.receiver])
    ensures 0.0 <= Load(demand, Moved(split, m)[m.donor]) && Load(demand, Moved(split, m)[m.donor]) * MIN_GAIN < Load(demand, split[m.receiver])
  {
    Lighter(Demand(demand, split[m.receiver].region), split[m.receiver].cus);
    Lighter(Demand(demand, split[m.donor].region), split[m.donor].cus - 1);
  }

  lemma MoveKeepsUnder(contract: Split, demand: map<string, real>, shift: nat, split: Split, m: Move, bound: real)
    requires Positive(split) && IsNext(contract, demand, shift, split, m) && Under(demand, split, bound)
    ensures Positive(Moved(split, m)) && Under(demand, Moved(split, m), bound)
  {
    MoveLoads(contract, demand, shift, split, m);
  }

  lemma MoveKeepsWithin(contract: Split, demand: map<string, real>, shift: nat, split: Split, m: Move)
    requires Positive(split) && IsNext(contract, demand, shift, split, m) && Within(contract, shift, split) && F.DistinctRegions(contract)
    ensures Within(contract, shift, Moved(split, m))
  {
    F.CusAtHas(contract, contract[m.receiver].region);
    F.CusAtHas(contract, contract[m.donor].region);
  }

  /** A region that received is too busy to donate: no region that may grow is busier than it
      was before its last CU. */
  predicate Busy(contract: Split, demand: map<string, real>, shift: nat, split: Split, x: nat)
    requires Positive(split)
  {
    && x < |split| && split[x].cus > 1
    && forall i :: 0 <= i < |split| && CanGrow(contract, shift, split[i]) ==>
         Load(demand, split[i]) <= Demand(demand, split[x].region) / (split[x].cus - 1) as real
  }

  lemma BusyNeverDonates(contract: Split, demand: map<string, real>, shift: nat, split: Split, m: Move)
    requires Positive(split) && IsNext(contract, demand, shift, split, m)
    ensures !Busy(contract, demand, shift, split, m.donor)
  {
    Lighter(Demand(demand, split[m.donor].region), split[m.donor].cus - 1);
  }

  lemma ReceiverGetsBusy(contract: Split, demand: map<string, real>, shift: nat, split: Split, m: Move)
    requires Positive(split) && IsNext(contract, demand, shift, split, m)
    ensures Positive(Moved(split, m)) && Busy(contract, demand, shift, Moved(split, m), m.receiver)
  {
    MoveLoads(contract, demand, shift, split, m);
  }

  lemma BusyStays(contract: Split, demand: map<string, real>, shift: nat, split: Split, m: Move, x: nat)
    requires Positive(split) && IsNext(contract, demand, shift, split, m) && Busy(contract, demand, shift, split, x)
    ensures Positive(Moved(split, m)) && Busy(contract, demand, shift, Moved(split, m), x)
  {
    MoveLoads(contract, demand, shift, split, m);
    BusyNeverDonates(contract, demand, shift, split, m);
    if x == m.receiver {
      ReceiverGetsBusy(contract, demand, shift, split, m);
    }
  }

  /** The moves, replayed. */
  ghost predicate Replays(contract: Split, demand: map<string, real>, shift: nat, moves: seq<Move>, splits: seq<Split>) {
    && |splits| == |moves| + 1 && splits[0] == contract
    && forall i :: 0 <= i < |moves| ==>
         Positive(splits[i]) && IsNext(contract, demand, shift, splits[i], moves[i]) && splits[i + 1] == Moved(splits[i], moves[i])
  }

  /** The moves go on until `shift` are made or there is no next one. */
  ghost predicate Stops(contract: Split, demand: map<string, real>, shift: nat, moves: seq<Move>, splits: seq<Split>)
    requires Replays(contract, demand, shift, moves, splits)
  {
    |moves| <= shift && Positive(splits[|moves|]) && (|moves| == shift || Settled(contract, demand, shift, splits[|moves|]))
  }

  /** The split that `demand` moves `contract` to. */
  ghost predicate IsTarget(contract: Split, demand: map<string, real>, shift: nat, split: Split) {
    exists moves, splits :: Replays(contract, demand, shift, moves, splits) && Stops(contract, demand, shift, moves, splits)
                            && splits[|moves|] == split
  }

  /** There is one such split. */
  lemma OneTarget(contract: Split, demand: map<string, real>, shift: nat, a: Split, b: Split)
    requires IsTarget(contract, demand, shift, a) && IsTarget(contract, demand, shift, b)
    ensures a == b
  {
    var ms, ss :| Replays(contract, demand, shift, ms, ss) && Stops(contract, demand, shift, ms, ss) && ss[|ms|] == a;
    var ns, ts :| Replays(contract, demand, shift, ns, ts) && Stops(contract, demand, shift, ns, ts) && ts[|ns|] == b;
    hide Settled, Positive, IsNext, Moved;
    assert |ss| == |ms| + 1 && |ts| == |ns| + 1;
    hide Replays;
    if |ms| <= |ns| {
      SameSplits(contract, demand, shift, ms, ss, ns, ts, |ms|);
      if |ms| < |ns| {
        NextIsUnsettled(contract, demand, shift, ns, ts, |ms|);
      }
    } else {
      SameSplits(contract, demand, shift, ns, ts, ms, ss, |ns|);
      NextIsUnsettled(contract, demand, shift, ms, ss, |ns|);
    }
  }

  lemma NextIsUnsettled(contract: Split, demand: map<string, real>, shift: nat, moves: seq<Move>, splits: seq<Split>, n: nat)
    requires Replays(contract, demand, shift, moves, splits) && n < |moves|
    ensures Positive(splits[n]) && !Settled(contract, demand, shift, splits[n])
  {
    assert IsNext(contract, demand, shift, splits[n], moves[n]);
  }

  lemma {:induction false} SameSplits(contract: Split, demand: map<string, real>, shift: nat,
                                      ms: seq<Move>, ss: seq<Split>, ns: seq<Move>, ts: seq<Split>, n: nat)
    requires Replays(contract, demand, shift, ms, ss) && Replays(contract, demand, shift, ns, ts) && n <= |ms| && n <= |ns|
    ensures ss[n] == ts[n]
  {
    if n > 0 {
      SameSplits(contract, demand, shift, ms, ss, ns, ts, n - 1);
      var split, m, m' := ss[n - 1], ms[n - 1], ns[n - 1];
      OneReceiver(contract, demand, shift, split, m.receiver);
      OneDonor(contract, demand, shift, split, m.receiver, m.donor);
      assert m == m';
    }
  }

  // ---------------------------------------------------------------------------
  // What stopping does not mean
  // ---------------------------------------------------------------------------

  /** A CU could go from one region to the other. */
  predicate Possible(contract: Split, shift: nat, split: Split, m: Move) {
    && m.donor < |split| && m.receiver < |split| && m.donor != m.receiver
    && CanShrink(contract, shift, split[m.donor]) && CanGrow(contract, shift, split[m.receiver])
  }

  /** No move that could be made would gain. */
  ghost predicate NoneGains(contract: Split, demand: map<string, real>, shift: nat, split: Split)
    requires Positive(split)
  {
    forall m :: Possible(contract, shift, split, m) ==> !Gains(demand, split, m)
  }

  /** A region's load one CU lighter. */
  function Lightened(demand: map<string, real>, s: F.RegionShare): real
    requires s.cus > 1
  {
    Demand(demand, s.region) / (s.cus - 1) as real
  }

  /** The quietest region is also the quietest one CU lighter. */
  predicate QuietestLighter(contract: Split, demand: map<string, real>, shift: nat, split: Split, r: nat, k: nat)
    requires Positive(split) && k < |split| && split[k].cus > 1
  {
    forall i :: 0 <= i < |split| && i != r && CanShrink(contract, shift, split[i]) ==> Lightened(demand, split[k]) <= Lightened(demand, split[i])
  }

  /** No move at all gains exactly when none to the busiest region that may grow does. */
  lemma NoneGainsIff(contract: Split, demand: map<string, real>, shift: nat, split: Split, r: nat)
    requires Positive(split) && IsReceiver(contract, demand, shift, split, |split|, r)
    ensures NoneGains(contract, demand, shift, split)
            <==> forall i :: 0 <= i < |split| && i != r && CanShrink(contract, shift, split[i]) ==> !Gains(demand, split, Move(i, r))
  {
    if NoneGains(contract, demand, shift, split) {
      forall i | 0 <= i < |split| && i != r && CanShrink(contract, shift, split[i])
        ensures !Gains(demand, split, Move(i, r))
      {
        assert Possible(contract, shift, split, Move(i, r));
      }
    } else {
      var m :| Possible(contract, shift, split, m) && Gains(demand, split, m);
      BusiestKeeps(contract, demand, shift, split, r, m);
      assert Gains(demand, split, Move(m.donor, r));
    }
  }

  /** The busiest region gains nothing by giving. */
  lemma BusiestKeeps(contract: Split, demand: map<string, real>, shift: nat, split: Split, r: nat, m: Move)
    requires Positive(split) && IsReceiver(contract, demand, shift, split, |split|, r)
    requires Possible(contract, shift, split, m) && Gains(demand, split, m)
    ensures m.donor != r && Load(demand, split[m.receiver]) <= Load(demand, split[r])
  {
    Lighter(Demand(demand, split[m.donor].region), split[m.donor].cus - 1);
  }

  /** Every region that may shrink, one CU lighter, would be nearly as loaded as `r` or more. */
  predicate NoneLighter(contract: Split, demand: map<string, real>, shift: nat, split: Split, r: nat)
    requires Positive(split) && r < |split|
  {
    forall i :: 0 <= i < |split| && CanShrink(contract, shift, split[i]) ==> Lightened(demand, split[i]) * MIN_GAIN >= Load(demand, split[r])
  }

  /** A split with no next move is one that no move improves exactly when every region that may
      shrink, not just the quietest, would come out nearly as loaded as the busiest that may
      grow; and a split that no move improves has no next move. */
  lemma BestIff(contract: Split, demand: map<string, real>, shift: nat, split: Split)
    requires Positive(split)
    ensures NoneGains(contract, demand, shift, split)
            <==> forall r :: IsReceiver(contract, demand, shift, split, |split|, r) ==> NoneLighter(contract, demand, shift, split, r)
    ensures NoneGains(contract, demand, shift, split) ==> Settled(contract, demand, shift, split)
  {
    forall r | IsReceiver(contract, demand, shift, split, |split|, r)
      ensures NoneGains(contract, demand, shift, split) <==> NoneLighter(contract, demand, shift, split, r)
    {
      BestForIff(contract, demand, shift, split, r);
    }
    if !NoneGains(contract, demand, shift, split) {
      var m :| Possible(contract, shift, split, m) && Gains(demand, split, m);
      var r := SomeReceiver(contract, demand, shift, split, |split|, m.receiver);
      assert !NoneLighter(contract, demand, shift, split, r);
    } else {
      forall m | IsNext(contract, demand, shift, split, m)
        ensures false
      {
        assert Possible(contract, shift, split, m);
      }
    }
  }

  lemma BestForIff(contract: Split, demand: map<string, real>, shift: nat, split: Split, r: nat)
    requires Positive(split) && IsReceiver(contract, demand, shift, split, |split|, r)
    ensures NoneGains(contract, demand, shift, split) <==> NoneLighter(contract, demand, shift, split, r)
  {
    NoneGainsIff(contract, demand, shift, split, r);
    hide NoneGains;
    forall i | 0 <= i < |split| && CanShrink(contract, shift, split[i])
      ensures Gains(demand, split, Move(i, r)) <==> Lightened(demand, split[i]) * MIN_GAIN < Load(demand, split[r])
      ensures i == r ==> !Gains(demand, split, Move(i, r))
    {
      Lighter(Demand(demand, split[i].region), split[i].cus - 1);
    }
    hide Gains, Lightened, Load;
  }

  /** Where the quietest region is also the quietest one CU lighter, having no next move means
      that no move gains. */
  lemma SettledIsBest(contract: Split, demand: map<string, real>, shift: nat, split: Split)
    requires Positive(split)
    requires forall r, k :: IsReceiver(contract, demand, shift, split, |split|, r) && IsDonor(contract, demand, shift, split, r, |split|, k)
               ==> QuietestLighter(contract, demand, shift, split, r, k)
    ensures Settled(contract, demand, shift, split) <==> NoneGains(contract, demand, shift, split)
  {
    if !NoneGains(contract, demand, shift, split) {
      var m :| Possible(contract, shift, split, m) && Gains(demand, split, m);
      var r := SomeReceiver(contract, demand, shift, split, |split|, m.receiver);
      BusiestKeeps(contract, demand, shift, split, r, m);
      var k := SomeDonor(contract, demand, shift, split, r, |split|, m.donor);
      assert QuietestLighter(contract, demand, shift, split, r, k);
      assert Lightened(demand, split[k]) <= Lightened(demand, split[m.donor]);
      assert IsNext(contract, demand, shift, split, Move(k, r));
    } else {
      forall m | IsNext(contract, demand, shift, split, m)
        ensures false
      {
        assert Possible(contract, shift, split, m);
      }
    }
  }

  lemma {:induction false} SomeReceiver(contract: Split, demand: map<string, real>, shift: nat, split: Split, n: nat, i: nat) returns (r: nat)
    requires Positive(split) && i < n <= |split| && CanGrow(contract, shift, split[i])
    ensures IsReceiver(contract, demand, shift, split, n, r)
  {
    if i == n - 1 && forall j :: 0 <= j < n - 1 ==> !CanGrow(contract, shift, split[j]) {
      r := i;
    } else {
      var j := i;
      if i == n - 1 {
        j :| 0 <= j < n - 1 && CanGrow(contract, shift, split[j]);
      }
      r := SomeReceiver(contract, demand, shift, split, n - 1, j);
      if CanGrow(contract, shift, split[n - 1]) && Load(demand, split[n - 1]) >= Load(demand, split[r]) {
        r := n - 1;
      }
    }
  }

  lemma {:induction false} SomeDonor(contract: Split, demand: map<string, real>, shift: nat, split: Split, r: nat, n: nat, i: nat) returns (k: nat)
    requires Positive(split) && i < n <= |split| && i != r && CanShrink(contract, shift, split[i])
    ensures IsDonor(contract, demand, shift, split, r, n, k)
  {
    if i == n - 1 && forall j :: 0 <= j < n - 1 && j != r ==> !CanShrink(contract, shift, split[j]) {
      k := i;
    } else {
      var j := i;
      if i == n - 1 {
        j :| 0 <= j < n - 1 && j != r && CanShrink(contract, shift, split[j]);
      }
      k := SomeDonor(contract, demand, shift, split, r, n - 1, j);
      if n - 1 != r && CanShrink(contract, shift, split[n - 1]) && Load(demand, split[n - 1]) < Load(demand, split[k]) {
        k := n - 1;
      }
    }
  }

  lemma SettledHere(contract: Split, demand: map<string, real>, shift: nat, split: Split, r: nat, k: nat)
    requires Positive(split) && IsReceiver(contract, demand, shift, split, |split|, r)
    requires IsDonor(contract, demand, shift, split, r, |split|, k) && !Gains(demand, split, Move(k, r))
    ensures Settled(contract, demand, shift, split)
  {
    OneReceiver(contract, demand, shift, split, r);
    OneDonor(contract, demand, shift, split, r, k);
    hide IsReceiver, IsDonor, Gains;
  }

  function ShortContract(): Split {
    [F.RegionShare("r", 1), F.RegionShare("a", 2), F.RegionShare("b", 10)]
  }

  function ShortDemand(): map<string, real> {
    map["r" := 10.0, "a" := 10.0, "b" := 60.0]
  }

  lemma ShortLoads()
    ensures var c, d := ShortContract(), ShortDemand();
      && Positive(c) && Load(d, c[0]) == 10.0 && Load(d, c[1]) == 5.0 && Load(d, c[2]) == 6.0
      && CanGrow(c, 1, c[0]) && CanShrink(c, 1, c[1]) && CanShrink(c, 1, c[2])
      && !Gains(d, c, Move(1, 0)) && Gains(d, c, Move(2, 0))
  {
    var c := ShortContract();
    assert c[1..] == [F.RegionShare("a", 2), F.RegionShare("b", 10)];
    assert c[1..][1..] == [F.RegionShare("b", 10)];
    assert F.CusAt(c, "r") == 1 && F.CusAt(c, "a") == 2 && F.CusAt(c, "b") == 10;
    assert 60.0 / 9.0 * 1.1 < 10.0;
  }

  /** The loop can stop where a move would still gain: the quietest region is too small to
      give, and a larger one that could is never looked at. */
  lemma StopsShort()
    ensures var c, d := ShortContract(), ShortDemand();
      Positive(c) && IsTarget(c, d, 1, c) && Possible(c, 1, c, Move(2, 0)) && Gains(d, c, Move(2, 0))
  {
    hide Load, CanGrow, CanShrink, Gains, Demand;
    var c, d := ShortContract(), ShortDemand();
    ShortLoads();
    assert IsReceiver(c, d, 1, c, 3, 0);
    assert IsDonor(c, d, 1, c, 0, 3, 1);
    SettledHere(c, d, 1, c, 0, 1);
    assert Replays(c, d, 1, [], [c]) && Stops(c, d, 1, [], [c]);
  }

  method Shift(split: Split, m: Move) returns (r: Split)
    requires m.donor < |split| && m.receiver < |split| && m.donor != m.receiver && split[m.donor].cus > 0
    ensures r == Moved(split, m)
  {
    r := split[m.receiver := split[m.receiver].(cus := split[m.receiver].cus + 1)];
    r := r[m.donor := r[m.donor].(cus := r[m.donor].cus - 1)];
  }

  /** The next move: busiest to grow, quietest to shrink, if it gains. */
  method FindMove(contract: Split, demand: map<string, real>, shift: nat, split: Split) returns (m: Option<Move>)
    requires Positive(split)
    ensures m.Some? ==> IsNext(contract, demand, shift, split, m.value)
    ensures m.Some? ==> m.value.donor < |split| && m.value.receiver < |split| && m.value.donor != m.value.receiver
    ensures m.None? ==> Settled(contract, demand, shift, split)
  {
    var receiver := FindReceiver(contract, demand, shift, split);
    if receiver.None? {
      return None;
    }
    var donor := FindDonor(contract, demand, shift, split, receiver.value);
    if donor.None? {
      OneReceiver(contract, demand, shift, split, receiver.value);
      return None;
    }
    var receiverLoad := Load(demand, split[receiver.value]);
    var donorAfter := Demand(demand, split[donor.value].region) / (split[donor.value].cus - 1) as real;
    if donorAfter * MIN_GAIN >= receiverLoad {
      OneReceiver(contract, demand, shift, split, receiver.value);
      OneDonor(contract, demand, shift, split, receiver.value, donor.value);
      return None;
    }
    m := Some(Move(donor.value, receiver.value));
  }

  lemma OneReceiver(contract: Split, demand: map<string, real>, shift: nat, split: Split, r: nat)
    requires Positive(split) && IsReceiver(contract, demand, shift, split, |split|, r)
    ensures forall x :: IsReceiver(contract, demand, shift, split, |split|, x) ==> x == r
  {
  }

  lemma OneDonor(contract: Split, demand: map<string, real>, shift: nat, split: Split, r: nat, k: nat)
    requires Positive(split) && IsDonor(contract, demand, shift, split, r, |split|, k)
    ensures forall x :: IsDonor(contract, demand, shift, split, r, |split|, x) ==> x == k
  {
  }

  /** The split `contract` should move to. */
  method TargetSplit(contract: Split, demand: map<string, real>, shift: nat)
    returns (split: Split, ghost moves: seq<Move>, ghost splits: seq<Split>)
    requires F.Whole(contract)
    ensures Within(contract, shift, split) && Positive(split) && Total(split) == Total(contract)
    ensures forall bound :: Positive(contract) && Under(demand, contract, bound) ==> Under(demand, split, bound)
    ensures Replays(contract, demand, shift, moves, splits) && splits[|moves|] == split && |moves| <= shift
    ensures |moves| == shift || Settled(contract, demand, shift, split)
    ensures IsTarget(contract, demand, shift, split)
    ensures forall i, j :: 0 <= i < j < |moves| ==> moves[i].receiver != moves[j].donor
  {
    hide Busy, Load, Total, IsReceiver, IsDonor, Moved, Demand;
    split := contract;
    assert Positive(contract) by {
      assert forall i :: 0 <= i < |contract| ==> contract[i] in contract;
    }
    var moved := 0;
    moves, splits := [], [contract];
    while moved < shift
      invariant 0 <= moved <= shift && |moves| == moved
      invariant Positive(split) && Within(contract, shift, split) && Total(split) == Total(contract)
      invariant forall bound :: Under(demand, contract, bound) ==> Under(demand, split, bound)
      invariant Replays(contract, demand, shift, moves, splits) && splits[|moves|] == split
      invariant forall i :: 0 <= i < |moves| ==> Busy(contract, demand, shift, split, moves[i].receiver)
      invariant forall i, j :: 0 <= i < j < |moves| ==> moves[i].receiver != moves[j].donor
    {
      var found := FindMove(contract, demand, shift, split);
      if found.None? {
        break;
      }
      var m := found.value;
      MoveStep(contract, demand, shift, split, m, moves, splits);
      split := Shift(split, m);
      moved := moved + 1;
      moves, splits := moves + [m], splits + [split];
    }
  }

  lemma MoveStep(contract: Split, demand: map<string, real>, shift: nat, split: Split, m: Move, moves: seq<Move>, splits: seq<Split>)
    requires F.Whole(contract) && Positive(contract) && Positive(split) && Within(contract, shift, split)
    requires IsNext(contract, demand, shift, split, m)
    requires Replays(contract, demand, shift, moves, splits) && splits[|moves|] == split
    requires forall i :: 0 <= i < |moves| ==> Busy(contract, demand, shift, split, moves[i].receiver)
    ensures var next := Moved(split, m);
      && Positive(next) && Within(contract, shift, next) && Total(next) == Total(split)
      && (forall bound :: Under(demand, split, bound) ==> Under(demand, next, bound))
      && Replays(contract, demand, shift, moves + [m], splits + [next])
      && (forall i :: 0 <= i < |moves| ==> moves[i].receiver != m.donor && Busy(contract, demand, shift, next, moves[i].receiver))
      && Busy(contract, demand, shift, next, m.receiver)
  {
    var next := Moved(split, m);
    MoveKeepsTotal(split, m);
    MoveKeepsWithin(contract, demand, shift, split, m);
    ReceiverGetsBusy(contract, demand, shift, split, m);
    BusyNeverDonates(contract, demand, shift, split, m);
    forall bound | Under(demand, split, bound)
      ensures Under(demand, next, bound)
    {
      MoveKeepsUnder(contract, demand, shift, split, m, bound);
    }
    forall i | 0 <= i < |moves|
      ensures moves[i].receiver != m.donor && Busy(contract, demand, shift, next, moves[i].receiver)
    {
      BusyStays(contract, demand, shift, split, m, moves[i].receiver);
    }
    ReplaysGrow(contract, demand, shift, moves, splits, m);
  }

  lemma ReplaysGrow(contract: Split, demand: map<string, real>, shift: nat, moves: seq<Move>, splits: seq<Split>, m: Move)
    requires Replays(contract, demand, shift, moves, splits)
    requires Positive(splits[|moves|]) && IsNext(contract, demand, shift, splits[|moves|], m)
    ensures Replays(contract, demand, shift, moves + [m], splits + [Moved(splits[|moves|], m)])
  {
    var moves', splits' := moves + [m], splits + [Moved(splits[|moves|], m)];
    forall i | 0 <= i < |moves'|
      ensures Positive(splits'[i]) && IsNext(contract, demand, shift, splits'[i], moves'[i]) && splits'[i + 1] == Moved(splits'[i], moves'[i])
    {
      if i < |moves| {
        assert splits'[i] == splits[i] && splits'[i + 1] == splits[i + 1] && moves'[i] == moves[i];
      }
    }
  }

  /** A target split is one the service accepts. */
  lemma TargetIsWhole(contract: Split, shift: nat, split: Split)
    requires F.Whole(contract) && Within(contract, shift, split) && Positive(split)
    ensures F.Whole(split)
  {
    forall i, j | 0 <= i < j < |split|
      ensures split[i].region != split[j].region
    {
      assert contract[i].region != contract[j].region;
    }
  }
}
