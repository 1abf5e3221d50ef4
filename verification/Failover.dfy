/**
 Region failure: failover targets, headroom and footprint, DNS weights
 (crates/pt-control-plane/src/failover.rs), and the activation of failover entitlements at
 gateways (crates/pt-entitlement/src/lib.rs). Times are whole milliseconds and quotients
 are exact.
 */
module Failover {
  import opened Prelude
  import opened Sorting

  datatype RegionShare = RegionShare(region: string, cus: nat)

  datatype Sku = Regional | MultiRegion

  /** Each region's configured pair. */
  type Pairs = map<string, string>

  predicate DistinctRegions(shares: seq<RegionShare>) {
    forall i, j :: 0 <= i < j < |shares| ==> shares[i].region != shares[j].region
  }

  /** `find(|s| s.region == region)`, as CUs: 0 where there is no share. */
  function CusAt(shares: seq<RegionShare>, region: string): nat {
    if shares == [] then 0 else if shares[0].region == region then shares[0].cus else CusAt(shares[1..], region)
  }

  predicate Has(shares: seq<RegionShare>, region: string) {
    exists i :: 0 <= i < |shares| && shares[i].region == region
  }

  /** A split as validation accepts it: each region once, with at least one CU. */
  predicate Whole(shares: seq<RegionShare>) {
    DistinctRegions(shares) && forall s :: s in shares ==> s.cus > 0
  }

  // ---------------------------------------------------------------------------
  // Targets, headroom, footprint, growth
  // ---------------------------------------------------------------------------

  /** `max_by` on CUs, then on the name, smaller names winning; the last maximum is kept. */
  function LargestOther(shares: seq<RegionShare>, from: string, best: Option<RegionShare>): Option<RegionShare> {
    if shares == [] then best
    else
      var s := shares[0];
      LargestOther(shares[1..], from,
        if s.region == from then best
        else if best.None? || best.value.cus < s.cus || (best.value.cus == s.cus && NameLeq(s.region, best.value.region)) then Some(s)
        else best)
  }

  function TargetOf(pairs: Pairs, regions: seq<RegionShare>, from: string): Option<string> {
    if from in pairs && Has(regions, pairs[from]) then Some(pairs[from])
    else
      match LargestOther(regions, from, None) case None => None case Some(s) => Some(s.region)
  }

  /** `(from, to)` pairs for the shares from index `i` on. */
  function TargetsFrom(pairs: Pairs, regions: seq<RegionShare>, i: nat): seq<(string, string)>
    requires i <= |regions|
    decreases |regions| - i
  {
    if i == |regions| then []
    else
      var to := TargetOf(pairs, regions, regions[i].region);
      (if to.None? then [] else [(regions[i].region, to.value)]) + TargetsFrom(pairs, regions, i + 1)
  }

  function Targets(pairs: Pairs, regions: seq<RegionShare>): seq<(string, string)> {
    TargetsFrom(pairs, regions, 0)
  }

  /** Raise `region` to at least `cus`, or add it. */
  function AtLeast(out: seq<RegionShare>, region: string, cus: nat): seq<RegionShare> {
    if out == [] then [RegionShare(region, cus)]
    else if out[0].region == region then [RegionShare(region, Max(out[0].cus, cus))] + out[1..]
    else [out[0]] + AtLeast(out[1..], region, cus)
  }

  function Gather(targets: seq<(string, string)>, regions: seq<RegionShare>, out: seq<RegionShare>): seq<RegionShare>
    decreases |targets|
  {
    if targets == [] then out
    else Gather(targets[1..], regions, AtLeast(out, targets[0].1, CusAt(regions, targets[0].0)))
  }

  predicate ByRegion(a: RegionShare, b: RegionShare) {
    NameLeq(a.region, b.region)
  }

  function Headroom(pairs: Pairs, sku: Sku, regions: seq<RegionShare>): seq<RegionShare> {
    if sku != MultiRegion then [] else Sort(ByRegion, Gather(Targets(pairs, regions), regions, []))
  }

  function AddShare(out: seq<RegionShare>, h: RegionShare): seq<RegionShare> {
    if out == [] then [h]
    else if out[0].region == h.region then [RegionShare(h.region, out[0].cus + h.cus)] + out[1..]
    else [out[0]] + AddShare(out[1..], h)
  }

  function Footprint(regions: seq<RegionShare>, headroom: seq<RegionShare>): seq<RegionShare>
    decreases |headroom|
  {
    if headroom == [] then regions else Footprint(AddShare(regions, headroom[0]), headroom[1..])
  }

  /** What `new_` holds beyond `old_`, per region. */
  function Growth(old_: seq<RegionShare>, new_: seq<RegionShare>): seq<RegionShare> {
    if new_ == [] then []
    else
      var before := CusAt(old_, new_[0].region);
      (if new_[0].cus > before then [RegionShare(new_[0].region, new_[0].cus - before)] else []) + Growth(old_, new_[1..])
  }

  // ---------------------------------------------------------------------------
  // The loops of the source
  // ---------------------------------------------------------------------------

  method ComputeHeadroom(pairs: Pairs, sku: Sku, regions: seq<RegionShare>) returns (out: seq<RegionShare>)
    ensures out == Headroom(pairs, sku, regions)
  {
    if sku != MultiRegion {
      return [];
    }
    out := [];
    var targets := Targets(pairs, regions);
    assert targets[0..] == targets;
    for i := 0 to |targets|
      invariant Gather(targets, regions, []) == Gather(targets[i..], regions, out)
    {
      assert targets[i..][1..] == targets[i + 1..];
      out := AtLeast(out, targets[i].1, CusAt(regions, targets[i].0));
    }
    out := Sort(ByRegion, out);
  }

  method ComputeFootprint(regions: seq<RegionShare>, headroom: seq<RegionShare>) returns (out: seq<RegionShare>)
    ensures out == Footprint(regions, headroom)
  {
    out := regions;
    assert headroom[0..] == headroom;
    for i := 0 to |headroom|
      invariant Footprint(regions, headroom) == Footprint(out, headroom[i..])
    {
      assert headroom[i..][1..] == headroom[i + 1..];
      out := AddShare(out, headroom[i]);
    }
  }

  // ---------------------------------------------------------------------------
  // What they hold, region by region
  // ---------------------------------------------------------------------------

  lemma {:induction false} CusAtHas(shares: seq<RegionShare>, region: string)
    ensures !Has(shares, region) ==> CusAt(shares, region) == 0
    ensures forall i :: 0 <= i < |shares| && DistinctRegions(shares) && shares[i].region == region ==> CusAt(shares, region) == shares[i].cus
  {
    if shares != [] {
      CusAtHas(shares[1..], region);
      if Has(shares[1..], region) {
        var i :| 0 <= i < |shares[1..]| && shares[1..][i].region == region;
        assert shares[i + 1].region == region;
      }
      forall i | 0 <= i < |shares| && DistinctRegions(shares) && shares[i].region == region
        ensures CusAt(shares, region) == shares[i].cus
      {
        assert i > 0 ==> shares[i] == shares[1..][i - 1];
      }
    }
  }

  lemma {:induction false} AddShareAt(out: seq<RegionShare>, h: RegionShare, region: string)
    ensures CusAt(AddShare(out, h), region) == CusAt(out, region) + if region == h.region then h.cus else 0
    ensures Has(AddShare(out, h), region) <==> Has(out, region) || region == h.region
  {
    if out == [] {
      assert AddShare(out, h)[0] == h;
    } else {
      var r := AddShare(out, h);
      AddShareAt(out[1..], h, region);
      HasHead(out, region);
      HasHead(r, region);
      if out[0].region == h.region {
        assert r[1..] == out[1..];
      } else {
        assert r[1..] == AddShare(out[1..], h);
      }
    }
  }

  lemma HasHead(shares: seq<RegionShare>, region: string)
    requires shares != []
    ensures Has(shares, region) <==> shares[0].region == region || Has(shares[1..], region)
  {
    if Has(shares, region) && shares[0].region != region {
      var i :| 0 <= i < |shares| && shares[i].region == region;
      assert shares[1..][i - 1].region == region;
    }
    if Has(shares[1..], region) {
      var i :| 0 <= i < |shares[1..]| && shares[1..][i].region == region;
      assert shares[i + 1].region == region;
    }
  }

  lemma {:induction false} AddShareDistinct(out: seq<RegionShare>, h: RegionShare)
    requires DistinctRegions(out)
    ensures DistinctRegions(AddShare(out, h))
  {
    if out != [] && out[0].region != h.region {
      var rest := AddShare(out[1..], h);
      AddShareDistinct(out[1..], h);
      AddShareAt(out[1..], h, out[0].region);
      assert !Has(out[1..], out[0].region);
      forall j | 0 <= j < |rest|
        ensures rest[j].region != out[0].region
      {
        assert !Has(rest, out[0].region);
      }
    }
  }

  /** A footprint holds, in each region, the share plus the headroom. */
  lemma {:induction false} FootprintAt(regions: seq<RegionShare>, headroom: seq<RegionShare>, region: string)
    requires DistinctRegions(headroom)
    ensures CusAt(Footprint(regions, headroom), region) == CusAt(regions, region) + CusAt(headroom, region)
    ensures DistinctRegions(regions) ==> DistinctRegions(Footprint(regions, headroom))
    decreases |headroom|
  {
    if headroom != [] {
      AddShareAt(regions, headroom[0], region);
      if DistinctRegions(regions) {
        AddShareDistinct(regions, headroom[0]);
      }
      FootprintAt(AddShare(regions, headroom[0]), headroom[1..], region);
      if region == headroom[0].region {
        assert !Has(headroom[1..], region);
        CusAtHas(headroom[1..], region);
      }
    }
  }

  lemma {:induction false} GrowthHas(old_: seq<RegionShare>, new_: seq<RegionShare>, region: string)
    requires DistinctRegions(new_)
    ensures CusAt(Growth(old_, new_), region) == SaturatingSub(CusAt(new_, region), CusAt(old_, region))
    ensures Has(Growth(old_, new_), region) <==> CusAt(new_, region) > CusAt(old_, region)
  {
    if new_ != [] {
      var g, rest := Growth(old_, new_), Growth(old_, new_[1..]);
      GrowthHas(old_, new_[1..], region);
      if region == new_[0].region {
        HeadIsNew(new_);
        CusAtHas(new_[1..], region);
      }
      hide Has, DistinctRegions;
      if new_[0].cus > CusAt(old_, new_[0].region) {
        assert g[1..] == rest;
        HasHead(g, region);
      } else {
        assert g == rest;
      }
    }
  }

  lemma {:induction false} GrowthDistinct(old_: seq<RegionShare>, new_: seq<RegionShare>)
    requires DistinctRegions(new_)
    ensures DistinctRegions(Growth(old_, new_)) && forall g :: g in Growth(old_, new_) ==> g.cus > 0
  {
    if new_ != [] {
      var rest := Growth(old_, new_[1..]);
      GrowthDistinct(old_, new_[1..]);
      GrowthHas(old_, new_[1..], new_[0].region);
      assert !Has(new_[1..], new_[0].region);
      CusAtHas(new_[1..], new_[0].region);
      forall j | 0 <= j < |rest|
        ensures rest[j].region != new_[0].region
      {
        assert !Has(rest, new_[0].region);
      }
    }
  }

  /** Growth is the positive difference, region by region. */
  lemma GrowthAt(old_: seq<RegionShare>, new_: seq<RegionShare>, region: string)
    requires DistinctRegions(new_)
    ensures CusAt(Growth(old_, new_), region) == SaturatingSub(CusAt(new_, region), CusAt(old_, region))
    ensures Has(Growth(old_, new_), region) <==> CusAt(new_, region) > CusAt(old_, region)
    ensures DistinctRegions(Growth(old_, new_))
    ensures forall g :: g in Growth(old_, new_) ==> g.cus > 0
  {
    GrowthHas(old_, new_, region);
    GrowthDistinct(old_, new_);
  }

  /** The largest share whose target is `region`. */
  function LargestTo(targets: seq<(string, string)>, regions: seq<RegionShare>, region: string): nat {
    if targets == [] then 0
    else Max(if targets[0].1 == region then CusAt(regions, targets[0].0) else 0, LargestTo(targets[1..], regions, region))
  }

  lemma {:induction false} AtLeastAt(out: seq<RegionShare>, to: string, cus: nat, region: string)
    ensures CusAt(AtLeast(out, to, cus), region) == if region == to then Max(CusAt(out, region), cus) else CusAt(out, region)
    ensures Has(AtLeast(out, to, cus), region) <==> Has(out, region) || region == to
  {
    var r := AtLeast(out, to, cus);
    if out == [] {
      assert r[0].region == to;
    } else {
      AtLeastAt(out[1..], to, cus, region);
      HasHead(out, region);
      HasHead(r, region);
      if out[0].region == to {
        assert r[1..] == out[1..];
      } else {
        assert r[1..] == AtLeast(out[1..], to, cus);
      }
    }
  }

  lemma {:induction false} AtLeastDistinct(out: seq<RegionShare>, to: string, cus: nat)
    requires DistinctRegions(out)
    ensures DistinctRegions(AtLeast(out, to, cus))
  {
    if out != [] && out[0].region != to {
      var rest := AtLeast(out[1..], to, cus);
      AtLeastDistinct(out[1..], to, cus);
      AtLeastAt(out[1..], to, cus, out[0].region);
      assert !Has(out[1..], out[0].region);
      forall j | 0 <= j < |rest|
        ensures rest[j].region != out[0].region
      {
        assert !Has(rest, out[0].region);
      }
    }
  }

  lemma {:induction false} GatherAt(targets: seq<(string, string)>, regions: seq<RegionShare>, out: seq<RegionShare>, region: string)
    requires DistinctRegions(out)
    ensures CusAt(Gather(targets, regions, out), region) == Max(CusAt(out, region), LargestTo(targets, regions, region))
    ensures DistinctRegions(Gather(targets, regions, out))
    decreases |targets|
  {
    if targets != [] {
      var cus := CusAt(regions, targets[0].0);
      AtLeastAt(out, targets[0].1, cus, region);
      AtLeastDistinct(out, targets[0].1, cus);
      GatherAt(targets[1..], regions, AtLeast(out, targets[0].1, cus), region);
    }
  }

  /** Sorting by region moves no CUs. */
  lemma SortAt(shares: seq<RegionShare>, region: string)
    requires DistinctRegions(shares)
    ensures CusAt(Sort(ByRegion, shares), region) == CusAt(shares, region)
    ensures DistinctRegions(Sort(ByRegion, shares))
  {
    var sorted := Sort(ByRegion, shares);
    SortContents(ByRegion, shares);
    forall i, j | 0 <= i < j < |sorted|
      ensures sorted[i].region != sorted[j].region
    {
      DistinctBecauseMultiset(sorted, shares, i, j);
    }
    CusAtHas(shares, region);
    CusAtHas(sorted, region);
    if Has(shares, region) {
      var i :| 0 <= i < |shares| && shares[i].region == region;
      assert shares[i] in sorted;
      var k :| 0 <= k < |sorted| && sorted[k] == shares[i];
    } else {
      forall k | 0 <= k < |sorted|
        ensures sorted[k].region != region
      {
        assert sorted[k] in sorted && sorted[k] in shares;
      }
    }
  }

  lemma DistinctBecauseMultiset(sorted: seq<RegionShare>, shares: seq<RegionShare>, i: nat, j: nat)
    requires DistinctRegions(shares) && multiset(sorted) == multiset(shares)
    requires i < j < |sorted|
    ensures sorted[i].region != sorted[j].region
  {
    if sorted[i].region == sorted[j].region {
      assert sorted[i] in multiset(sorted) && sorted[j] in multiset(sorted);
      var a :| 0 <= a < |shares| && shares[a] == sorted[i];
      var b :| 0 <= b < |shares| && shares[b] == sorted[j];
      assert a == b;
      TwiceInSeq(sorted, i, j);
      OnceInDistinct(shares, a);
      assert false;
    }
  }

  lemma TwiceInSeq<T>(s: seq<T>, i: nat, j: nat)
    requires i < j < |s| && s[i] == s[j]
    ensures multiset(s)[s[i]] >= 2
  {
    assert s == s[..j] + s[j..];
    assert s[..j][i] in multiset(s[..j]) && s[j..][0] in multiset(s[j..]);
  }

  lemma {:induction false} OnceInDistinct(shares: seq<RegionShare>, a: nat)
    requires DistinctRegions(shares) && a < |shares|
    ensures multiset(shares)[shares[a]] == 1
  {
    var left, right := shares[..a], shares[a + 1..];
    assert shares == left + [shares[a]] + right;
    assert shares[a] !in left && shares[a] !in right;
  }

  /** Headroom in a region: the largest share that fails over to it, never the sum. */
  lemma HeadroomAt(pairs: Pairs, regions: seq<RegionShare>, region: string)
    ensures CusAt(Headroom(pairs, MultiRegion, regions), region) == LargestTo(Targets(pairs, regions), regions, region)
    ensures DistinctRegions(Headroom(pairs, MultiRegion, regions))
  {
    var gathered := Gather(Targets(pairs, regions), regions, []);
    GatherAt(Targets(pairs, regions), regions, [], region);
    SortAt(gathered, region);
  }

  lemma RegionOrder()
    ensures TotalOrder(ByRegion)
  {
    forall a: RegionShare, b: RegionShare
      ensures ByRegion(a, b) || ByRegion(b, a)
    {
      NameLeqTotal(a.region, b.region);
    }
    forall a: RegionShare, b: RegionShare, c: RegionShare | ByRegion(a, b) && ByRegion(b, c)
      ensures ByRegion(a, c)
    {
      NameLeqTransitive(a.region, b.region, c.region);
    }
  }

  /** Headroom is listed in the order of region names. */
  lemma HeadroomSorted(pairs: Pairs, sku: Sku, regions: seq<RegionShare>)
    ensures SortedBy(ByRegion, Headroom(pairs, sku, regions))
  {
    RegionOrder();
    SortSorted(ByRegion, Gather(Targets(pairs, regions), regions, []));
  }

  /** Headroom and footprint of a whole split are whole. */
  lemma HeadroomWhole(pairs: Pairs, sku: Sku, regions: seq<RegionShare>)
    requires Whole(regions)
    ensures Whole(Headroom(pairs, sku, regions)) && Whole(Footprint(regions, Headroom(pairs, sku, regions)))
  {
    if sku == MultiRegion {
      var gathered := Gather(Targets(pairs, regions), regions, []);
      GatherAt(Targets(pairs, regions), regions, [], "");
      TargetsPositive(pairs, regions, 0);
      GatherPositive(Targets(pairs, regions), regions, []);
      SortAt(gathered, "");
      SortContents(ByRegion, gathered);
      assert forall s :: s in Sort(ByRegion, gathered) ==> s in gathered;
    }
    FootprintWhole(regions, Headroom(pairs, sku, regions));
  }

  lemma {:induction false} TargetsPositive(pairs: Pairs, regions: seq<RegionShare>, i: nat)
    requires i <= |regions| && Whole(regions)
    ensures forall t :: t in TargetsFrom(pairs, regions, i) ==> CusAt(regions, t.0) > 0
    decreases |regions| - i
  {
    if i < |regions| {
      TargetsPositive(pairs, regions, i + 1);
      CusAtHas(regions, regions[i].region);
      assert regions[i] in regions;
    }
  }

  lemma {:induction false} GatherPositive(targets: seq<(string, string)>, regions: seq<RegionShare>, out: seq<RegionShare>)
    requires forall t :: t in targets ==> CusAt(regions, t.0) > 0
    requires forall s :: s in out ==> s.cus > 0
    ensures forall s :: s in Gather(targets, regions, out) ==> s.cus > 0
    decreases |targets|
  {
    if targets != [] {
      assert targets[0] in targets;
      AtLeastPositive(out, targets[0].1, CusAt(regions, targets[0].0));
      GatherPositive(targets[1..], regions, AtLeast(out, targets[0].1, CusAt(regions, targets[0].0)));
    }
  }

  lemma {:induction false} AtLeastPositive(out: seq<RegionShare>, to: string, cus: nat)
    requires cus > 0 && forall s :: s in out ==> s.cus > 0
    ensures forall s :: s in AtLeast(out, to, cus) ==> s.cus > 0
  {
    if out != [] {
      AtLeastPositive(out[1..], to, cus);
    }
  }

  lemma {:induction false} FootprintWhole(regions: seq<RegionShare>, headroom: seq<RegionShare>)
    requires Whole(regions) && Whole(headroom)
    ensures Whole(Footprint(regions, headroom))
    decreases |headroom|
  {
    if headroom != [] {
      assert headroom[0] in headroom;
      AddShareDistinct(regions, headroom[0]);
      AddSharePositive(regions, headroom[0]);
      FootprintWhole(AddShare(regions, headroom[0]), headroom[1..]);
    }
  }

  lemma {:induction false} AddSharePositive(out: seq<RegionShare>, h: RegionShare)
    requires h.cus > 0 && forall s :: s in out ==> s.cus > 0
    ensures forall s :: s in AddShare(out, h) ==> s.cus > 0
  {
    if out != [] {
      AddSharePositive(out[1..], h);
    }
  }

  /** Every target is another region of the reservation, or a configured pair it holds. */
  lemma {:induction false} TargetsAreHeld(pairs: Pairs, regions: seq<RegionShare>, i: nat)
    requires i <= |regions|
    ensures forall t :: t in TargetsFrom(pairs, regions, i) ==> Has(regions, t.1)
    ensures (forall f :: f in pairs ==> pairs[f] != f) ==> forall t :: t in TargetsFrom(pairs, regions, i) ==> t.1 != t.0
    decreases |regions| - i
  {
    if i < |regions| {
      TargetsAreHeld(pairs, regions, i + 1);
      LargestOtherIsHeld(regions, 0, regions[i].region, None);
    }
  }

  lemma {:induction false} LargestToHas(targets: seq<(string, string)>, regions: seq<RegionShare>, region: string)
    requires LargestTo(targets, regions, region) > 0
    ensures exists t :: t in targets && t.1 == region
  {
    if targets[0].1 != region {
      LargestToHas(targets[1..], regions, region);
    }
  }

  /** Headroom is kept only in regions the reservation holds. */
  lemma HeadroomIsHeld(pairs: Pairs, sku: Sku, regions: seq<RegionShare>, region: string)
    requires CusAt(Headroom(pairs, sku, regions), region) > 0
    ensures Has(regions, region)
  {
    HeadroomAt(pairs, regions, region);
    LargestToHas(Targets(pairs, regions), regions, region);
    TargetsAreHeld(pairs, regions, 0);
  }

  function Names(shares: seq<RegionShare>): set<string> {
    set s | s in shares :: s.region
  }

  lemma {:induction false} DistinctNames(shares: seq<RegionShare>)
    requires DistinctRegions(shares)
    ensures |Names(shares)| == |shares|
  {
    if shares != [] {
      var rest := shares[1..];
      DistinctNames(rest);
      NamesHead(shares);
      NamesHas(rest, shares[0].region);
      hide Names, DistinctRegions;
      assert !Has(rest, shares[0].region) by {
        HeadIsNew(shares);
      }
    }
  }

  lemma NamesHead(shares: seq<RegionShare>)
    requires shares != []
    ensures Names(shares) == {shares[0].region} + Names(shares[1..])
  {
    assert shares == [shares[0]] + shares[1..];
  }

  lemma HeadIsNew(shares: seq<RegionShare>)
    requires shares != [] && DistinctRegions(shares)
    ensures !Has(shares[1..], shares[0].region)
  {
  }

  lemma NamesHas(shares: seq<RegionShare>, region: string)
    ensures region in Names(shares) <==> Has(shares, region)
  {
    if Has(shares, region) {
      var i :| 0 <= i < |shares| && shares[i].region == region;
      assert shares[i] in shares;
    }
  }

  /** As many distinct regions, all among the old ones: the same regions. */
  lemma SameRegions(old_: seq<RegionShare>, new_: seq<RegionShare>, region: string)
    requires DistinctRegions(old_) && DistinctRegions(new_) && |old_| == |new_|
    requires forall n :: n in new_ ==> Has(old_, n.region)
    ensures Has(old_, region) ==> Has(new_, region)
  {
    DistinctNames(old_);
    DistinctNames(new_);
    forall r | r in Names(new_)
      ensures r in Names(old_)
    {
      NamesHas(old_, r);
    }
    assert |Names(old_) - Names(new_)| == |Names(old_)| - |Names(new_)|;
    assert Names(old_) - Names(new_) == {};
    NamesHas(old_, region);
    NamesHas(new_, region);
  }

  lemma {:induction false} LargestOtherIsHeld(regions: seq<RegionShare>, i: nat, from: string, best: Option<RegionShare>)
    requires i <= |regions|
    requires best.Some? ==> Has(regions, best.value.region) && best.value.region != from
    ensures var r := LargestOther(regions[i..], from, best);
      && (r.Some? ==> Has(regions, r.value.region) && r.value.region != from)
      && (best.Some? ==> r.Some? && best.value.cus <= r.value.cus)
    ensures var r := LargestOther(regions[i..], from, best);
      forall j :: i <= j < |regions| && regions[j].region != from ==> r.Some? && regions[j].cus <= r.value.cus
    decreases |regions| - i
  {
    if i < |regions| {
      var s := regions[i];
      assert regions[i..][1..] == regions[i + 1..];
      assert Has(regions, s.region);
      var next := if s.region == from then best
                  else if best.None? || best.value.cus < s.cus || (best.value.cus == s.cus && NameLeq(s.region, best.value.region)) then Some(s)
                  else best;
      LargestOtherIsHeld(regions, i + 1, from, next);
    }
  }

  /** `s` is a share of another region than `from`, and the largest of those; of equally large
      ones, the first by name. */
  predicate LargestElsewhere(regions: seq<RegionShare>, from: string, s: RegionShare) {
    && s in regions && s.region != from
    && forall o :: o in regions && o.region != from ==> o.cus < s.cus || (o.cus == s.cus && NameLeq(s.region, o.region))
  }

  lemma {:induction false} LargestOtherIs(regions: seq<RegionShare>, i: nat, from: string, best: Option<RegionShare>)
    requires i <= |regions|
    requires best.Some? ==> LargestElsewhere(regions[..i], from, best.value)
    requires best.None? ==> forall s :: s in regions[..i] ==> s.region == from
    ensures var r := LargestOther(regions[i..], from, best);
      if r.None? then forall s :: s in regions ==> s.region == from else LargestElsewhere(regions, from, r.value)
    decreases |regions| - i
  {
    if i < |regions| {
      hide LargestElsewhere;
      var s := regions[i];
      assert regions[i..][1..] == regions[i + 1..];
      assert regions[..i + 1] == regions[..i] + [s];
      var next := if s.region == from then best
                  else if best.None? || best.value.cus < s.cus || (best.value.cus == s.cus && NameLeq(s.region, best.value.region)) then Some(s)
                  else best;
      LargestOneMore(regions[..i], from, best, s, next);
      LargestOtherIs(regions, i + 1, from, next);
    } else {
      assert regions[..i] == regions;
    }
  }

  lemma LargestOneMore(seen: seq<RegionShare>, from: string, best: Option<RegionShare>, s: RegionShare, next: Option<RegionShare>)
    requires best.Some? ==> LargestElsewhere(seen, from, best.value)
    requires best.None? ==> forall o :: o in seen ==> o.region == from
    requires next == if s.region == from then best
                     else if best.None? || best.value.cus < s.cus || (best.value.cus == s.cus && NameLeq(s.region, best.value.region)) then Some(s)
                     else best
    ensures next.Some? ==> LargestElsewhere(seen + [s], from, next.value)
    ensures next.None? ==> forall o :: o in seen + [s] ==> o.region == from
  {
    hide NameLeq;
    NameLeqTotal(s.region, s.region);
    if next == Some(s) {
      forall o | o in seen + [s] && o.region != from
        ensures o.cus < s.cus || (o.cus == s.cus && NameLeq(s.region, o.region))
      {
        if o in seen && o.cus == s.cus {
          NameLeqTransitive(s.region, best.value.region, o.region);
        }
      }
    } else if best.Some? {
      NameLeqTotal(s.region, best.value.region);
    }
  }

  /** Where a region of a split fails over: to its configured pair if the split has a share
      there, and else to the largest other share. */
  predicate FailsOverTo(pairs: Pairs, regions: seq<RegionShare>, from: string, to: string) {
    && Has(regions, from)
    && if from in pairs && Has(regions, pairs[from]) then to == pairs[from]
       else exists s :: s in regions && s.region == to && LargestElsewhere(regions, from, s)
  }

  /** The targets are exactly those. */
  lemma {:induction false} TargetsAre(pairs: Pairs, regions: seq<RegionShare>, i: nat, from: string, to: string)
    requires i <= |regions| && DistinctRegions(regions)
    ensures (from, to) in TargetsFrom(pairs, regions, i) <==>
      FailsOverTo(pairs, regions, from, to) && exists k :: i <= k < |regions| && regions[k].region == from
    decreases |regions| - i
  {
    if i < |regions| {
      TargetsAre(pairs, regions, i + 1, from, to);
      TargetIs(pairs, regions, regions[i].region, to);
      assert Has(regions, regions[i].region);
      hide TargetOf, FailsOverTo;
    }
  }

  lemma TargetIs(pairs: Pairs, regions: seq<RegionShare>, from: string, to: string)
    requires Has(regions, from) && DistinctRegions(regions)
    ensures TargetOf(pairs, regions, from) == Some(to) <==> FailsOverTo(pairs, regions, from, to)
  {
    hide LargestElsewhere;
    LargestOtherIs(regions, 0, from, None);
    assert regions[0..] == regions;
    var r := LargestOther(regions, from, None);
    if r.None? {
      forall s | s in regions
        ensures !LargestElsewhere(regions, from, s)
      {
        ElsewhereIs(regions, from, s);
      }
    } else {
      forall s | s in regions && LargestElsewhere(regions, from, s)
        ensures s.region == r.value.region
      {
        LargestIsOne(regions, from, s, r.value);
      }
      ElsewhereIs(regions, from, r.value);
    }
  }

  lemma ElsewhereIs(regions: seq<RegionShare>, from: string, s: RegionShare)
    ensures LargestElsewhere(regions, from, s) ==> s in regions && s.region != from
  {
  }

  lemma LargestIsOne(regions: seq<RegionShare>, from: string, a: RegionShare, b: RegionShare)
    requires LargestElsewhere(regions, from, a) && LargestElsewhere(regions, from, b)
    ensures a.region == b.region
  {
    NameLeqTotal(a.region, b.region);
  }

  /** Headroom in a region covers every share that fails over to it, and is one of them. */
  lemma HeadroomIs(pairs: Pairs, regions: seq<RegionShare>, region: string)
    requires DistinctRegions(regions)
    ensures var h := CusAt(Headroom(pairs, MultiRegion, regions), region);
      && (forall from :: FailsOverTo(pairs, regions, from, region) ==> CusAt(regions, from) <= h)
      && (h > 0 ==> exists from :: FailsOverTo(pairs, regions, from, region) && CusAt(regions, from) == h)
  {
    hide FailsOverTo;
    var targets := Targets(pairs, regions);
    HeadroomAt(pairs, regions, region);
    LargestToIs(targets, regions, region);
    forall from
      ensures (from, region) in targets <==> FailsOverTo(pairs, regions, from, region)
    {
      TargetsAre(pairs, regions, 0, from, region);
      FailsOverFrom(pairs, regions, from, region);
    }
  }

  lemma FailsOverFrom(pairs: Pairs, regions: seq<RegionShare>, from: string, to: string)
    ensures FailsOverTo(pairs, regions, from, to) ==> exists k :: 0 <= k < |regions| && regions[k].region == from
  {
  }

  lemma {:induction false} LargestToIs(targets: seq<(string, string)>, regions: seq<RegionShare>, region: string)
    ensures var h := LargestTo(targets, regions, region);
      && (forall from :: (from, region) in targets ==> CusAt(regions, from) <= h)
      && (h > 0 ==> exists from :: (from, region) in targets && CusAt(regions, from) == h)
  {
    if targets != [] {
      LargestToIs(targets[1..], regions, region);
      assert targets == [targets[0]] + targets[1..];
      if targets[0].1 == region {
        assert (targets[0].0, region) in targets;
      }
    }
  }

  // ---------------------------------------------------------------------------
  // Incidents: DNS weight and activation
  // ---------------------------------------------------------------------------

  datatype Incident = Incident(region: string, id: string, started: int, ended: Option<int>)

  /** What a snapshot carries of an incident. */
  datatype RegionFailover = RegionFailover(region: string, incident: string, started: nat, ended: Option<nat>, ramp: nat)

  function WeightDuring(i: Incident, now: int, ramp: nat): real {
    match i.ended
    case None => 0.0
    case Some(end) =>
      if now <= end then 0.0
      else if ramp == 0 then 1.0
      else MinReal((now - end) as real / ramp as real, 1.0)
  }

  function MinReal(a: real, b: real): real {
    if a < b then a else b
  }

  function MaxReal(a: real, b: real): real {
    if a > b then a else b
  }

  /** The least weight any started incident of the region allows. */
  function RegionWeight(region: string, incidents: seq<Incident>, now: int, ramp: nat): real {
    if incidents == [] then 1.0
    else
      var last := incidents[|incidents| - 1];
      var rest := RegionWeight(region, incidents[..|incidents| - 1], now, ramp);
      if last.region == region && last.started <= now then MinReal(WeightDuring(last, now, ramp), rest) else rest
  }

  /** `region_weight`, with the incident that set the weight. */
  method ComputeRegionWeight(region: string, incidents: seq<Incident>, now: int, ramp: nat)
    returns (weight: real, cause: Option<string>)
    ensures weight == RegionWeight(region, incidents, now, ramp)
    ensures cause.None? <==> weight == 1.0
    ensures cause.Some? ==> exists i :: i in incidents && i.id == cause.value && i.region == region
                                        && i.started <= now && WeightDuring(i, now, ramp) == weight
  {
    weight, cause := 1.0, None;
    for k := 0 to |incidents|
      invariant weight == RegionWeight(region, incidents[..k], now, ramp) && weight <= 1.0
      invariant cause.None? <==> weight == 1.0
      invariant cause.Some? ==> exists i :: i in incidents[..k] && i.id == cause.value && i.region == region
                                            && i.started <= now && WeightDuring(i, now, ramp) == weight
    {
      assert incidents[..k + 1][..k] == incidents[..k];
      var i := incidents[k];
      assert i in incidents[..k + 1];
      if i.region == region && i.started <= now {
        var w := WeightDuring(i, now, ramp);
        if w < weight {
          weight, cause := w, Some(i.id);
        }
      }
    }
    assert incidents[..|incidents|] == incidents;
  }

  /** Traffic comes back evenly over the ramp. */
  lemma WeightRamps(i: Incident, now: int, ramp: nat)
    ensures var w := WeightDuring(i, now, ramp);
      if i.ended.None? || now <= i.ended.value then w == 0.0
      else if now - i.ended.value >= ramp then w == 1.0
      else w * ramp as real == (now - i.ended.value) as real
  {
    if i.ended.Some? && now > i.ended.value && ramp > 0 {
      var a, b := (now - i.ended.value) as real, ramp as real;
      QuotientAtLeastOne(a, b);
      QuotientBelowOne(a, b);
    }
  }

  lemma QuotientBelowOne(a: real, b: real)
    requires a >= 0.0 && b > 0.0
    ensures (a / b) * b == a && (a < b ==> a / b < 1.0)
  {
    var q := a / b;
    assert q * b == a;
    if q >= 1.0 {
      assert q * b >= 1.0 * b;
    }
  }

  /** A region's weight is the least any started incident of it allows, and 1 with none. */
  lemma {:induction false} RegionWeightIs(region: string, incidents: seq<Incident>, now: int, ramp: nat)
    ensures var w := RegionWeight(region, incidents, now, ramp);
      && (forall i :: i in incidents && i.region == region && i.started <= now ==> w <= WeightDuring(i, now, ramp))
      && w <= 1.0
      && (w < 1.0 ==> exists i :: i in incidents && i.region == region && i.started <= now && w == WeightDuring(i, now, ramp))
  {
    if incidents != [] {
      var n := |incidents| - 1;
      RegionWeightIs(region, incidents[..n], now, ramp);
      assert incidents == incidents[..n] + [incidents[n]];
      hide WeightDuring;
    }
  }

  function Millis(t: int): nat {
    Max(t, 0)
  }

  function AsFailover(i: Incident, ramp: nat): RegionFailover {
    RegionFailover(i.region, i.id, Millis(i.started), if i.ended.None? then None else Some(Millis(i.ended.value)), ramp)
  }

  /** Incidents that can activate failover now: open, or still ramping. */
  function Failovers(incidents: seq<Incident>, now: int, ramp: nat): seq<RegionFailover> {
    if incidents == [] then []
    else
      var last := incidents[|incidents| - 1];
      Failovers(incidents[..|incidents| - 1], now, ramp) +
      if last.ended.None? || last.ended.value + ramp > now then
        [AsFailover(last, ramp)]
      else []
  }

  function Activation(f: RegionFailover, now: nat): real {
    if now < f.started then 0.0
    else
      match f.ended
      case None => 1.0
      case Some(end) =>
        if now <= end then 1.0
        else if f.ramp == 0 then 0.0
        else MaxReal(1.0 - (now - end) as real / f.ramp as real, 0.0)
  }

  /** `fold(0.0, max)` over a region's failovers. */
  function LargestActivation(failovers: seq<RegionFailover>, region: string, now: nat): real {
    if failovers == [] then 0.0
    else
      var last := failovers[|failovers| - 1];
      var rest := LargestActivation(failovers[..|failovers| - 1], region, now);
      if last.region == region then MaxReal(rest, Activation(last, now)) else rest
  }

  lemma LargestActivationAppend(a: seq<RegionFailover>, f: RegionFailover, region: string, now: nat)
    ensures LargestActivation(a + [f], region, now)
         == if f.region == region then MaxReal(LargestActivation(a, region, now), Activation(f, now))
            else LargestActivation(a, region, now)
  {
    assert (a + [f])[..|a|] == a;
  }

  lemma {:induction false} ActivationRange(failovers: seq<RegionFailover>, region: string, now: nat)
    ensures 0.0 <= LargestActivation(failovers, region, now) <= 1.0
  {
    if failovers != [] {
      ActivationRange(failovers[..|failovers| - 1], region, now);
    }
  }

  /** A started incident lets through exactly what its failover does not take. */
  lemma WeightIsInactive(i: Incident, now: nat, ramp: nat)
    requires i.ended.Some? ==> i.ended.value >= 0
    ensures i.started <= now ==> WeightDuring(i, now, ramp) + Activation(AsFailover(i, ramp), now) == 1.0
    ensures i.started > now ==> Activation(AsFailover(i, ramp), now) == 0.0
    ensures i.ended.Some? && i.ended.value + ramp <= now && (ramp > 0 || i.ended.value < now) ==> WeightDuring(i, now, ramp) == 1.0
    ensures 0.0 <= WeightDuring(i, now, ramp) <= 1.0
  {
    if i.ended.Some? && now > i.ended.value && ramp > 0 {
      QuotientAtLeastOne((now - i.ended.value) as real, ramp as real);
    }
  }

  lemma QuotientAtLeastOne(a: real, b: real)
    requires a >= 0.0 && b > 0.0
    ensures 0.0 <= a / b && (a >= b ==> a / b >= 1.0)
  {
    var q := a / b;
    assert q * b == a;
    if q < 1.0 {
      assert q * b < 1.0 * b;
    }
  }

  /** The failover list, one incident at a time. */
  lemma FailoversStep(incidents: seq<Incident>, i: Incident, now: int, ramp: nat, region: string, t: nat)
    ensures LargestActivation(Failovers(incidents + [i], now, ramp), region, t)
         == if i.region == region && (i.ended.None? || i.ended.value + ramp > now)
            then MaxReal(LargestActivation(Failovers(incidents, now, ramp), region, t), Activation(AsFailover(i, ramp), t))
            else LargestActivation(Failovers(incidents, now, ramp), region, t)
  {
    assert (incidents + [i])[..|incidents|] == incidents;
    if i.ended.None? || i.ended.value + ramp > now {
      LargestActivationAppend(Failovers(incidents, now, ramp), AsFailover(i, ramp), region, t);
    } else {
      assert Failovers(incidents, now, ramp) + [] == Failovers(incidents, now, ramp);
    }
  }

  lemma RegionWeightStep(region: string, incidents: seq<Incident>, i: Incident, now: int, ramp: nat)
    ensures RegionWeight(region, incidents + [i], now, ramp)
         == if i.region == region && i.started <= now
            then MinReal(WeightDuring(i, now, ramp), RegionWeight(region, incidents, now, ramp))
            else RegionWeight(region, incidents, now, ramp)
  {
    assert (incidents + [i])[..|incidents|] == incidents;
  }

  /** An incident of the region that ends exactly now, with no ramp after it. */
  predicate EndsNow(i: Incident, region: string, now: int, ramp: nat) {
    i.region == region && i.started <= now && i.ended == Some(now) && ramp == 0
  }

  /** Started, and not yet ended. */
  predicate StillOpen(i: Incident, region: string, now: int) {
    i.region == region && i.started <= now && (i.ended.None? || i.ended.value > now)
  }

  lemma {:induction false} SumIsOneAwayFromTheEnd(region: string, incidents: seq<Incident>, now: nat, ramp: nat)
    requires forall i :: i in incidents && i.ended.Some? ==> i.ended.value >= 0
    requires forall i :: i in incidents ==> !EndsNow(i, region, now, ramp)
    ensures RegionWeight(region, incidents, now, ramp) + LargestActivation(Failovers(incidents, now, ramp), region, now) == 1.0
  {
    if incidents != [] {
      var n := |incidents| - 1;
      var rest, i := incidents[..n], incidents[n];
      assert incidents == rest + [i];
      SumIsOneAwayFromTheEnd(region, rest, now, ramp);
      ActivationRange(Failovers(rest, now, ramp), region, now);
      WeightIsInactive(i, now, ramp);
      FailoversStep(rest, i, now, ramp, region, now);
      RegionWeightStep(region, rest, i, now, ramp);
    }
  }

  /** Without a ramp both sides are all or nothing. */
  lemma {:induction false} SumWithoutRamp(region: string, incidents: seq<Incident>, now: nat)
    requires forall i :: i in incidents && i.ended.Some? ==> i.ended.value >= 0
    ensures LargestActivation(Failovers(incidents, now, 0), region, now)
         == if exists i :: i in incidents && StillOpen(i, region, now) then 1.0 else 0.0
    ensures RegionWeight(region, incidents, now, 0)
         == if exists i :: i in incidents && (StillOpen(i, region, now) || EndsNow(i, region, now, 0)) then 0.0 else 1.0
  {
    if incidents != [] {
      var n := |incidents| - 1;
      var rest, i := incidents[..n], incidents[n];
      assert incidents == rest + [i];
      SumWithoutRamp(region, rest, now);
      WeightIsInactive(i, now, 0);
      FailoversStep(rest, i, now, 0, region, now);
      RegionWeightStep(region, rest, i, now, 0);
      assert i in incidents;
    }
  }

  /** For every set of incidents, every moment and every region: the DNS weight and the
      largest active share of its failover entitlements add up to 1, except at the instant
      an incident ends with no ramp to follow and no other incident still open. */
  lemma WeightPlusActivationIsOne(region: string, incidents: seq<Incident>, now: nat, ramp: nat)
    requires forall i :: i in incidents && i.ended.Some? ==> i.ended.value >= 0
    ensures RegionWeight(region, incidents, now, ramp) + LargestActivation(Failovers(incidents, now, ramp), region, now) == 1.0
            <==> (exists i :: i in incidents && EndsNow(i, region, now, ramp)) ==> (exists i :: i in incidents && StillOpen(i, region, now))
  {
    if forall i :: i in incidents ==> !EndsNow(i, region, now, ramp) {
      SumIsOneAwayFromTheEnd(region, incidents, now, ramp);
    } else {
      SumWithoutRamp(region, incidents, now);
    }
  }

  /** At that instant DNS still sends nothing, and the snapshot has already dropped the
      failover. */
  lemma ZeroRampEndLeavesAGap()
    ensures exists incidents: seq<Incident> :: RegionWeight("r", incidents, 5, 0) == 0.0 && Failovers(incidents, 5, 0) == []
  {
    var i := Incident("r", "1", 0, Some(5));
    assert [i][..0] == [];
    assert RegionWeight("r", [i], 5, 0) == 0.0;
    assert Failovers([i], 5, 0) == [] + [];
  }

  // ---------------------------------------------------------------------------
  // Effective CUs stay within what the planner holds
  // ---------------------------------------------------------------------------

  datatype FailoverShare = FailoverShare(from: string, cus: nat)

  /** `failover_shares`: what `region` would take over for a Multi-region reservation. */
  function SharesTo(targets: seq<(string, string)>, regions: seq<RegionShare>, region: string): seq<FailoverShare> {
    if targets == [] then []
    else (if targets[0].1 == region then [FailoverShare(targets[0].0, CusAt(regions, targets[0].0))] else [])
         + SharesTo(targets[1..], regions, region)
  }

  function ActiveCus(cus: nat, active: real): real {
    cus as real * active
  }

  function FailoverCus(shares: seq<FailoverShare>, failovers: seq<RegionFailover>, now: nat): real {
    if shares == [] then 0.0
    else ActiveCus(shares[0].cus, LargestActivation(failovers, shares[0].from, now)) + FailoverCus(shares[1..], failovers, now)
  }

  function EffectiveCus(own: nat, shares: seq<FailoverShare>, failovers: seq<RegionFailover>, now: nat): real {
    own as real + FailoverCus(shares, failovers, now)
  }

  lemma {:induction false} QuietRegionInactive(incidents: seq<Incident>, now: int, ramp: nat, region: string, t: nat)
    requires forall i :: i in incidents ==> i.region != region
    ensures LargestActivation(Failovers(incidents, now, ramp), region, t) == 0.0
  {
    if incidents != [] {
      var n := |incidents| - 1;
      QuietRegionInactive(incidents[..n], now, ramp, region, t);
      assert incidents == incidents[..n] + [incidents[n]];
      FailoversStep(incidents[..n], incidents[n], now, ramp, region, t);
    }
  }

  predicate DistinctFroms(targets: seq<(string, string)>) {
    forall i, j :: 0 <= i < j < |targets| ==> targets[i].0 != targets[j].0
  }

  /** One more target: its share counts if it goes to `region`. */
  lemma FailoverCusStep(targets: seq<(string, string)>, regions: seq<RegionShare>, region: string,
                        failovers: seq<RegionFailover>, now: nat)
    requires targets != []
    ensures FailoverCus(SharesTo(targets, regions, region), failovers, now)
         == FailoverCus(SharesTo(targets[1..], regions, region), failovers, now)
            + if targets[0].1 == region
              then ActiveCus(CusAt(regions, targets[0].0), LargestActivation(failovers, targets[0].0, now)) else 0.0
  {
    var rest := SharesTo(targets[1..], regions, region);
    if targets[0].1 == region {
      assert SharesTo(targets, regions, region)[1..] == rest;
    } else {
      assert SharesTo(targets, regions, region) == rest;
    }
  }

  lemma {:induction false} QuietSharesInactive(targets: seq<(string, string)>, regions: seq<RegionShare>, region: string,
                                               failovers: seq<RegionFailover>, now: nat)
    requires forall t :: t in targets ==> LargestActivation(failovers, t.0, now) == 0.0
    ensures FailoverCus(SharesTo(targets, regions, region), failovers, now) == 0.0
  {
    if targets != [] {
      FailoverCusStep(targets, regions, region, failovers, now);
      assert targets[0] in targets;
      ShareAtMost(CusAt(regions, targets[0].0), 0.0);
      QuietSharesInactive(targets[1..], regions, region, failovers, now);
    }
  }

  /** With one failed region, at most one share is active. */
  lemma {:induction false} FailoverCusBound(targets: seq<(string, string)>, regions: seq<RegionShare>, region: string,
                                            failovers: seq<RegionFailover>, now: nat, failed: string)
    requires DistinctFroms(targets)
    requires forall r :: r != failed ==> LargestActivation(failovers, r, now) == 0.0
    ensures FailoverCus(SharesTo(targets, regions, region), failovers, now) <= LargestTo(targets, regions, region) as real
  {
    if targets != [] {
      FailoverCusStep(targets, regions, region, failovers, now);
      if targets[0].0 == failed {
        forall t | t in targets[1..]
          ensures LargestActivation(failovers, t.0, now) == 0.0
        {
          var i :| 0 <= i < |targets[1..]| && targets[1..][i] == t;
          assert targets[i + 1] == t;
        }
        QuietSharesInactive(targets[1..], regions, region, failovers, now);
        ActivationRange(failovers, failed, now);
        ShareAtMost(CusAt(regions, failed), LargestActivation(failovers, failed, now));
      } else {
        ShareAtMost(CusAt(regions, targets[0].0), 0.0);
        FailoverCusBound(targets[1..], regions, region, failovers, now, failed);
      }
    }
  }

  lemma ShareAtMost(cus: nat, a: real)
    requires 0.0 <= a <= 1.0
    ensures 0.0 <= ActiveCus(cus, a) <= cus as real
    ensures a == 0.0 ==> ActiveCus(cus, a) == 0.0
  {
    MulWithin(cus as real, a);
  }

  lemma MulWithin(c: real, a: real)
    requires 0.0 <= c && 0.0 <= a <= 1.0
    ensures 0.0 <= c * a <= c
  {
    assert c * (1.0 - a) >= 0.0;
    assert c * (1.0 - a) == c - c * a;
  }

  lemma {:induction false} TargetsDistinct(pairs: Pairs, regions: seq<RegionShare>, i: nat)
    requires DistinctRegions(regions) && i <= |regions|
    ensures DistinctFroms(TargetsFrom(pairs, regions, i))
    ensures forall t :: t in TargetsFrom(pairs, regions, i) ==> exists k :: i <= k < |regions| && regions[k].region == t.0
    decreases |regions| - i
  {
    if i < |regions| {
      TargetsDistinct(pairs, regions, i + 1);
      var rest := TargetsFrom(pairs, regions, i + 1);
      forall j | 0 <= j < |rest|
        ensures rest[j].0 != regions[i].region
      {
        assert rest[j] in rest;
      }
    }
  }

  /** While only one region has incidents, what a reservation may use in any region is at
      most what the planner holds for it there. */
  lemma EffectiveWithinFootprint(pairs: Pairs, split: seq<RegionShare>, incidents: seq<Incident>, failed: string,
                                 region: string, seen: int, ramp: nat, now: nat)
    requires DistinctRegions(split)
    requires forall i :: i in incidents ==> i.region == failed
    ensures EffectiveCus(CusAt(split, region), SharesTo(Targets(pairs, split), split, region), Failovers(incidents, seen, ramp), now)
            <= CusAt(Footprint(split, Headroom(pairs, MultiRegion, split)), region) as real
  {
    var failovers := Failovers(incidents, seen, ramp);
    forall r | r != failed
      ensures LargestActivation(failovers, r, now) == 0.0
    {
      QuietRegionInactive(incidents, seen, ramp, r, now);
    }
    TargetsDistinct(pairs, split, 0);
    FailoverCusBound(Targets(pairs, split), split, region, failovers, now, failed);
    HeadroomAt(pairs, split, region);
    FootprintAt(split, Headroom(pairs, MultiRegion, split), region);
  }

  /** With one failed region, the share that is active is that of its target. */
  lemma {:induction false} FailoverCusIs(targets: seq<(string, string)>, regions: seq<RegionShare>, region: string,
                                         failovers: seq<RegionFailover>, now: nat, failed: string)
    requires DistinctFroms(targets)
    requires forall r :: r != failed ==> LargestActivation(failovers, r, now) == 0.0
    ensures FailoverCus(SharesTo(targets, regions, region), failovers, now)
         == if (failed, region) in targets then ActiveCus(CusAt(regions, failed), LargestActivation(failovers, failed, now)) else 0.0
  {
    hide LargestActivation, ActiveCus, CusAt;
    if targets != [] {
      FailoverCusStep(targets, regions, region, failovers, now);
      assert targets == [targets[0]] + targets[1..];
      if targets[0].0 == failed {
        forall t | t in targets[1..]
          ensures t.0 != failed && LargestActivation(failovers, t.0, now) == 0.0
        {
          var i :| 0 <= i < |targets[1..]| && targets[1..][i] == t;
          assert targets[i + 1] == t;
        }
        QuietSharesInactive(targets[1..], regions, region, failovers, now);
      } else {
        ShareAtMost(CusAt(regions, targets[0].0), 0.0);
        FailoverCusIs(targets[1..], regions, region, failovers, now, failed);
      }
    }
  }

  /** While only one region has incidents, what its target may use beyond its own share is the
      failed share times the traffic that region has lost; other regions use their own. */
  lemma TargetTakesOver(pairs: Pairs, split: seq<RegionShare>, incidents: seq<Incident>, failed: string, region: string, ramp: nat, now: nat)
    requires DistinctRegions(split)
    requires forall i :: i in incidents ==> i.region == failed && (i.ended.Some? ==> i.ended.value >= 0)
    requires forall i :: i in incidents ==> !EndsNow(i, failed, now, ramp)
    ensures EffectiveCus(CusAt(split, region), SharesTo(Targets(pairs, split), split, region), Failovers(incidents, now, ramp), now)
         == CusAt(split, region) as real
            + if FailsOverTo(pairs, split, failed, region) then CusAt(split, failed) as real * (1.0 - RegionWeight(failed, incidents, now, ramp)) else 0.0
  {
    hide LargestActivation, CusAt, RegionWeight, SharesTo, FailoverCus, Failovers, FailsOverTo;
    var failovers := Failovers(incidents, now, ramp);
    forall r | r != failed
      ensures LargestActivation(failovers, r, now) == 0.0
    {
      QuietRegionInactive(incidents, now, ramp, r, now);
    }
    TargetsDistinct(pairs, split, 0);
    FailoverCusIs(Targets(pairs, split), split, region, failovers, now, failed);
    TargetsAre(pairs, split, 0, failed, region);
    FailsOverFrom(pairs, split, failed, region);
    SumIsOneAwayFromTheEnd(failed, incidents, now, ramp);
  }
}
