/**
 The billing timeline (crates/pt-control-plane/src/billing.rs): when a reservation was
 billable and at what rate, and a month's fee lines. Times are integers; rounding of
 amounts is not part of the model.
 */
module Billing {
  import opened Prelude
  import opened Capacity
  import opened Sorting

  /** The events that matter; `cus` of a change applied is its regions' total. */
  datatype Kind =
    | Created(cus: nat, monthly: nat)
    | Activated(withCus: Option<nat>, withTier: Option<Tier>, withMonthly: Option<nat>)
    | Increased(was: nat, to: nat, withCus: Option<nat>, withMonthly: Option<nat>)
    | Applied(tier: Tier, cus: nat, withMonthly: Option<nat>)
    | Renewed(monthly: nat)
    | Closed
    | Other

  datatype Event = Event(at: int, kind: Kind)

  datatype Rate = Rate(cus: nat, tier: Tier, monthly: nat)

  /** A stretch of time at one rate. */
  datatype Segment = Segment(from: int, to: int, rate: Rate)

  type Price = (Tier, nat) -> nat

  /** As far as billing goes. */
  datatype Account = Account(events: seq<Event>, cus: nat, tier: Tier, pendingCancellation: bool, termEnd: int)

  // ---------------------------------------------------------------------------
  // The loop over events
  // ---------------------------------------------------------------------------

  datatype Meter = Meter(open: Option<int>, rate: Rate, out: seq<Segment>)

  /** Close the open stretch at `at`; open the next one if `still`. */
  function Change(m: Meter, at: int, still: bool): Meter {
    Meter(if still then Some(at) else None, m.rate,
          if m.open.Some? && at > m.open.value then m.out + [Segment(m.open.value, at, m.rate)] else m.out)
  }

  function OrElse(o: Option<nat>, d: nat): nat {
    if o.Some? then o.value else d
  }

  function Priced(price: Price, tier: Tier, cus: nat, given: Option<nat>): Rate {
    Rate(cus, tier, if given.Some? then given.value else price(tier, cus))
  }

  function Fed(price: Price, m: Meter, e: Event): Meter {
    match e.kind
    case Created(c, monthly) => m.(rate := m.rate.(cus := c, monthly := monthly))
    case Activated(c, t, monthly) =>
      var closed := Change(m, e.at, false);
      closed.(open := Some(e.at),
              rate := Priced(price, if t.Some? then t.value else m.rate.tier, OrElse(c, m.rate.cus), monthly))
    case Increased(was, to, c, monthly) =>
      Change(m, e.at, m.open.Some?).(rate := Priced(price, m.rate.tier, OrElse(c, m.rate.cus + SaturatingSub(to, was)), monthly))
    case Applied(t, c, monthly) => Change(m, e.at, m.open.Some?).(rate := Priced(price, t, c, monthly))
    case Renewed(monthly) => Change(m, e.at, m.open.Some?).(rate := m.rate.(monthly := monthly))
    case Closed => Change(m, e.at, false)
    case Other => m
  }

  function FedAll(price: Price, m: Meter, events: seq<Event>): Meter {
    if events == [] then m else Fed(price, FedAll(price, m, events[..|events| - 1]), events[|events| - 1])
  }

  predicate ByTime(a: Event, b: Event) {
    a.at <= b.at
  }

  function Before(events: seq<Event>, until: int): seq<Event> {
    if events == [] then []
    else (if events[0].at < until then [events[0]] else []) + Before(events[1..], until)
  }

  function Begin(price: Price, a: Account): Meter {
    Meter(None, Rate(a.cus, a.tier, price(a.tier, a.cus)), [])
  }

  /** Never past a term that has run out. */
  function Stop(a: Account, until: int): int {
    if a.pendingCancellation then Min(until, a.termEnd) else until
  }

  function Finish(m: Meter, stop: int): seq<Segment> {
    if m.open.Some? && stop > m.open.value then m.out + [Segment(m.open.value, stop, m.rate)] else m.out
  }

  function Timeline(price: Price, a: Account, until: int): seq<Segment> {
    Finish(FedAll(price, Begin(price, a), Before(Sort(ByTime, a.events), until)), Stop(a, until))
  }

  method RateTimeline(price: Price, a: Account, until: int) returns (out: seq<Segment>)
    ensures out == Timeline(price, a, until)
  {
    var events := Before(Sort(ByTime, a.events), until);
    out := [];
    var rate := Rate(a.cus, a.tier, price(a.tier, a.cus));
    var open: Option<int> := None;
    for i := 0 to |events|
      invariant Meter(open, rate, out) == FedAll(price, Begin(price, a), events[..i])
    {
      assert events[..i + 1][..i] == events[..i];
      open, rate, out := Feed(price, open, rate, out, events[i]);
    }
    assert events[..|events|] == events;
    if open.Some? {
      var stop := if a.pendingCancellation then Min(until, a.termEnd) else until;
      if stop > open.value {
        out := out + [Segment(open.value, stop, rate)];
      }
    }
  }

  /** One event of the loop. */
  method Feed(price: Price, open0: Option<int>, rate0: Rate, out0: seq<Segment>, e: Event)
    returns (open: Option<int>, rate: Rate, out: seq<Segment>)
    ensures Meter(open, rate, out) == Fed(price, Meter(open0, rate0, out0), e)
  {
    open, rate, out := open0, rate0, out0;
    var active := open.Some?;
    match e.kind {
      case Created(c, monthly) =>
        rate := rate.(cus := c, monthly := monthly);
      case Activated(c, t, monthly) =>
        open, out := ChangeAt(open, rate, out, e.at, false);
        var cus := OrElse(c, rate.cus);
        var tier := if t.Some? then t.value else rate.tier;
        rate := Rate(cus, tier, if monthly.Some? then monthly.value else price(tier, cus));
        open := Some(e.at);
      case Increased(was, to, c, monthly) =>
        open, out := ChangeAt(open, rate, out, e.at, active);
        var cus := OrElse(c, rate.cus + SaturatingSub(to, was));
        rate := Rate(cus, rate.tier, if monthly.Some? then monthly.value else price(rate.tier, cus));
      case Applied(t, c, monthly) =>
        open, out := ChangeAt(open, rate, out, e.at, active);
        rate := Rate(c, t, if monthly.Some? then monthly.value else price(t, c));
      case Renewed(monthly) =>
        open, out := ChangeAt(open, rate, out, e.at, active);
        rate := rate.(monthly := monthly);
      case Closed =>
        open, out := ChangeAt(open, rate, out, e.at, false);
      case Other =>
    }
  }

  method ChangeAt(open0: Option<int>, rate: Rate, out0: seq<Segment>, at: int, still: bool) returns (open: Option<int>, out: seq<Segment>)
    ensures Meter(open, rate, out) == Change(Meter(open0, rate, out0), at, still)
  {
    open, out := open0, out0;
    if open.Some? {
      if at > open.value {
        out := out + [Segment(open.value, at, rate)];
      }
      open := None;
    }
    if still {
      open := Some(at);
    }
  }

  // ---------------------------------------------------------------------------
  // Segments are ordered, disjoint and non-empty
  // ---------------------------------------------------------------------------

  predicate Ordered(segs: seq<Segment>, until: int) {
    && (forall i :: 0 <= i < |segs| ==> segs[i].from < segs[i].to <= until)
    && (forall i, j :: 0 <= i < j < |segs| ==> segs[i].to <= segs[j].from)
  }

  /** Nothing metered is later than `last`. */
  predicate Metered(m: Meter, last: int) {
    && Ordered(m.out, last)
    && (m.open.Some? ==> m.open.value <= last && forall i :: 0 <= i < |m.out| ==> m.out[i].to <= m.open.value)
  }

  lemma ChangeMetered(m: Meter, at: int, still: bool, last: int)
    requires Metered(m, last) && at >= last
    ensures Metered(Change(m, at, still), at)
  {
  }

  lemma FedMetered(price: Price, m: Meter, e: Event, last: int)
    requires Metered(m, last) && e.at >= last
    ensures Metered(Fed(price, m, e), e.at)
  {
    ChangeMetered(m, e.at, m.open.Some?, last);
    ChangeMetered(m, e.at, false, last);
  }

  lemma {:induction false} FedAllMetered(price: Price, m: Meter, events: seq<Event>, last: int)
    requires Metered(m, last) && SortedBy(ByTime, events) && (forall e :: e in events ==> e.at >= last)
    ensures Metered(FedAll(price, m, events), if events == [] then last else events[|events| - 1].at)
  {
    if events != [] {
      var n := |events| - 1;
      FedAllMetered(price, m, events[..n], last);
      assert n > 0 ==> ByTime(events[n - 1], events[n]);
      assert events[n] in events;
      FedMetered(price, FedAll(price, m, events[..n]), events[n], if n == 0 then last else events[n - 1].at);
    }
  }

  lemma TimeIsTotal()
    ensures TotalOrder(ByTime)
  {
  }

  lemma {:induction false} NoneBefore(events: seq<Event>, until: int)
    requires forall i :: 0 <= i < |events| ==> events[i].at >= until
    ensures Before(events, until) == []
  {
    if events != [] {
      NoneBefore(events[1..], until);
    }
  }

  /** In sorted events, those before `until` are a prefix. */
  lemma {:induction false} SortedCut(events: seq<Event>, until: int) returns (c: nat)
    requires SortedBy(ByTime, events)
    ensures c <= |events| && Before(events, until) == events[..c]
    ensures forall i :: 0 <= i < |events| ==> (events[i].at < until <==> i < c)
  {
    c := 0;
    if events != [] {
      if events[0].at >= until {
        assert forall i :: 0 < i < |events| ==> ByTime(events[0], events[i]);
        NoneBefore(events, until);
      } else {
        var rest := SortedCut(events[1..], until);
        c := rest + 1;
        assert events[..c] == [events[0]] + events[1..][..rest];
        forall i | 0 <= i < |events|
          ensures events[i].at < until <==> i < c
        {
          assert i > 0 ==> events[1..][i - 1] == events[i];
        }
      }
    }
  }

  lemma FinishOrdered(m: Meter, last: int, stop: int, until: int)
    requires Metered(m, last) && last <= until && stop <= until
    ensures Ordered(Finish(m, stop), until)
  {
  }

  /** The events an account is metered by, in order, all before `until`. */
  function Told(a: Account, until: int): seq<Event> {
    Before(Sort(ByTime, a.events), until)
  }

  lemma ToldSorted(a: Account, until: int)
    ensures SortedBy(ByTime, Told(a, until)) && forall i :: 0 <= i < |Told(a, until)| ==> Told(a, until)[i].at < until
  {
    TimeIsTotal();
    SortSorted(ByTime, a.events);
    var sorted := Sort(ByTime, a.events);
    var c := SortedCut(sorted, until);
    forall i, j | 0 <= i < j < c
      ensures ByTime(sorted[..c][i], sorted[..c][j])
    {
      assert ByTime(sorted[i], sorted[j]);
    }
  }

  lemma ToldMetered(price: Price, a: Account, until: int)
    ensures Metered(FedAll(price, Begin(price, a), Told(a, until)), until)
    ensures var m := FedAll(price, Begin(price, a), Told(a, until));
      (m.open.Some? ==> m.open.value < until) && forall i :: 0 <= i < |m.out| ==> m.out[i].to < until
  {
    var told := Told(a, until);
    ToldSorted(a, until);
    if told != [] {
      forall e | e in told
        ensures e.at >= told[0].at
      {
        var i :| 0 <= i < |told| && told[i] == e;
        assert i > 0 ==> ByTime(told[0], told[i]);
      }
      FedAllMetered(price, Begin(price, a), told, told[0].at);
    }
  }

  /** Segments are in order, apart and not empty, and none runs past `until`. */
  lemma TimelineOrdered(price: Price, a: Account, until: int)
    ensures Ordered(Timeline(price, a, until), until)
  {
    ToldMetered(price, a, until);
    FinishOrdered(FedAll(price, Begin(price, a), Told(a, until)), until, Stop(a, until), until);
  }

  // ---------------------------------------------------------------------------
  // A timeline to an earlier moment is the later one cut short
  // ---------------------------------------------------------------------------

  function Cut(segs: seq<Segment>, u: int): seq<Segment> {
    if segs == [] then []
    else
      var s := segs[|segs| - 1];
      Cut(segs[..|segs| - 1], u) + (if s.from < u then [s.(to := Min(s.to, u))] else [])
  }

  lemma CutGrows(segs: seq<Segment>, s: Segment, u: int)
    ensures Cut(segs + [s], u) == Cut(segs, u) + (if s.from < u then [s.(to := Min(s.to, u))] else [])
  {
    assert (segs + [s])[..|segs|] == segs;
  }

  lemma {:induction false} CutNothing(segs: seq<Segment>, u: int)
    requires forall i :: 0 <= i < |segs| ==> segs[i].from < segs[i].to <= u
    ensures Cut(segs, u) == segs
  {
    if segs != [] {
      var n := |segs| - 1;
      CutNothing(segs[..n], u);
      assert segs == segs[..n] + [segs[n]];
    }
  }

  /** `m'` is `m` with events from `u` on fed to it: still as it was, or cut back to what `m`
      would have come to at `u`. */
  predicate FedFrom(m: Meter, m': Meter, u: int) {
    || (m'.open == m.open && m'.out == m.out && (m.open.Some? ==> m'.rate == m.rate))
    || (Cut(m'.out, u) == Finish(m, u) && (m'.open.Some? ==> m'.open.value >= u))
  }

  /** Closing at or after `u`. */
  lemma ChangeFrom(m: Meter, m': Meter, at: int, still: bool, u: int)
    requires FedFrom(m, m', u) && at >= u && (m.open.Some? ==> m.open.value < u)
    requires forall i :: 0 <= i < |m.out| ==> m.out[i].from < m.out[i].to <= u
    ensures Cut(Change(m', at, still).out, u) == Finish(m, u)
  {
    CutNothing(m.out, u);
    if m'.open.Some? {
      CutGrows(m'.out, Segment(m'.open.value, at, m'.rate), u);
    }
  }

  /** No reservation is created while it is being billed. */
  predicate CreatedFirst(price: Price, m: Meter, events: seq<Event>) {
    forall i :: 0 <= i < |events| && events[i].kind.Created? ==> FedAll(price, m, events[..i]).open.None?
  }

  lemma FedFromStep(price: Price, m: Meter, m': Meter, e: Event, u: int)
    requires FedFrom(m, m', u) && e.at >= u && (m.open.Some? ==> m.open.value < u)
    requires forall i :: 0 <= i < |m.out| ==> m.out[i].from < m.out[i].to <= u
    requires e.kind.Created? ==> m'.open.None?
    ensures FedFrom(m, Fed(price, m', e), u)
  {
    hide Cut, Finish;
    ChangeFrom(m, m', e.at, m'.open.Some?, u);
    ChangeFrom(m, m', e.at, false, u);
  }

  lemma {:induction false} FedAllFrom(price: Price, m: Meter, events: seq<Event>, u: int)
    requires (m.open.Some? ==> m.open.value < u) && forall i :: 0 <= i < |m.out| ==> m.out[i].from < m.out[i].to <= u
    requires forall i :: 0 <= i < |events| ==> events[i].at >= u
    requires CreatedFirst(price, m, events)
    ensures FedFrom(m, FedAll(price, m, events), u)
  {
    if events != [] {
      var n := |events| - 1;
      forall i | 0 <= i < n && events[..n][i].kind.Created?
        ensures FedAll(price, m, events[..n][..i]).open.None?
      {
        assert events[..n][..i] == events[..i];
      }
      FedAllFrom(price, m, events[..n], u);
      FedFromStep(price, m, FedAll(price, m, events[..n]), events[n], u);
    }
  }

  lemma FinishFrom(m: Meter, m': Meter, u: int, stop: int)
    requires FedFrom(m, m', u) && stop >= u && (m.open.Some? ==> m.open.value < u)
    requires forall i :: 0 <= i < |m.out| ==> m.out[i].from < m.out[i].to <= u
    ensures Cut(Finish(m', stop), u) == Finish(m, u)
  {
    CutNothing(m.out, u);
    if m'.open.Some? {
      CutGrows(m'.out, Segment(m'.open.value, stop, m'.rate), u);
    }
  }

  lemma {:induction false} FedAllAppend(price: Price, m: Meter, a: seq<Event>, b: seq<Event>)
    ensures FedAll(price, m, a + b) == FedAll(price, FedAll(price, m, a), b)
    decreases |b|
  {
    if b == [] {
      assert a + b == a;
    } else {
      var n := |b| - 1;
      assert (a + b)[..|a + b| - 1] == a + b[..n] && (a + b)[|a + b| - 1] == b[n];
      FedAllAppend(price, m, a, b[..n]);
    }
  }

  /** Later events come after those told before. */
  lemma ToldLater(a: Account, u: int, v: int) returns (rest: seq<Event>)
    requires u <= v
    ensures Told(a, v) == Told(a, u) + rest && forall i :: 0 <= i < |rest| ==> rest[i].at >= u
  {
    TimeIsTotal();
    SortSorted(ByTime, a.events);
    var sorted := Sort(ByTime, a.events);
    var cu := SortedCut(sorted, u);
    var cv := SortedCut(sorted, v);
    if cu > 0 {
      assert sorted[cu - 1].at < u;
    }
    rest := sorted[cu..cv];
    assert sorted[..cv] == sorted[..cu] + rest;
  }

  /** An event that ends an open stretch. */
  predicate Closes(k: Kind) {
    !k.Created? && !k.Other?
  }

  lemma ChangeCloses(m: Meter, at: int, still: bool, u: int)
    requires m.open.Some? && m.open.value < u <= at
    ensures Cut(Change(m, at, still).out, u) == Cut(m.out, u) + [Segment(m.open.value, u, m.rate)]
    ensures Change(m, at, still).open.Some? ==> Change(m, at, still).open.value == at
  {
    CutGrows(m.out, Segment(m.open.value, at, m.rate), u);
    hide Cut;
  }

  lemma FedCloses(price: Price, m: Meter, e: Event, u: int)
    requires m.open.Some? && m.open.value < u <= e.at && Closes(e.kind)
    ensures ClosedFrom(m, Fed(price, m, e), u)
  {
    hide Cut, Change, Priced;
    ChangeCloses(m, e.at, true, u);
    ChangeCloses(m, e.at, false, u);
  }

  /** `m'` is `m` with events from `u` on fed to it, one of which closed the stretch open at
      `u`: up to `u`, what `m` had and that stretch. */
  predicate ClosedFrom(m: Meter, m': Meter, u: int) {
    && m.open.Some? && Cut(m'.out, u) == Cut(m.out, u) + [Segment(m.open.value, u, m.rate)]
    && (m'.open.Some? ==> m'.open.value >= u)
  }

  lemma ClosedFromStep(price: Price, m: Meter, m': Meter, e: Event, u: int)
    requires ClosedFrom(m, m', u) && e.at >= u
    ensures ClosedFrom(m, Fed(price, m', e), u)
  {
    if m'.open.Some? {
      CutGrows(m'.out, Segment(m'.open.value, e.at, m'.rate), u);
      assert Cut(m'.out, u) + [] == Cut(m'.out, u);
    }
    hide Cut;
  }

  /** Feeding events from `u` on to an open meter: it stays as it is, but for what one of them
      closes. */
  lemma {:induction false} OpenFrom(price: Price, m: Meter, events: seq<Event>, u: int)
    requires m.open.Some? && m.open.value < u && CreatedFirst(price, m, events)
    requires forall i :: 0 <= i < |events| ==> events[i].at >= u
    ensures var m' := FedAll(price, m, events);
      if exists i :: 0 <= i < |events| && Closes(events[i].kind) then ClosedFrom(m, m', u) else m' == m
  {
    if events != [] {
      hide ClosedFrom, Cut;
      var n := |events| - 1;
      var front := events[..n];
      forall i | 0 <= i < n && front[i].kind.Created?
        ensures FedAll(price, m, front[..i]).open.None?
      {
        assert front[..i] == events[..i];
      }
      OpenFrom(price, m, front, u);
      var m' := FedAll(price, m, front);
      assert forall i :: 0 <= i < n ==> front[i] == events[i];
      if exists i :: 0 <= i < n && Closes(front[i].kind) {
        ClosedFromStep(price, m, m', events[n], u);
      } else if Closes(events[n].kind) {
        FedCloses(price, m, events[n], u);
      }
    }
  }

  /** Where a cancelled term ran out before `u` and a stretch is open there all the same, an
      event from `u` to `v` closes that stretch beyond the end of the term. */
  predicate BilledPast(price: Price, a: Account, u: int, v: int) {
    && a.pendingCancellation && a.termEnd < u && FedAll(price, Begin(price, a), Told(a, u)).open.Some?
    && exists e :: e in a.events && u <= e.at < v && Closes(e.kind)
  }

  lemma RestHas(a: Account, u: int, v: int, rest: seq<Event>)
    requires u <= v && Told(a, v) == Told(a, u) + rest && forall i :: 0 <= i < |rest| ==> rest[i].at >= u
    ensures (exists i :: 0 <= i < |rest| && Closes(rest[i].kind)) <==> exists e :: e in a.events && u <= e.at < v && Closes(e.kind)
  {
    ToldAre(a, u);
    ToldAre(a, v);
    hide Told, Closes;
    var told := Told(a, v);
    if exists i :: 0 <= i < |rest| && Closes(rest[i].kind) {
      var i :| 0 <= i < |rest| && Closes(rest[i].kind);
      assert told[|Told(a, u)| + i] == rest[i];
      assert rest[i] in told;
    }
    if exists e :: e in a.events && u <= e.at < v && Closes(e.kind) {
      var e :| e in a.events && u <= e.at < v && Closes(e.kind);
      assert e in told && e !in Told(a, u);
      var i :| 0 <= i < |told| && told[i] == e;
      assert i >= |Told(a, u)| && rest[i - |Told(a, u)|] == e;
    }
  }

  /** The events told are those before `until`. */
  lemma ToldAre(a: Account, until: int)
    ensures forall e :: e in Told(a, until) <==> e in a.events && e.at < until
  {
    var sorted := Sort(ByTime, a.events);
    TimeIsTotal();
    SortSorted(ByTime, a.events);
    SortContents(ByTime, a.events);
    var c := SortedCut(sorted, until);
    forall e
      ensures e in Told(a, until) <==> e in a.events && e.at < until
    {
      if e in sorted[..c] {
        var i :| 0 <= i < c && sorted[i] == e;
      }
      if e in sorted && e.at < until {
        var i :| 0 <= i < |sorted| && sorted[i] == e;
        assert sorted[..c][i] == e;
      }
    }
  }

  /** The later timeline cut short at an earlier moment: what was told by then, finished where
      the earlier one is, or at that moment if a cancelled term is billed past its end. */
  lemma CutIs(price: Price, a: Account, u: int, v: int)
    requires u <= v && CreatedFirst(price, Begin(price, a), Told(a, v))
    ensures Cut(Timeline(price, a, v), u)
         == Finish(FedAll(price, Begin(price, a), Told(a, u)), if BilledPast(price, a, u, v) then u else Stop(a, u))
  {
    hide Before, Fed, FedAll, Closes;
    var rest := ToldLater(a, u, v);
    var told := Told(a, u);
    var m := FedAll(price, Begin(price, a), told);
    var m' := FedAll(price, m, rest);
    ToldMetered(price, a, u);
    FedAllAppend(price, Begin(price, a), told, rest);
    RestCreatedFirst(price, a, told, rest);
    RestHas(a, u, v, rest);
    if !a.pendingCancellation || u <= a.termEnd {
      FedAllFrom(price, m, rest, u);
      FinishFrom(m, m', u, Stop(a, v));
    } else if m.open.None? {
      FedAllFrom(price, m, rest, u);
      IdleFrom(m, m', a.termEnd, u);
    } else {
      OpenFrom(price, m, rest, u);
      if exists i :: 0 <= i < |rest| && Closes(rest[i].kind) {
        PastIs(m, m', a.termEnd, u);
      } else {
        CutNothing(Finish(m, a.termEnd), u);
      }
    }
  }

  /** The timeline to an earlier moment is the later one cut short there, exactly unless a
      cancelled term is billed past its end. */
  lemma Truncation(price: Price, a: Account, u: int, v: int)
    requires u <= v && CreatedFirst(price, Begin(price, a), Told(a, v))
    ensures Cut(Timeline(price, a, v), u) == Timeline(price, a, u) <==> !BilledPast(price, a, u, v)
  {
    hide Told, FedAll, Cut;
    CutIs(price, a, u, v);
    ToldMetered(price, a, u);
    var m := FedAll(price, Begin(price, a), Told(a, u));
    TimelineIs(price, a, u);
    hide Timeline;
    if BilledPast(price, a, u, v) {
      assert Finish(m, u)[|m.out|].to == u;
    }
  }

  lemma RestCreatedFirst(price: Price, a: Account, told: seq<Event>, rest: seq<Event>)
    requires CreatedFirst(price, Begin(price, a), told + rest)
    ensures CreatedFirst(price, FedAll(price, Begin(price, a), told), rest)
  {
    var m := FedAll(price, Begin(price, a), told);
    hide FedAll;
    forall i | 0 <= i < |rest| && rest[i].kind.Created?
      ensures FedAll(price, m, rest[..i]).open.None?
    {
      assert (told + rest)[|told| + i] == rest[i] && (told + rest)[..|told| + i] == told + rest[..i];
      FedAllAppend(price, Begin(price, a), told, rest[..i]);
    }
  }

  lemma IdleFrom(m: Meter, m': Meter, stop: int, u: int)
    requires FedFrom(m, m', u) && m.open.None? && stop < u
    requires forall i :: 0 <= i < |m.out| ==> m.out[i].from < m.out[i].to <= u
    ensures Cut(Finish(m', stop), u) == Finish(m, stop)
  {
    CutNothing(m.out, u);
  }

  /** A stretch closed beyond `u` is cut at `u`, not at the end of the term. */
  lemma PastIs(m: Meter, m': Meter, stop: int, u: int)
    requires ClosedFrom(m, m', u) && stop < u && m.open.value < u
    requires forall i :: 0 <= i < |m.out| ==> m.out[i].from < m.out[i].to <= u
    ensures Cut(Finish(m', stop), u) == Finish(m, u)
  {
    CutNothing(m.out, u);
  }

  /** What the service writes: `Created` once, first, and nothing earlier. */
  predicate CreatedOnce(events: seq<Event>) {
    forall i :: 0 < i < |events| ==> !events[i].kind.Created? && events[0].at <= events[i].at
  }

  /** So `Created` never comes while billing. */
  lemma CreatedOnceIsFirst(price: Price, a: Account, until: int)
    requires CreatedOnce(a.events)
    ensures CreatedFirst(price, Begin(price, a), Told(a, until))
  {
    if a.events != [] {
      var rest := Sort(ByTime, a.events[1..]);
      SortContents(ByTime, a.events[1..]);
      forall e | e in rest
        ensures !e.kind.Created? && a.events[0].at <= e.at
      {
        var i :| 0 <= i < |a.events[1..]| && a.events[1..][i] == e;
        assert a.events[i + 1] == e;
      }
      var sorted := Sort(ByTime, a.events);
      assert sorted == [a.events[0]] + rest by {
        assert rest != [] ==> rest[0] in rest;
      }
      TimeIsTotal();
      SortSorted(ByTime, a.events);
      var c := SortedCut(sorted, until);
      forall i | 0 < i < |sorted|
        ensures !sorted[i].kind.Created?
      {
        assert sorted[i] == rest[i - 1] && rest[i - 1] in rest;
      }
      if c > 0 {
        assert sorted[..c][..0] == [];
      }
    }
  }

  // ---------------------------------------------------------------------------
  // The rate at an instant
  // ---------------------------------------------------------------------------

  /** Whether a reservation is being billed after some events, and at what rate. */
  datatype Charge = Charge(billing: bool, rate: Rate)

  function Charged(price: Price, c: Charge, e: Event): Charge {
    match e.kind
    case Created(n, monthly) => c.(rate := c.rate.(cus := n, monthly := monthly))
    case Activated(n, t, monthly) => Charge(true, Priced(price, if t.Some? then t.value else c.rate.tier, OrElse(n, c.rate.cus), monthly))
    case Increased(was, to, n, monthly) =>
      c.(rate := Priced(price, c.rate.tier, OrElse(n, c.rate.cus + SaturatingSub(to, was)), monthly))
    case Applied(t, n, monthly) => c.(rate := Priced(price, t, n, monthly))
    case Renewed(monthly) => c.(rate := c.rate.(monthly := monthly))
    case Closed => c.(billing := false)
    case Other => c
  }

  function ChargedAll(price: Price, c: Charge, events: seq<Event>): Charge {
    if events == [] then c else Charged(price, ChargedAll(price, c, events[..|events| - 1]), events[|events| - 1])
  }

  lemma {:induction false} MeterCharges(price: Price, m: Meter, events: seq<Event>)
    ensures var m', c := FedAll(price, m, events), ChargedAll(price, Charge(m.open.Some?, m.rate), events);
      m'.open.Some? == c.billing && m'.rate == c.rate
  {
    if events != [] {
      MeterCharges(price, m, events[..|events| - 1]);
    }
  }

  /** What an account is charged at `t`, from its events up to and including `t`; nothing once
      a cancelled term is over. */
  function ChargeAt(price: Price, a: Account, t: int): Option<Rate> {
    var c := ChargedAll(price, Charge(false, Begin(price, a).rate), Told(a, t + 1));
    if c.billing && (a.pendingCancellation ==> t < a.termEnd) then Some(c.rate) else None
  }

  /** The last of some events that says something, by what it says. */
  function Latest<T>(says: Kind -> Option<T>, events: seq<Event>): Option<T> {
    if events == [] then None
    else if says(events[|events| - 1].kind).Some? then says(events[|events| - 1].kind)
    else Latest(says, events[..|events| - 1])
  }

  /** None of `events` from `i` on says anything. */
  predicate Mute<T>(says: Kind -> Option<T>, events: seq<Event>, i: nat) {
    forall j :: i <= j < |events| ==> says(events[j].kind).None?
  }

  lemma {:induction false} LatestIs<T>(says: Kind -> Option<T>, events: seq<Event>)
    ensures var r := Latest(says, events);
      if r.None? then Mute(says, events, 0)
      else exists i :: 0 <= i < |events| && says(events[i].kind) == r && Mute(says, events, i + 1)
  {
    if events != [] {
      var n := |events| - 1;
      var before := events[..n];
      LatestIs(says, before);
      assert forall i :: 0 <= i < n ==> before[i] == events[i];
      if says(events[n].kind).Some? {
        assert Mute(says, events, n + 1);
      } else if Latest(says, before).Some? {
        var i :| 0 <= i < n && says(before[i].kind) == Latest(says, before) && Mute(says, before, i + 1);
        assert says(events[i].kind) == says(before[i].kind) && Mute(says, events, i + 1);
      }
    }
  }

  /** Whether an event starts or stops billing, the tier and the CUs it names, and the price it
      gives: none of its own if it leaves it to the price list. */
  function StartsOrStops(k: Kind): Option<bool> {
    match k case Activated(_, _, _) => Some(true) case Closed => Some(false) case _ => None
  }

  function NamesTier(k: Kind): Option<Tier> {
    match k case Activated(_, t, _) => t case Applied(t, _, _) => Some(t) case _ => None
  }

  function NamesCus(k: Kind): Option<nat> {
    match k
    case Created(c, _) => Some(c)
    case Activated(c, _, _) => c
    case Increased(_, _, c, _) => c
    case Applied(_, c, _) => Some(c)
    case _ => None
  }

  function GivesPrice(k: Kind): Option<Option<nat>> {
    match k
    case Created(_, m) => Some(Some(m))
    case Activated(_, _, m) => Some(m)
    case Increased(_, _, _, m) => Some(m)
    case Applied(_, _, m) => Some(m)
    case Renewed(m) => Some(Some(m))
    case _ => None
  }

  /** The CUs added since an event last named them. */
  function AddedSince(events: seq<Event>): nat {
    if events == [] then 0
    else
      var k := events[|events| - 1].kind;
      if NamesCus(k).Some? then 0
      else AddedSince(events[..|events| - 1]) + (if k.Increased? && k.to > k.was then k.to - k.was else 0)
  }

  function Or<T>(o: Option<T>, d: T): T {
    if o.Some? then o.value else d
  }

  /** What events leave in force: the tier and CUs last named, with what was added since, and
      the price last given, which is the list price of these if the event gave none. */
  predicate InForce(price: Price, c: Charge, events: seq<Event>, r: Charge) {
    && r.billing == Or(Latest(StartsOrStops, events), c.billing)
    && r.rate.tier == Or(Latest(NamesTier, events), c.rate.tier)
    && r.rate.cus == Or(Latest(NamesCus, events), c.rate.cus) + AddedSince(events)
    && r.rate.monthly == match Latest(GivesPrice, events)
         case None => c.rate.monthly
         case Some(given) => Or(given, price(r.rate.tier, r.rate.cus))
  }

  lemma ChargedOnce(price: Price, c: Charge, e: Event)
    ensures var r, k := Charged(price, c, e), e.kind;
      && r.billing == Or(StartsOrStops(k), c.billing) && r.rate.tier == Or(NamesTier(k), c.rate.tier)
      && r.rate.cus == (if NamesCus(k).Some? then NamesCus(k).value else c.rate.cus + if k.Increased? && k.to > k.was then k.to - k.was else 0)
      && if GivesPrice(k).None? then r.rate == c.rate else r.rate.monthly == Or(GivesPrice(k).value, price(r.rate.tier, r.rate.cus))
  {
  }

  lemma {:induction false} ChargedIs(price: Price, c: Charge, events: seq<Event>)
    ensures InForce(price, c, events, ChargedAll(price, c, events))
  {
    hide Charged, NamesTier, NamesCus, GivesPrice, StartsOrStops;
    if events != [] {
      var n := |events| - 1;
      ChargedIs(price, c, events[..n]);
      ChargedOnce(price, ChargedAll(price, c, events[..n]), events[n]);
    }
  }

  /** So what an account is charged at `t`, from its events up to then. */
  lemma ChargeAtIs(price: Price, a: Account, t: int)
    ensures var told, r := Told(a, t + 1), ChargeAt(price, a, t);
      && (r.Some? <==> Latest(StartsOrStops, told) == Some(true) && (a.pendingCancellation ==> t < a.termEnd))
      && (r.Some? ==>
          && r.value.tier == Or(Latest(NamesTier, told), a.tier)
          && r.value.cus == Or(Latest(NamesCus, told), a.cus) + AddedSince(told)
          && r.value.monthly == match Latest(GivesPrice, told)
               case None => price(a.tier, a.cus)
               case Some(given) => Or(given, price(r.value.tier, r.value.cus)))
  {
    hide Told, ChargedAll, Latest, AddedSince;
    ChargedIs(price, Charge(false, Begin(price, a).rate), Told(a, t + 1));
  }

  /** A timeline's rate at an instant is the one its events up to then leave in force, exactly
      unless a cancelled term is billed past its end. */
  lemma RateIsCharged(price: Price, a: Account, until: int, t: int)
    requires t < until && CreatedFirst(price, Begin(price, a), Told(a, until))
    ensures RateAt(Timeline(price, a, until), t) == ChargeAt(price, a, t) <==> !BilledPast(price, a, t + 1, until)
  {
    hide Told, FedAll, ChargedAll, Cut, Timeline;
    var m := FedAll(price, Begin(price, a), Told(a, t + 1));
    MeterCharges(price, Begin(price, a), Told(a, t + 1));
    ToldMetered(price, a, t + 1);
    CutIs(price, a, t + 1, until);
    CutRate(Timeline(price, a, until), t + 1, t);
    var stop := if BilledPast(price, a, t + 1, until) then t + 1 else Stop(a, t + 1);
    assert RateAt(Timeline(price, a, until), t) == RateAt(Finish(m, stop), t);
    NoneAfter(m.out, t);
    if m.open.Some? {
      RateAtGrows(m.out, Segment(m.open.value, stop, m.rate), t);
    }
  }

  lemma TimelineIs(price: Price, a: Account, until: int)
    ensures Timeline(price, a, until) == Finish(FedAll(price, Begin(price, a), Told(a, until)), Stop(a, until))
  {
  }

  lemma {:induction false} NoneAfter(segs: seq<Segment>, t: int)
    requires forall i :: 0 <= i < |segs| ==> segs[i].to <= t
    ensures RateAt(segs, t) == None
  {
    if segs != [] {
      NoneAfter(segs[..|segs| - 1], t);
    }
  }

  lemma {:induction false} CutRate(segs: seq<Segment>, u: int, t: int)
    requires t < u
    ensures RateAt(Cut(segs, u), t) == RateAt(segs, t)
  {
    if segs != [] {
      var n := |segs| - 1;
      var s := segs[n];
      CutRate(segs[..n], u, t);
      RateAtGrows(Cut(segs[..n], u), s.(to := Min(s.to, u)), t);
      assert Cut(segs[..n], u) + [] == Cut(segs[..n], u);
    }
  }

  // ---------------------------------------------------------------------------
  // Months
  // ---------------------------------------------------------------------------

  /** The parts of `segs` within `[start, end)`. */
  function Clip(segs: seq<Segment>, start: int, end: int): seq<Segment> {
    if segs == [] then []
    else
      var s := segs[|segs| - 1];
      Clip(segs[..|segs| - 1], start, end)
      + (if Min(s.to, end) > Max(s.from, start) then [Segment(Max(s.from, start), Min(s.to, end), s.rate)] else [])
  }

  /** Fee lines of the month `[start, end)`, known up to `until`. */
  function FeeLines(price: Price, a: Account, start: int, end: int, until: int): seq<Segment> {
    Clip(Timeline(price, a, Min(until, end)), start, end)
  }

  /** The rate billed at an instant, if any. */
  function RateAt(segs: seq<Segment>, t: int): Option<Rate> {
    if segs == [] then None
    else
      var s := segs[|segs| - 1];
      if s.from <= t < s.to then Some(s.rate) else RateAt(segs[..|segs| - 1], t)
  }

  function Time(segs: seq<Segment>): int {
    if segs == [] then 0 else Time(segs[..|segs| - 1]) + segs[|segs| - 1].to - segs[|segs| - 1].from
  }

  lemma RateAtGrows(segs: seq<Segment>, s: Segment, t: int)
    ensures RateAt(segs + [s], t) == if s.from <= t < s.to then Some(s.rate) else RateAt(segs, t)
    ensures Time(segs + [s]) == Time(segs) + s.to - s.from
  {
    assert (segs + [s])[..|segs|] == segs;
  }

  lemma {:induction false} ClipRate(segs: seq<Segment>, start: int, end: int, t: int)
    ensures RateAt(Clip(segs, start, end), t) == if start <= t < end then RateAt(segs, t) else None
  {
    if segs != [] {
      var n := |segs| - 1;
      var s := segs[n];
      var rest := Clip(segs[..n], start, end);
      ClipRate(segs[..n], start, end, t);
      RateAtGrows(rest, Segment(Max(s.from, start), Min(s.to, end), s.rate), t);
      assert rest + [] == rest;
    }
  }

  lemma {:induction false} ClipTime(segs: seq<Segment>, a: int, b: int, c: int)
    requires a <= b <= c
    ensures Time(Clip(segs, a, b)) + Time(Clip(segs, b, c)) == Time(Clip(segs, a, c))
  {
    if segs != [] {
      var n := |segs| - 1;
      var s := segs[n];
      ClipTime(segs[..n], a, b, c);
      ClipTimeLast(segs, a, b);
      ClipTimeLast(segs, b, c);
      ClipTimeLast(segs, a, c);
    }
  }

  lemma ClipTimeLast(segs: seq<Segment>, a: int, b: int)
    requires segs != []
    ensures var s := segs[|segs| - 1];
      Time(Clip(segs, a, b)) == Time(Clip(segs[..|segs| - 1], a, b)) + Max(Min(s.to, b) - Max(s.from, a), 0)
  {
    var s := segs[|segs| - 1];
    var rest := Clip(segs[..|segs| - 1], a, b);
    RateAtGrows(rest, Segment(Max(s.from, a), Min(s.to, b), s.rate), 0);
    assert rest + [] == rest;
  }

  lemma ClipGrows(segs: seq<Segment>, s: Segment, a: int, b: int)
    ensures Clip(segs + [s], a, b)
         == Clip(segs, a, b) + (if Min(s.to, b) > Max(s.from, a) then [Segment(Max(s.from, a), Min(s.to, b), s.rate)] else [])
  {
    assert (segs + [s])[..|segs|] == segs;
  }

  /** Cutting at or after a month's end changes none of its lines. */
  lemma {:induction false} ClipCut(segs: seq<Segment>, u: int, a: int, b: int)
    requires b <= u
    ensures Clip(Cut(segs, u), a, b) == Clip(segs, a, b)
  {
    if segs != [] {
      var n := |segs| - 1;
      var s := segs[n];
      ClipCut(segs[..n], u, a, b);
      ClipGrows(Cut(segs[..n], u), s.(to := Min(s.to, u)), a, b);
      assert Cut(segs[..n], u) + [] == Cut(segs[..n], u);
    }
  }

  /** What a stretch still open adds to a month's lines. */
  lemma ClipFinish(m: Meter, stop: int, start: int, end: int)
    requires stop <= end
    ensures Clip(Finish(m, stop), start, end)
         == Clip(m.out, start, end)
            + (if m.open.Some? && stop > Max(m.open.value, start) then [Segment(Max(m.open.value, start), stop, m.rate)] else [])
  {
    hide Clip;
    if m.open.Some? && stop > m.open.value {
      ClipGrows(m.out, Segment(m.open.value, stop, m.rate), start, end);
    } else {
      assert Clip(m.out, start, end) + [] == Clip(m.out, start, end);
    }
  }

  /** What a month's lines have of a later timeline: its part of it, short of what a cancelled
      term is billed past its end. */
  lemma MonthOfLater(price: Price, a: Account, start: int, end: int, v: int)
    requires start <= end <= v && CreatedFirst(price, Begin(price, a), Told(a, v))
    ensures var m := FedAll(price, Begin(price, a), Told(a, end));
      && Clip(Timeline(price, a, v), start, end) == Clip(Finish(m, if BilledPast(price, a, end, v) then end else Stop(a, end)), start, end)
      && Clip(Timeline(price, a, end), start, end) == Clip(Finish(m, Stop(a, end)), start, end)
  {
    hide Timeline, BilledPast, CreatedFirst, Told, FedAll, Finish;
    CutIs(price, a, end, v);
    TimelineIs(price, a, end);
    ClipCut(Timeline(price, a, v), end, start, end);
  }

  /** A stretch open at a month's end and billed up to it is longer than one that stops
      earlier. */
  lemma LongerStretch(m: Meter, start: int, end: int, stop: int)
    requires start < end && stop < end && m.open.Some? && m.open.value < end
    ensures Time(Clip(Finish(m, stop), start, end)) < Time(Clip(Finish(m, end), start, end))
    ensures RateAt(Clip(Finish(m, end), start, end), end - 1) == Some(m.rate)
    ensures (forall i :: 0 <= i < |m.out| ==> m.out[i].to < end) ==> RateAt(Clip(Finish(m, stop), start, end), end - 1) == None
  {
    hide Clip, Finish;
    ClipFinish(m, stop, start, end);
    ClipFinish(m, end, start, end);
    var lines, from := Clip(m.out, start, end), Max(m.open.value, start);
    RateAtGrows(lines, Segment(from, end, m.rate), end - 1);
    RateAtGrows(lines, Segment(from, stop, m.rate), end - 1);
    assert lines + [] == lines;
    ClipRate(m.out, start, end, end - 1);
    if forall i :: 0 <= i < |m.out| ==> m.out[i].to < end {
      NoneAfter(m.out, end - 1);
    }
  }

  /** At `t`, `lines` bill what `line` has within `[start, end)`. */
  predicate BillsAs(lines: seq<Segment>, line: seq<Segment>, start: int, end: int, t: int) {
    RateAt(lines, t) == if start <= t < end then RateAt(line, t) else None
  }

  /** The first of two months has a stretch open at its end that is billed past the end of a
      cancelled term in the second. */
  predicate SplitPast(price: Price, a: Account, first: int, second: int, third: int, until: int) {
    first < second && BilledPast(price, a, Min(until, second), Min(until, third))
  }

  /** Consecutive months split billable time with no loss and no overlap: each instant is
      billed in its own month only, at the rate the timeline has for it, and the times add
      up; exactly unless a cancelled term is billed past its end. */
  lemma MonthsSplit(price: Price, a: Account, first: int, second: int, third: int, until: int)
    requires first <= second <= third && CreatedFirst(price, Begin(price, a), Told(a, Min(until, third)))
    ensures var line := Timeline(price, a, Min(until, third));
      var (early, late) := (FeeLines(price, a, first, second, until), FeeLines(price, a, second, third, until));
      && (forall t :: BillsAs(late, line, second, third, t))
      && ((forall t :: BillsAs(early, line, first, second, t)) <==> !SplitPast(price, a, first, second, third, until))
      && (Time(early) + Time(late) == Time(Clip(line, first, third)) <==> !SplitPast(price, a, first, second, third, until))
  {
    hide Timeline, BilledPast, CreatedFirst, Told, FedAll, Clip, Finish, RateAt, Time;
    var v := Min(until, third);
    var line := Timeline(price, a, v);
    var early, late := FeeLines(price, a, first, second, until), FeeLines(price, a, second, third, until);
    forall t
      ensures BillsAs(late, line, second, third, t)
    {
      ClipRate(line, second, third, t);
    }
    ClipTime(line, first, second, third);
    if second <= until {
      FirstMonth(price, a, first, second, v);
    } else {
      NotPast(price, a, until);
    }
    if SplitPast(price, a, first, second, third, until) {
      ClipRate(line, first, second, second - 1);
      assert !BillsAs(early, line, first, second, second - 1);
    } else {
      assert early == Clip(line, first, second);
      forall t
        ensures BillsAs(early, line, first, second, t)
      {
        ClipRate(line, first, second, t);
      }
    }
  }

  lemma NotPast(price: Price, a: Account, u: int)
    ensures !BilledPast(price, a, u, u)
  {
  }

  lemma FirstMonth(price: Price, a: Account, first: int, second: int, v: int)
    requires first <= second <= v && CreatedFirst(price, Begin(price, a), Told(a, v))
    ensures var (early, whole) := (Clip(Timeline(price, a, second), first, second), Clip(Timeline(price, a, v), first, second));
      if first < second && BilledPast(price, a, second, v)
      then Time(early) < Time(whole) && RateAt(early, second - 1) != RateAt(whole, second - 1)
      else early == whole
  {
    hide Timeline, CreatedFirst, Told, FedAll, Clip, Finish;
    MonthOfLater(price, a, first, second, v);
    ToldMetered(price, a, second);
    var m := FedAll(price, Begin(price, a), Told(a, second));
    if first == second {
      ClipEmpty(Timeline(price, a, second), first);
      ClipEmpty(Timeline(price, a, v), first);
    } else if BilledPast(price, a, second, v) {
      LongerStretch(m, first, second, a.termEnd);
    }
  }

  lemma {:induction false} ClipEmpty(segs: seq<Segment>, at: int)
    ensures Clip(segs, at, at) == []
  {
    if segs != [] {
      ClipEmpty(segs[..|segs| - 1], at);
    }
  }

  // ---------------------------------------------------------------------------
  // A month that is over does not change
  // ---------------------------------------------------------------------------

  lemma {:induction false} BeforeInsert(x: Event, events: seq<Event>, u: int)
    requires SortedBy(ByTime, events)
    ensures Before(Insert(ByTime, x, events), u) == if x.at < u then Insert(ByTime, x, Before(events, u)) else Before(events, u)
  {
    if events == [] || ByTime(x, events[0]) {
      assert ([x] + events)[1..] == events;
      if events != [] && events[0].at >= u {
        assert forall i :: 0 < i < |events| ==> ByTime(events[0], events[i]);
        NoneBefore(events, u);
      }
    } else {
      var rest := events[1..];
      BeforeInsert(x, rest, u);
      assert ([events[0]] + Insert(ByTime, x, rest))[1..] == Insert(ByTime, x, rest);
      if events[0].at < u {
        assert ([events[0]] + Before(rest, u))[1..] == Before(rest, u);
      }
    }
  }

  /** Sorting and keeping what is before `u` commute. */
  lemma {:induction false} BeforeSort(events: seq<Event>, u: int)
    ensures Before(Sort(ByTime, events), u) == Sort(ByTime, Before(events, u))
  {
    if events != [] {
      TimeIsTotal();
      SortSorted(ByTime, events[1..]);
      BeforeSort(events[1..], u);
      BeforeInsert(events[0], Sort(ByTime, events[1..]), u);
      var rest := Before(events[1..], u);
      assert ([events[0]] + rest)[1..] == rest;
      assert [] + rest == rest;
    }
  }

  lemma {:induction false} BeforeAppend(a: seq<Event>, b: seq<Event>, u: int)
    ensures Before(a + b, u) == Before(a, u) + Before(b, u)
  {
    if a == [] {
      assert a + b == b;
    } else {
      assert (a + b)[1..] == a[1..] + b;
      BeforeAppend(a[1..], b, u);
    }
  }

  /** The first activation says what it activates. */
  predicate SelfContained(events: seq<Event>) {
    forall i :: 0 <= i < |events| && events[i].kind.Activated? && (forall j :: 0 <= j < i ==> !events[j].kind.Activated?) ==>
      events[i].kind.withCus.Some? && events[i].kind.withTier.Some?
  }

  predicate NeverActivated(events: seq<Event>) {
    forall i :: 0 <= i < |events| ==> !events[i].kind.Activated?
  }

  /** From the first activation on, the meter owes nothing to what it began with. */
  lemma {:induction false} BeginForgotten(price: Price, a: Meter, b: Meter, events: seq<Event>)
    requires a.open.None? && b.open.None? && a.out == [] && b.out == [] && SelfContained(events)
    ensures if NeverActivated(events)
      then FedAll(price, a, events).open.None? && FedAll(price, b, events).open.None? && FedAll(price, a, events).out == [] && FedAll(price, b, events).out == []
      else FedAll(price, a, events) == FedAll(price, b, events)
  {
    if events != [] {
      var n := |events| - 1;
      var front := events[..n];
      assert SelfContained(front) by {
        forall i | 0 <= i < |front| && front[i].kind.Activated? && (forall j :: 0 <= j < i ==> !front[j].kind.Activated?)
          ensures front[i].kind.withCus.Some? && front[i].kind.withTier.Some?
        {
          assert forall j :: 0 <= j < i ==> events[j] == front[j];
          assert events[i].kind.Activated?;
        }
      }
      BeginForgotten(price, a, b, front);
      if NeverActivated(front) {
        assert forall j :: 0 <= j < n ==> events[j] == front[j];
        assert events[n].kind.Activated? ==> events[n].kind.withCus.Some? && events[n].kind.withTier.Some?;
      } else {
        var i :| 0 <= i < n && front[i].kind.Activated?;
        assert events[i].kind.Activated?;
      }
    }
  }

  /** The stretch still open, if any, is billed in the month to the same moment for both stops. */
  predicate BilledAlike(m: Meter, start: int, stop: int, other: int) {
    m.open.Some? ==> stop == other || (stop <= Max(m.open.value, start) && other <= Max(m.open.value, start))
  }

  lemma AlikeIff(m: Meter, start: int, end: int, stop: int, other: int)
    requires stop <= end && other <= end
    ensures Clip(Finish(m, stop), start, end) == Clip(Finish(m, other), start, end) <==> BilledAlike(m, start, stop, other)
  {
    ClipFinish(m, stop, start, end);
    ClipFinish(m, other, start, end);
    hide Clip, Finish;
    if m.open.Some? {
      var lines, from := Clip(m.out, start, end), Max(m.open.value, start);
      if stop > from {
        assert (lines + [Segment(from, stop, m.rate)])[|lines|].to == stop;
      }
      if other > from {
        assert (lines + [Segment(from, other, m.rate)])[|lines|].to == other;
      }
    }
  }

  /** Events at or after a month's end, and whatever they changed, leave its lines alone
      exactly if the stretch open by then is billed to the same moment before and after. */
  lemma MonthIsFrozen(price: Price, a: Account, later: Account, more: seq<Event>, start: int, end: int, until: int)
    requires later.events == a.events + more && forall i :: 0 <= i < |more| ==> more[i].at >= end
    requires SelfContained(Told(a, Min(until, end)))
    ensures var u := Min(until, end);
      FeeLines(price, later, start, end, until) == FeeLines(price, a, start, end, until)
      <==> BilledAlike(FedAll(price, Begin(price, a), Told(a, u)), start, Stop(a, u), Stop(later, u))
  {
    hide FedAll, Fed, Clip;
    var u := Min(until, end);
    BeforeSort(a.events, u);
    BeforeSort(later.events, u);
    BeforeAppend(a.events, more, u);
    NoneBefore(more, u);
    assert Before(a.events, u) + [] == Before(a.events, u);
    assert Told(later, u) == Told(a, u);
    BeginForgotten(price, Begin(price, a), Begin(price, later), Told(a, u));
    AlikeIff(FedAll(price, Begin(price, a), Told(a, u)), start, end, Stop(a, u), Stop(later, u));
  }

  // ---------------------------------------------------------------------------
  // A cancelled term billed past its end
  // ---------------------------------------------------------------------------

  lemma TwoTold(price: Price, a: Account, x: Event, y: Event, until: int)
    requires a.events == [x, y] && x.at < y.at
    ensures Told(a, until) == if y.at < until then [x, y] else if x.at < until then [x] else []
  {
    assert a.events[1..] == [y] && [y][1..] == [];
    assert Sort(ByTime, [y]) == [y];
    assert Sort(ByTime, a.events) == [x, y] && [x, y][1..] == [y];
    assert Before([y], until) == if y.at < until then [y] else [];
  }

  lemma TwoFed(price: Price, m: Meter, x: Event, y: Event)
    ensures FedAll(price, m, [x]) == Fed(price, m, x) && FedAll(price, m, [x, y]) == Fed(price, Fed(price, m, x), y)
  {
    assert [x, y][..1] == [x] && [x][..0] == [];
  }

  const ACTIVATION := Event(0, Activated(Some(1), Some(Standard), Some(10)))

  /** A cancelled reservation increased after its term has run out and before that was
      noticed: once the increase is there, the time between is billed. */
  lemma PastTheTermEnd(price: Price)
    ensures var a := Account([ACTIVATION, Event(8, Increased(1, 2, Some(2), Some(20)))], 2, Standard, true, 3);
      && Timeline(price, a, 5) == [Segment(0, 3, Rate(1, Standard, 10))]
      && Timeline(price, a, 10) == [Segment(0, 8, Rate(1, Standard, 10))]
      && Cut(Timeline(price, a, 10), 5) != Timeline(price, a, 5)
  {
    var y := Event(8, Increased(1, 2, Some(2), Some(20)));
    var a := Account([ACTIVATION, y], 2, Standard, true, 3);
    TwoTold(price, a, ACTIVATION, y, 5);
    TwoTold(price, a, ACTIVATION, y, 10);
    TwoFed(price, Begin(price, a), ACTIVATION, y);
    CutGrows([], Segment(0, 8, Rate(1, Standard, 10)), 5);
    assert Cut(Timeline(price, a, 10), 5)[0].to == 5;
  }
}
