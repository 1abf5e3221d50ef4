/** Banked burst credit and the ceiling on spending it (crates/pt-admission/src/burst.rs). */
module Burst {
  import opened Prelude
  import opened Bucket

  datatype BurstPolicy = BurstPolicy(maxCreditSeconds: real, maxRateMultiple: real, continuationReserve: real)

  datatype Bank = Bank(credit: real, maxCredit: real, reserve: real, ceiling: Bucket)

  predicate ValidPolicy(p: BurstPolicy) {
    p.maxCreditSeconds >= 0.0
  }

  predicate ValidBank(b: Bank) {
    b.maxCredit >= 0.0 && 0.0 <= b.reserve && b.credit <= b.maxCredit && ValidBucket(b.ceiling)
  }

  function Clamp01(x: real): real {
    MinR(MaxR(x, 0.0), 1.0)
  }

  function ExtraRate(entitlement: real, p: BurstPolicy): real {
    entitlement * MaxR(p.maxRateMultiple - 1.0, 0.0)
  }

  /** Starts empty. */
  function NewBank(entitlement: real, p: BurstPolicy, now: real): Bank {
    var maxCredit := entitlement * p.maxCreditSeconds;
    var extra := ExtraRate(entitlement, p);
    Bank(0.0, maxCredit, maxCredit * Clamp01(p.continuationReserve), Full(extra, extra, 0.0, now))
  }

  /** A bank for a new entitlement, keeping credit and ceiling level within the new limits. */
  function Rescaled(b: Bank, entitlement: real, p: BurstPolicy, now: real): Bank {
    var n := NewBank(entitlement, p, now);
    n.(credit := MinR(b.credit, n.maxCredit), ceiling := AtLevel(n.ceiling, Refilled(b.ceiling, now).level))
  }

  function Accrued(b: Bank, wu: real): Bank {
    b.(credit := MinR(b.credit + wu, b.maxCredit))
  }

  /** The ceiling refilled, as a draw looks at it. */
  function Looked(b: Bank, now: real): Bank {
    b.(ceiling := Refilled(b.ceiling, now))
  }

  predicate CanDraw(b: Bank, wu: real, continuation: bool) {
    (if continuation then b.credit else b.credit - b.reserve) >= wu && CanTakeStrict(b.ceiling, wu)
  }

  function Drawn(b: Bank, wu: real): Bank {
    b.(credit := b.credit - wu, ceiling := Debited(b.ceiling, wu))
  }

  function SettledBank(b: Bank, delta: real): Bank {
    b.(credit := MinR(b.credit - delta, b.maxCredit))
  }

  lemma NewBankValid(entitlement: real, p: BurstPolicy, now: real)
    requires entitlement >= 0.0 && ValidPolicy(p)
    ensures ValidBank(NewBank(entitlement, p, now))
  {
    Product(entitlement, p.maxCreditSeconds);
    Product(entitlement, MaxR(p.maxRateMultiple - 1.0, 0.0));
    Product(entitlement * p.maxCreditSeconds, Clamp01(p.continuationReserve));
  }

  lemma RescaledValid(b: Bank, entitlement: real, p: BurstPolicy, now: real)
    requires ValidBank(b) && entitlement >= 0.0 && ValidPolicy(p)
    ensures ValidBank(Rescaled(b, entitlement, p, now))
  {
    NewBankValid(entitlement, p, now);
  }

  // ---------------------------------------------------------------------------
  // The ceiling over any window
  // ---------------------------------------------------------------------------

  /** Everything that can happen to a bank. */
  datatype BankStep =
    | Accrue(wu: real)
    | Try(wu: real, continuation: bool, now: real)
    | Settle(delta: real)
    | Rescale(entitlement: real, policy: BurstPolicy, now: real)

  predicate StepOk(s: BankStep, largest: real) {
    match s
    case Try(wu, _, _) => 0.0 <= wu <= largest
    case Rescale(e, p, _) => e >= 0.0 && ValidPolicy(p)
    case _ => true
  }

  function After(b: Bank, s: BankStep): Bank {
    match s
    case Accrue(wu) => Accrued(b, wu)
    case Try(wu, continuation, now) => if CanDraw(Looked(b, now), wu, continuation) then Drawn(Looked(b, now), wu) else Looked(b, now)
    case Settle(delta) => SettledBank(b, delta)
    case Rescale(e, p, now) => Rescaled(b, e, p, now)
  }

  /** WU drawn by one step. */
  function DrawnBy(b: Bank, s: BankStep): real {
    if s.Try? && CanDraw(Looked(b, s.now), s.wu, s.continuation) then s.wu else 0.0
  }

  /** Extra rate over the time one step refills the ceiling. */
  function ExtraBy(b: Bank, s: BankStep): real {
    match s
    case Try(_, _, now) => b.ceiling.rate * Elapsed(b.ceiling, now)
    case Rescale(_, _, now) => b.ceiling.rate * Elapsed(b.ceiling, now)
    case _ => 0.0
  }

  /** A window: steps from `b` on. */
  function Final(b: Bank, steps: seq<BankStep>): Bank
    decreases |steps|
  {
    if steps == [] then b else Final(After(b, steps[0]), steps[1..])
  }

  function TotalDrawn(b: Bank, steps: seq<BankStep>): real
    decreases |steps|
  {
    if steps == [] then 0.0 else DrawnBy(b, steps[0]) + TotalDrawn(After(b, steps[0]), steps[1..])
  }

  function TotalExtra(b: Bank, steps: seq<BankStep>): real
    decreases |steps|
  {
    if steps == [] then 0.0 else ExtraBy(b, steps[0]) + TotalExtra(After(b, steps[0]), steps[1..])
  }

  /** The smallest ceiling capacity in the window. */
  function LeastCapacity(b: Bank, steps: seq<BankStep>): real
    decreases |steps|
  {
    if steps == [] then b.ceiling.capacity else MinR(b.ceiling.capacity, LeastCapacity(After(b, steps[0]), steps[1..]))
  }

  lemma StepKeepsBank(b: Bank, s: BankStep, largest: real)
    requires ValidBank(b) && StepOk(s, largest)
    ensures ValidBank(After(b, s))
    ensures After(b, s).ceiling.level + DrawnBy(b, s) <= b.ceiling.level + ExtraBy(b, s)
    ensures ExtraBy(b, s) >= 0.0
  {
    match s
    case Accrue(_) =>
    case Try(wu, _, now) =>
      RefillEarns(b.ceiling, now);
      Product(b.ceiling.rate, Elapsed(b.ceiling, now));
    case Settle(_) =>
    case Rescale(e, p, now) =>
      RefillEarns(b.ceiling, now);
      RescaledValid(b, e, p, now);
      Product(b.ceiling.rate, Elapsed(b.ceiling, now));
  }

  /** What a step leaves in the ceiling: a draw takes it no lower than the largest request
      past capacity, and nothing else lowers it below zero. */
  lemma StepFloor(b: Bank, s: BankStep, largest: real)
    requires ValidBank(b) && StepOk(s, largest)
    ensures DrawnBy(b, s) > 0.0 ==> After(b, s).ceiling.level >= MinR(0.0, b.ceiling.capacity - largest)
    ensures DrawnBy(b, s) == 0.0 ==> After(b, s).ceiling.level >= MinR(0.0, b.ceiling.level)
  {
    StepKeepsBank(b, s, largest);
    match s
    case Accrue(_) =>
    case Try(wu, _, now) => RefillEarns(b.ceiling, now);
    case Settle(_) =>
    case Rescale(e, p, now) =>
      RefillEarns(b.ceiling, now);
      Product(e, MaxR(p.maxRateMultiple - 1.0, 0.0));
  }

  lemma {:induction false} WindowBalance(b: Bank, steps: seq<BankStep>, largest: real)
    requires ValidBank(b) && forall s :: s in steps ==> StepOk(s, largest)
    ensures Final(b, steps).ceiling.level + TotalDrawn(b, steps) <= b.ceiling.level + TotalExtra(b, steps)
    ensures ValidBank(Final(b, steps)) && TotalExtra(b, steps) >= 0.0 && TotalDrawn(b, steps) >= 0.0
    decreases |steps|
  {
    if steps != [] {
      StepKeepsBank(b, steps[0], largest);
      WindowBalance(After(b, steps[0]), steps[1..], largest);
    }
  }

  /** If anything was drawn in the window, the ceiling ends no lower than the largest request
      past the smallest capacity. */
  lemma {:induction false} WindowFloor(b: Bank, steps: seq<BankStep>, largest: real, floor: real)
    requires ValidBank(b) && forall s :: s in steps ==> StepOk(s, largest)
    requires floor <= MinR(0.0, LeastCapacity(b, steps) - largest)
    ensures TotalDrawn(b, steps) > 0.0 || b.ceiling.level >= floor ==> Final(b, steps).ceiling.level >= floor
    decreases |steps|
  {
    if steps != [] {
      StepKeepsBank(b, steps[0], largest);
      StepFloor(b, steps[0], largest);
      WindowFloor(After(b, steps[0]), steps[1..], largest, floor);
    }
  }

  /** The burst ceiling: over any window, resizes included, what is drawn is at most the
      extra rate over the time the ceiling is refilled for, plus the ceiling's capacity at its start, plus what the
      largest request exceeds the smallest ceiling capacity by. */
  lemma BurstCeiling(b: Bank, steps: seq<BankStep>, largest: real)
    requires ValidBank(b) && forall s :: s in steps ==> StepOk(s, largest)
    ensures TotalDrawn(b, steps) <= TotalExtra(b, steps) + b.ceiling.capacity + MaxR(0.0, largest - LeastCapacity(b, steps))
  {
    WindowBalance(b, steps, largest);
    WindowFloor(b, steps, largest, MinR(0.0, LeastCapacity(b, steps) - largest));
  }

  // ---------------------------------------------------------------------------
  // The window's own time
  // ---------------------------------------------------------------------------

  /** The moment a step refills the ceiling to, if it does. */
  function RefillsTo(s: BankStep): Option<real> {
    match s
    case Try(_, _, now) => Some(now)
    case Rescale(_, _, now) => Some(now)
    case _ => None
  }

  /** The latest moment seen, `clock` before the step. */
  function ClockAfter(clock: real, s: BankStep): real {
    if RefillsTo(s).Some? then MaxR(clock, RefillsTo(s).value) else clock
  }

  function ClockEnd(clock: real, steps: seq<BankStep>): real
    decreases |steps|
  {
    if steps == [] then clock else ClockEnd(ClockAfter(clock, steps[0]), steps[1..])
  }

  /** Extra rate over the time that passes in one step. */
  function DueBy(b: Bank, s: BankStep, clock: real): real {
    b.ceiling.rate * (ClockAfter(clock, s) - clock)
  }

  /** The extra rate's integral over the time that passes, from `clock` on. */
  function DueExtra(b: Bank, steps: seq<BankStep>, clock: real): real
    decreases |steps|
  {
    if steps == [] then 0.0
    else DueBy(b, steps[0], clock) + DueExtra(After(b, steps[0]), steps[1..], ClockAfter(clock, steps[0]))
  }

  /** A step that refills, at a rate above zero, time the ceiling had already been given. */
  predicate EarnsTwice(b: Bank, s: BankStep, clock: real) {
    RefillsTo(s).Some? && b.ceiling.rate > 0.0 && b.ceiling.last < clock && b.ceiling.last < RefillsTo(s).value
  }

  predicate EarnsOnce(b: Bank, steps: seq<BankStep>, clock: real)
    decreases |steps|
  {
    steps != [] ==> !EarnsTwice(b, steps[0], clock) && EarnsOnce(After(b, steps[0]), steps[1..], ClockAfter(clock, steps[0]))
  }

  /** Every rescale is dated no earlier than the latest moment seen. */
  predicate Forward(steps: seq<BankStep>, clock: real)
    decreases |steps|
  {
    steps != [] ==> (steps[0].Rescale? ==> steps[0].now >= clock) && Forward(steps[1..], ClockAfter(clock, steps[0]))
  }

  lemma StepOnceIff(b: Bank, s: BankStep, clock: real, largest: real)
    requires ValidBank(b) && StepOk(s, largest) && b.ceiling.last <= clock
    ensures ExtraBy(b, s) >= DueBy(b, s, clock) && (ExtraBy(b, s) == DueBy(b, s, clock) <==> !EarnsTwice(b, s, clock))
    ensures After(b, s).ceiling.last <= ClockAfter(clock, s)
    ensures b.ceiling.last == clock && (s.Rescale? ==> s.now >= clock) ==> After(b, s).ceiling.last == ClockAfter(clock, s)
  {
    LastAfter(b, s);
    hide After;
    if RefillsTo(s).Some? {
      RateTimes(b.ceiling.rate, Elapsed(b.ceiling, RefillsTo(s).value), ClockAfter(clock, s) - clock);
    }
  }

  /** What a step leaves of the ceiling's clock. */
  lemma LastAfter(b: Bank, s: BankStep)
    ensures var to := RefillsTo(s);
      After(b, s).ceiling.last
      == if to.None? then b.ceiling.last else if s.Rescale? then to.value else MaxR(b.ceiling.last, to.value)
  {
  }

  /** Over any window, the extra rate over the time refilled is its integral over the time
      that passed exactly when no step earns time twice, and more than it otherwise. */
  lemma {:induction false} ExtraOnceIff(b: Bank, steps: seq<BankStep>, clock: real, largest: real)
    requires ValidBank(b) && (forall s :: s in steps ==> StepOk(s, largest)) && b.ceiling.last <= clock
    ensures TotalExtra(b, steps) >= DueExtra(b, steps, clock)
    ensures TotalExtra(b, steps) == DueExtra(b, steps, clock) <==> EarnsOnce(b, steps, clock)
    decreases |steps|
  {
    if steps != [] {
      StepKeepsBank(b, steps[0], largest);
      StepOnceIff(b, steps[0], clock, largest);
      hide After, ExtraBy, EarnsTwice, ClockAfter, DueBy, ValidBank, StepOk;
      ExtraOnceIff(After(b, steps[0]), steps[1..], ClockAfter(clock, steps[0]), largest);
    }
  }

  lemma {:induction false} ForwardEarnsOnce(b: Bank, steps: seq<BankStep>, clock: real, largest: real)
    requires ValidBank(b) && (forall s :: s in steps ==> StepOk(s, largest)) && b.ceiling.last == clock && Forward(steps, clock)
    ensures EarnsOnce(b, steps, clock)
    decreases |steps|
  {
    if steps != [] {
      StepKeepsBank(b, steps[0], largest);
      StepOnceIff(b, steps[0], clock, largest);
      ForwardEarnsOnce(After(b, steps[0]), steps[1..], ClockAfter(clock, steps[0]), largest);
    }
  }

  lemma RefillTwice(b: Bucket, start: real, now: real)
    requires ValidBucket(b) && b.last <= start <= now
    ensures Refilled(Refilled(b, start), now) == Refilled(b, now)
  {
    Product(b.rate, start - b.last);
    Product(b.rate, now - start);
    assert b.rate * (now - b.last) == b.rate * (start - b.last) + b.rate * (now - start);
  }

  /** A window from `start` on draws the same whether or not the ceiling was refilled first. */
  lemma {:induction false} WindowFrom(b: Bank, steps: seq<BankStep>, start: real, largest: real)
    requires ValidBank(b) && b.ceiling.last <= start
    requires forall s :: s in steps ==> StepOk(s, largest) && (RefillsTo(s).Some? ==> RefillsTo(s).value >= start)
    ensures TotalDrawn(Looked(b, start), steps) == TotalDrawn(b, steps)
    ensures LeastCapacity(Looked(b, start), steps) == LeastCapacity(b, steps)
    decreases |steps|
  {
    if steps != [] {
      var s := steps[0];
      StepKeepsBank(b, s, largest);
      if RefillsTo(s).Some? {
        assert s in steps;
        RefillTwice(b.ceiling, start, RefillsTo(s).value);
        assert After(Looked(b, start), s) == After(b, s);
      } else {
        WindowFrom(After(b, s), steps[1..], start, largest);
        assert After(Looked(b, start), s) == Looked(After(b, s), start);
      }
    }
  }

  /** The burst ceiling in the window's own time: over any window from `start` with no rescale
      dated back, what is drawn is at most the extra rate's integral over the time that
      passes, plus the ceiling's capacity, plus what the largest request exceeds the smallest
      ceiling capacity by. */
  lemma BurstCeilingInTime(b: Bank, steps: seq<BankStep>, start: real, largest: real)
    requires ValidBank(b) && b.ceiling.last <= start && Forward(steps, start)
    requires forall s :: s in steps ==> StepOk(s, largest) && (RefillsTo(s).Some? ==> RefillsTo(s).value >= start)
    ensures TotalDrawn(b, steps)
         <= DueExtra(Looked(b, start), steps, start) + b.ceiling.capacity + MaxR(0.0, largest - LeastCapacity(b, steps))
  {
    var l := Looked(b, start);
    RefillEarns(b.ceiling, start);
    WindowFrom(b, steps, start, largest);
    ForwardEarnsOnce(l, steps, start, largest);
    ExtraOnceIff(l, steps, start, largest);
    BurstCeiling(l, steps, largest);
  }

  /** What a rate comes to from one moment to another. */
  function Over(rate: real, from: real, to: real): real {
    rate * (to - from)
  }

  /** At rates of at most `rate`, that integral is at most `rate` times the window's length. */
  lemma {:induction false} DueAtMost(b: Bank, steps: seq<BankStep>, clock: real, rate: real, largest: real)
    requires ValidBank(b) && (forall s :: s in steps ==> StepOk(s, largest)) && b.ceiling.rate <= rate
    requires forall s :: s in steps && s.Rescale? ==> ExtraRate(s.entitlement, s.policy) <= rate
    ensures DueExtra(b, steps, clock) <= Over(rate, clock, ClockEnd(clock, steps))
    decreases |steps|
  {
    if steps != [] {
      var s := steps[0];
      assert s in steps;
      StepKeepsBank(b, s, largest);
      DueByAtMost(b, s, clock, rate, ClockEnd(clock, steps));
      hide After, StepOk, ExtraRate, ClockAfter, DueBy, Over;
      DueAtMost(After(b, s), steps[1..], ClockAfter(clock, s), rate, largest);
    }
  }

  lemma DueByAtMost(b: Bank, s: BankStep, clock: real, rate: real, end: real)
    requires 0.0 <= b.ceiling.rate <= rate && (s.Rescale? ==> ExtraRate(s.entitlement, s.policy) <= rate)
    ensures DueBy(b, s, clock) + Over(rate, ClockAfter(clock, s), end) <= Over(rate, clock, end)
    ensures After(b, s).ceiling.rate <= rate
  {
    var next := ClockAfter(clock, s);
    RateTimes(next - clock, rate, b.ceiling.rate);
    assert Over(rate, clock, end) == Over(rate, next, end) + rate * (next - clock);
  }

  /** One WU a second of extra rate, a ceiling of one and credit for ten, at second `last`. */
  function OneAt(level: real, last: real, credit: real): Bank {
    Bank(credit, 10.0, 0.0, Bucket(1.0, 1.0, 0.0, level, last))
  }

  const SAME := BurstPolicy(10.0, 2.0, 0.0)

  /** What a window of the example comes to. */
  predicate Comes(b: Bank, steps: seq<BankStep>, clock: real, drawn: real, due: real, extra: real) {
    && TotalDrawn(b, steps) == drawn && DueExtra(b, steps, clock) == due && TotalExtra(b, steps) == extra
    && LeastCapacity(b, steps) == 1.0 && ClockEnd(clock, steps) == 1.0
  }

  lemma ComesToNothing(b: Bank)
    requires b.ceiling.capacity == 1.0
    ensures Comes(b, [], 1.0, 0.0, 0.0, 0.0)
  {
  }

  lemma ComesFirst(b: Bank, s: BankStep, steps: seq<BankStep>, clock: real, drawn: real, due: real, extra: real)
    requires b.ceiling.capacity == 1.0 && Comes(After(b, s), steps, ClockAfter(clock, s), drawn, due, extra)
    ensures Comes(b, [s] + steps, clock, drawn + DrawnBy(b, s), due + DueBy(b, s, clock), extra + ExtraBy(b, s))
    ensures !EarnsOnce(After(b, s), steps, ClockAfter(clock, s)) || EarnsTwice(b, s, clock) ==> !EarnsOnce(b, [s] + steps, clock)
  {
    assert ([s] + steps)[1..] == steps;
    hide After, DrawnBy, DueBy, ExtraBy, EarnsTwice, ClockAfter;
  }

  const FIRST := Try(1.0, false, 0.0)
  const SECOND := Try(1.0, false, 1.0)
  const BACK := Rescale(1.0, SAME, 0.0)

  lemma OneTwice()
    ensures EarnsTwice(OneAt(0.0, 0.0, 8.0), SECOND, 1.0)
  {
  }

  /** The rescale and the draw after it. */
  lemma BackdatedTail()
    ensures Comes(OneAt(0.0, 1.0, 8.0), [BACK] + ([SECOND] + []), 1.0, 1.0, 0.0, 1.0)
    ensures !EarnsOnce(OneAt(0.0, 1.0, 8.0), [BACK] + ([SECOND] + []), 1.0)
  {
    var b2, b3 := OneAt(0.0, 1.0, 8.0), OneAt(0.0, 0.0, 8.0);
    hide After, DrawnBy, DueBy, ExtraBy, EarnsTwice, EarnsOnce, ClockAfter, Comes;
    OneTwice();
    OneRescaled();
    OneDrawn(0.0, 0.0, 8.0, 1.0, 1.0);
    ComesToNothing(OneAt(0.0, 1.0, 7.0));
    ComesFirst(b3, SECOND, [], 1.0, 0.0, 0.0, 0.0);
    ComesFirst(b2, BACK, [SECOND] + [], 1.0, 1.0, 0.0, 1.0);
  }

  /** A rescale dated back by a second lets that second be drawn on again: three WU within one
      second, of an extra rate of one and a ceiling of one. */
  lemma BackdatedRescaleBreaksTheCeiling()
    ensures var steps, b := [FIRST] + ([SECOND] + ([BACK] + ([SECOND] + []))), OneAt(1.0, 0.0, 10.0);
      ValidBank(b) && Comes(b, steps, 0.0, 3.0, 1.0, 2.0) && !EarnsOnce(b, steps, 0.0)
  {
    hide After, DrawnBy, DueBy, ExtraBy, EarnsTwice, EarnsOnce, ClockAfter, Comes;
    BackdatedTail();
    OneDrawn(1.0, 0.0, 10.0, 0.0, 0.0);
    OneDrawn(0.0, 0.0, 9.0, 1.0, 0.0);
    ComesFirst(OneAt(0.0, 0.0, 9.0), SECOND, [BACK] + ([SECOND] + []), 0.0, 1.0, 0.0, 1.0);
    ComesFirst(OneAt(1.0, 0.0, 10.0), FIRST, [SECOND] + ([BACK] + ([SECOND] + [])), 0.0, 2.0, 1.0, 2.0);
  }

  /** A full ceiling gives its one WU. */
  lemma OneDrawn(level: real, last: real, credit: real, now: real, clock: real)
    requires credit >= 1.0 && now >= last && MinR(level + (now - last), 1.0) == 1.0
    ensures var s, b := Try(1.0, false, now), OneAt(level, last, credit);
      && After(b, s) == OneAt(0.0, now, credit - 1.0) && DrawnBy(b, s) == 1.0
      && ExtraBy(b, s) == now - last && DueBy(b, s, clock) == MaxR(clock, now) - clock && ClockAfter(clock, s) == MaxR(clock, now)
  {
  }

  lemma OneRescaled()
    ensures var s, b := Rescale(1.0, SAME, 0.0), OneAt(0.0, 1.0, 8.0);
      && After(b, s) == OneAt(0.0, 0.0, 8.0) && DrawnBy(b, s) == 0.0
      && DueBy(b, s, 1.0) == 0.0 && ExtraBy(b, s) == 0.0 && ClockAfter(1.0, s) == 1.0
  {
    hide NewBank, Refilled, Elapsed;
    OneNew();
    OneBack();
  }

  lemma OneNew()
    ensures NewBank(1.0, SAME, 0.0) == Bank(0.0, 10.0, 0.0, Full(1.0, 1.0, 0.0, 0.0))
  {
    assert MaxR(SAME.maxRateMultiple - 1.0, 0.0) == 1.0 && Clamp01(SAME.continuationReserve) == 0.0;
    hide MaxR, Clamp01, Full;
    assert ExtraRate(1.0, SAME) == 1.0;
  }

  lemma OneBack()
    ensures var c := OneAt(0.0, 1.0, 8.0).ceiling; Elapsed(c, 0.0) == 0.0 && Refilled(c, 0.0).level == 0.0
  {
  }

  class BurstBank {
    var credit: real
    var maxCredit: real
    var reserve: real
    const ceiling: DebtBucket

    ghost function Value(): Bank
      reads this, ceiling
    {
      Bank(credit, maxCredit, reserve, ceiling.Value())
    }

    constructor (entitlement: real, policy: BurstPolicy, now: real)
      ensures Value() == NewBank(entitlement, policy, now) && fresh(ceiling)
    {
      var max := entitlement * policy.maxCreditSeconds;
      var extra := entitlement * MaxR(policy.maxRateMultiple - 1.0, 0.0);
      credit, maxCredit, reserve := 0.0, max, max * Clamp01(policy.continuationReserve);
      ceiling := new DebtBucket(extra, extra, 0.0, now);
    }

    method Rescale(entitlement: real, policy: BurstPolicy, now: real) returns (b: BurstBank)
      modifies this, ceiling
      ensures b.Value() == Rescaled(old(Value()), entitlement, policy, now) && fresh(b) && fresh(b.ceiling)
    {
      b := new BurstBank(entitlement, policy, now);
      b.credit := MinR(credit, b.maxCredit);
      var level := ceiling.Level(now);
      b.ceiling.SetLevel(level);
    }

    method AccrueWu(wu: real)
      modifies this
      ensures Value() == Accrued(old(Value()), wu)
    {
      credit := MinR(credit + wu, maxCredit);
    }

    method Draws(wu: real, continuation: bool, now: real) returns (r: bool)
      modifies ceiling
      ensures Value() == Looked(old(Value()), now) && r == CanDraw(Value(), wu, continuation)
    {
      var overflow := ceiling.Refill(now);
      var usable := if continuation then credit else credit - reserve;
      r := ceiling.TakesStrict(wu);
      r := usable >= wu && r;
    }

    method Draw(wu: real)
      modifies this, ceiling
      ensures Value() == Drawn(old(Value()), wu)
    {
      credit := credit - wu;
      ceiling.Debit(wu);
    }

    method SettleDelta(delta: real)
      modifies this
      ensures Value() == SettledBank(old(Value()), delta)
    {
      credit := MinR(credit - delta, maxCredit);
    }
  }
}
