/**
 Admission for one reservation on one gateway (crates/pt-admission/src/limiter.rs): the
 provisioned bucket, banked burst, the queue and spillover, with bounds over whole runs.
 Calls are atomic, as under the source's lock; leaving the queue is a call of its own.
 */
module Limiter {
  import opened Prelude
  import opened Bucket
  import opened Burst

  datatype Config = Config(entitlement: real, capacityS: real, maxDebtS: real)

  datatype QueuePolicy = QueuePolicy(maxDepthWuSeconds: real, deadlineMs: nat)

  datatype BoundaryPolicy = BoundaryPolicy(burst: Option<BurstPolicy>, queue: Option<QueuePolicy>, spillover: bool)

  datatype Class = Provisioned | Bursting | Spillover

  datatype Reason = EntitlementExhausted | QueueDeadline | QueueFull

  datatype Decision =
    | Admit(class_: Class, wu: real)
    | Queue(wait: real, wu: real)
    | Reject(reason: Reason, retryAfter: real)

  datatype Request = Request(wu: real, continuation: bool, receivedAt: real)

  datatype State = State(
    config: Config, policy: BoundaryPolicy, provisioned: Bucket, burst: Option<Bank>, queued: real, attempted: real)

  predicate ValidConfig(c: Config) {
    c.entitlement >= 0.0 && c.capacityS >= 0.0 && c.maxDebtS >= 0.0
  }

  predicate ValidPolicies(p: BoundaryPolicy) {
    p.burst.Some? ==> ValidPolicy(p.burst.value)
  }

  predicate ValidState(s: State) {
    && ValidBucket(s.provisioned) && (s.burst.Some? ==> ValidBank(s.burst.value))
    && (s.burst.Some? <==> s.policy.burst.Some?)
  }

  function NewBucket(c: Config, now: real): Bucket {
    Full(c.entitlement, c.entitlement * c.capacityS, c.entitlement * c.maxDebtS, now)
  }

  function NewState(c: Config, p: BoundaryPolicy, now: real): State {
    State(c, p, NewBucket(c, now), if p.burst.Some? then Some(NewBank(c.entitlement, p.burst.value, now)) else None, 0.0, 0.0)
  }

  /** Refill, banking the overflow. */
  function RefilledState(s: State, now: real): State {
    s.(provisioned := Refilled(s.provisioned, now),
       burst := if s.burst.Some? then Some(Accrued(s.burst.value, Overflow(s.provisioned, now))) else None)
  }

  function Reconfigured(s: State, c: Config, p: BoundaryPolicy, now: real): State {
    if s.config == c && s.policy == p then s else Carried(RefilledState(s, now), c, p, now)
  }

  /** Level and credit carried over to a new configuration. */
  function Carried(s: State, c: Config, p: BoundaryPolicy, now: real): State {
    s.(config := c, policy := p,
       provisioned := AtLevel(NewBucket(c, now), Refilled(s.provisioned, now).level),
       burst := if p.burst.None? then None
                else if s.burst.Some? then Some(Rescaled(s.burst.value, c.entitlement, p.burst.value, now))
                else Some(NewBank(c.entitlement, p.burst.value, now)))
  }

  const MS: real := 0.001

  function Remaining(q: QueuePolicy, req: Request, now: real): real {
    MaxR(req.receivedAt + q.deadlineMs as real * MS - now, 0.0)
  }

  /** Between 1 and 50 ms. */
  function WaitFor(retryAfter: real): real {
    MaxR(MinR(retryAfter, 50.0 * MS), MS)
  }

  /** What the queue policy says to a request that neither bucket nor burst takes. */
  function Boundary(s: State, req: Request, now: real): (State, Decision) {
    var retryAfter := TimeUntilAdmit(s.provisioned, req.wu);
    var q := s.policy.queue;
    if q.Some? && retryAfter <= Remaining(q.value, req, now) && s.queued + req.wu <= q.value.maxDepthWuSeconds * s.config.entitlement then
      (s.(queued := s.queued + req.wu), Queue(WaitFor(retryAfter), req.wu))
    else if s.policy.spillover then (s, Admit(Spillover, req.wu))
    else
      (s, Reject(if q.None? then EntitlementExhausted
                 else if retryAfter > Remaining(q.value, req, now) then QueueDeadline
                 else QueueFull, retryAfter))
  }

  function Admitted(s: State, req: Request, first: bool, now: real): (State, Decision) {
    var r := RefilledState(s, now);
    var s1 := if first then r.(attempted := r.attempted + req.wu) else r;
    if CanAdmit(s1.provisioned, req.wu) then
      (s1.(provisioned := Debited(s1.provisioned, req.wu)), Admit(Provisioned, req.wu))
    else
      var s2 := s1.(burst := if s1.burst.Some? then Some(Looked(s1.burst.value, now)) else None);
      if s2.burst.Some? && CanDraw(s2.burst.value, req.wu, req.continuation) then
        (s2.(burst := Some(Drawn(s2.burst.value, req.wu))), Admit(Bursting, req.wu))
      else Boundary(s2, req, now)
  }

  function LeftQueue(s: State, wu: real): State {
    s.(queued := MaxR(s.queued - wu, 0.0))
  }

  function SettledState(s: State, class_: Class, delta: real, now: real): State {
    var r := RefilledState(s, now);
    match class_
    case Provisioned => r.(provisioned := Settled(r.provisioned, delta))
    case Bursting => r.(burst := if r.burst.Some? then Some(SettledBank(r.burst.value, delta)) else None)
    case Spillover => r
  }

  // ---------------------------------------------------------------------------
  // Runs
  // ---------------------------------------------------------------------------

  /** An admitted request: its estimate, and its actual WU once settled. */
  datatype Ticket = Ticket(class_: Class, estimated: real, actual: Option<real>)

  datatype Event =
    | Try(req: Request, first: bool, now: real)
    | Leave(slot: nat)
    | Settle(ticket: nat, actual: real, now: real)
    | Resize(config: Config, policy: BoundaryPolicy, now: real)
    | Status(now: real)
    | TakeAttempted

  /** `slots` are the queue slots not yet dropped; `earned` is rate times refilled time. `due`
      is the rate's integral over the time that has really passed, up to `clock`. */
  datatype History = History(s: State, tickets: seq<Ticket>, slots: seq<real>, earned: real, clock: real, due: real)

  predicate Enabled(h: History, e: Event) {
    match e
    case Try(req, _, _) => req.wu >= 0.0
    case Leave(i) => i < |h.slots|
    case Settle(i, _, _) => i < |h.tickets| && h.tickets[i].actual.None?
    case Resize(c, p, _) => ValidConfig(c) && ValidPolicies(p)
    case Status(_) => true
    case TakeAttempted => true
  }

  function Without<T>(xs: seq<T>, i: nat): seq<T>
    requires i < |xs|
  {
    xs[..i] + xs[i + 1..]
  }

  function Earned(b: Bucket, now: real): real {
    b.rate * Elapsed(b, now)
  }

  /** Time passes to `now`, and the bucket is refilled to it. */
  function Timed(h: History, now: real): History {
    h.(earned := h.earned + Earned(h.s.provisioned, now),
       due := h.due + h.s.provisioned.rate * MaxR(now - h.clock, 0.0), clock := MaxR(h.clock, now))
  }

  function Next(h: History, e: Event): History
    requires Enabled(h, e)
  {
    match e
    case Try(req, first, now) =>
      var (s, d) := Admitted(h.s, req, first, now);
      var h1 := Timed(h, now).(s := s);
      (match d
       case Admit(c, wu) => h1.(tickets := h.tickets + [Ticket(c, wu, None)])
       case Queue(_, wu) => h1.(slots := h.slots + [wu])
       case Reject(_, _) => h1)
    case Leave(i) => h.(s := LeftQueue(h.s, h.slots[i]), slots := Without(h.slots, i))
    case Settle(i, actual, now) =>
      var t := h.tickets[i];
      Timed(h, now).(s := SettledState(h.s, t.class_, actual - t.estimated, now), tickets := h.tickets[i := t.(actual := Some(actual))])
    case Resize(c, p, now) =>
      if h.s.config == c && h.s.policy == p then h
      else Timed(h, now).(s := Reconfigured(h.s, c, p, now))
    case Status(now) => Timed(h, now).(s := RefilledState(h.s, now))
    case TakeAttempted => h.(s := h.s.(attempted := 0.0))
  }

  function NewHistory(c: Config, p: BoundaryPolicy, now: real): History {
    History(NewState(c, p, now), [], [], 0.0, now, 0.0)
  }

  /** A run from a new limiter. */
  predicate Run(hs: seq<History>, es: seq<Event>, c: Config, p: BoundaryPolicy, now: real) {
    && |hs| == |es| + 1 && ValidConfig(c) && ValidPolicies(p) && hs[0] == NewHistory(c, p, now)
    && forall i :: 0 <= i < |es| ==> Enabled(hs[i], es[i]) && hs[i + 1] == Next(hs[i], es[i])
  }

  /** WU a ticket counts against the entitlement. */
  function Uses(t: Ticket): real {
    if t.class_ == Spillover then 0.0 else if t.actual.Some? then t.actual.value else t.estimated
  }

  function Consumed(ts: seq<Ticket>): real {
    if ts == [] then 0.0 else Consumed(ts[..|ts| - 1]) + Uses(ts[|ts| - 1])
  }

  function Sum(xs: seq<real>): real {
    if xs == [] then 0.0 else Sum(xs[..|xs| - 1]) + xs[|xs| - 1]
  }

  function Credit(s: State): real {
    if s.burst.Some? then s.burst.value.credit else 0.0
  }

  lemma {:induction false} ConsumedUpdate(ts: seq<Ticket>, i: nat, t: Ticket)
    requires i < |ts|
    ensures Consumed(ts[i := t]) == Consumed(ts) - Uses(ts[i]) + Uses(t)
  {
    var n := |ts| - 1;
    if i == n {
      assert ts[i := t][..n] == ts[..n];
    } else {
      assert ts[i := t][..n] == ts[..n][i := t];
      ConsumedUpdate(ts[..n], i, t);
    }
  }

  lemma ConsumedGrows(ts: seq<Ticket>, t: Ticket)
    ensures Consumed(ts + [t]) == Consumed(ts) + Uses(t)
  {
    assert (ts + [t])[..|ts|] == ts;
  }

  lemma SumGrows(xs: seq<real>, x: real)
    ensures Sum(xs + [x]) == Sum(xs) + x
  {
    assert (xs + [x])[..|xs|] == xs;
  }

  lemma {:induction false} SumWithout(xs: seq<real>, i: nat)
    requires i < |xs|
    ensures Sum(Without(xs, i)) == Sum(xs) - xs[i]
  {
    var n := |xs| - 1;
    if i == n {
      assert Without(xs, i) == xs[..n];
    } else {
      assert Without(xs, i) == Without(xs[..n], i) + [xs[n]];
      SumGrows(Without(xs[..n], i), xs[n]);
      SumWithout(xs[..n], i);
    }
  }

  predicate NonNegative(xs: seq<real>) {
    forall i :: 0 <= i < |xs| ==> xs[i] >= 0.0
  }

  lemma {:induction false} SumNonNegative(xs: seq<real>)
    requires NonNegative(xs)
    ensures Sum(xs) >= 0.0
  {
    if xs != [] {
      SumNonNegative(xs[..|xs| - 1]);
    }
  }

  lemma TimedKeeps(h: History, now: real)
    ensures var t := Timed(h, now);
      t.earned == h.earned + Earned(h.s.provisioned, now) && t.s == h.s && t.tickets == h.tickets && t.slots == h.slots
  {
  }

  // ---------------------------------------------------------------------------
  // What each call does to level plus credit
  // ---------------------------------------------------------------------------

  lemma NewBucketValid(c: Config, now: real)
    requires ValidConfig(c)
    ensures ValidBucket(NewBucket(c, now))
  {
    Product(c.entitlement, c.capacityS);
    Product(c.entitlement, c.maxDebtS);
  }

  lemma RefillBound(s: State, now: real)
    requires ValidState(s)
    ensures var r := RefilledState(s, now);
      && ValidState(r) && r.provisioned.level >= s.provisioned.level
      && r.provisioned.level + Credit(r) <= s.provisioned.level + Credit(s) + Earned(s.provisioned, now)
      && Credit(r) >= Credit(s) && r.queued == s.queued && (r.burst.Some? <==> s.burst.Some?)
  {
    RefillEarns(s.provisioned, now);
  }

  lemma AdmitBound(s: State, req: Request, first: bool, now: real)
    requires ValidState(s) && req.wu >= 0.0
    ensures var (s', d) := Admitted(s, req, first, now);
      && ValidState(s')
      && s'.provisioned.level + Credit(s') + (if d.Admit? && d.class_ != Spillover then d.wu else 0.0)
         <= s.provisioned.level + Credit(s) + Earned(s.provisioned, now)
      && (d.Admit? && d.class_ == Bursting ==> s'.burst.Some?)
      && (s'.burst.Some? <==> s.burst.Some?)
      && (!d.Reject? ==> d.wu == req.wu) && s'.queued == s.queued + (if d.Queue? then d.wu else 0.0)
  {
    RefillBound(s, now);
    var r := RefilledState(s, now);
    if r.burst.Some? {
      RefillEarns(r.burst.value.ceiling, now);
    }
  }

  /** WU that a settlement charges nowhere: the bank a request drew on is gone. */
  predicate Unbanked(s: State, class_: Class) {
    class_ == Bursting && s.burst.None?
  }

  lemma SettleBound(s: State, class_: Class, delta: real, now: real)
    requires ValidState(s)
    ensures var s' := SettledState(s, class_, delta, now);
      && ValidState(s') && (s'.burst.Some? <==> s.burst.Some?) && s'.queued == s.queued
      && s'.provisioned.level + Credit(s') + (if class_ == Spillover || Unbanked(s, class_) then 0.0 else delta)
         <= s.provisioned.level + Credit(s) + Earned(s.provisioned, now)
  {
    RefillBound(s, now);
  }

  /** Credit below zero that a resize without a burst policy drops. */
  function Dropped(s: State, p: BoundaryPolicy, now: real): real {
    if p.burst.None? then MaxR(-Credit(RefilledState(s, now)), 0.0) else 0.0
  }

  lemma ResizeBound(s: State, c: Config, p: BoundaryPolicy, now: real)
    requires ValidState(s) && ValidConfig(c) && ValidPolicies(p)
    requires !(s.config == c && s.policy == p)
    ensures var s' := Reconfigured(s, c, p, now);
      && ValidState(s') && (s'.burst.Some? <==> p.burst.Some?) && s'.queued == s.queued
      && s'.provisioned.level + Credit(s') <= s.provisioned.level + Credit(s) + Earned(s.provisioned, now) + Dropped(s, p, now)
  {
    RefillBound(s, now);
    NewBucketValid(c, now);
    var r := RefilledState(s, now);
    RefillEarns(r.provisioned, now);
    if p.burst.Some? {
      NewBankValid(c.entitlement, p.burst.value, now);
      if r.burst.Some? {
        RescaledValid(r.burst.value, c.entitlement, p.burst.value, now);
      }
    }
  }

  // ---------------------------------------------------------------------------
  // The entitlement over whole runs
  // ---------------------------------------------------------------------------

  /** What holds all along: consumption, level and credit are covered by the initial capacity
      and what was earned or forgiven; the queue's depth is what its slots hold. */
  predicate Accounted(h: History, initial: real) {
    && ValidState(h.s)
    && Consumed(h.tickets) + h.s.provisioned.level + Credit(h.s) <= h.earned + initial
    && NonNegative(h.slots) && h.s.queued == Sum(h.slots)
  }

  /** WU a call lets go of: overdrawn credit dropped with the burst policy, and what a request
      that drew on a bank since dropped used above its estimate. */
  function ForgivenBy(h: History, e: Event): real {
    match e
    case Resize(_, p, now) => Dropped(h.s, p, now)
    case Settle(i, actual, _) =>
      if i < |h.tickets| && Unbanked(h.s, h.tickets[i].class_) then MaxR(actual - h.tickets[i].estimated, 0.0) else 0.0
    case _ => 0.0
  }

  predicate Forgives(h: History, e: Event) {
    match e
    case Resize(_, p, now) => p.burst.None? && Credit(RefilledState(h.s, now)) < 0.0
    case Settle(i, actual, _) => i < |h.tickets| && Unbanked(h.s, h.tickets[i].class_) && actual > h.tickets[i].estimated
    case _ => false
  }

  /** WU let go of by the first `n` calls. */
  function Forgiven(hs: seq<History>, es: seq<Event>, n: nat): real
    requires n <= |es| <= |hs|
  {
    if n == 0 then 0.0 else Forgiven(hs, es, n - 1) + ForgivenBy(hs[n - 1], es[n - 1])
  }

  lemma TryAccounted(h: History, e: Event, initial: real)
    requires Accounted(h, initial) && e.Try? && Enabled(h, e)
    ensures Accounted(Next(h, e), initial)
  {
    hide Admitted, Timed, Earned;
    TimedKeeps(h, e.now);
    var (s, d) := Admitted(h.s, e.req, e.first, e.now);
    AdmitBound(h.s, e.req, e.first, e.now);
    match d
    case Admit(c, wu) => ConsumedGrows(h.tickets, Ticket(c, wu, None));
    case Queue(_, wu) => SumGrows(h.slots, wu);
    case Reject(_, _) =>
  }

  lemma LeaveAccounted(h: History, e: Event, initial: real)
    requires Accounted(h, initial) && e.Leave? && Enabled(h, e)
    ensures Accounted(Next(h, e), initial)
  {
    hide Timed, Admitted, SettledState, Reconfigured, RefilledState, Consumed;
    SumWithout(h.slots, e.slot);
    SumNonNegative(Without(h.slots, e.slot));
  }

  lemma SettleAccounted(h: History, e: Event, initial: real)
    requires Accounted(h, initial) && e.Settle? && Enabled(h, e)
    ensures Accounted(Next(h, e), initial + ForgivenBy(h, e))
  {
    hide Timed, Earned, SettledState;
    TimedKeeps(h, e.now);
    var t := h.tickets[e.ticket];
    SettleBound(h.s, t.class_, e.actual - t.estimated, e.now);
    ConsumedUpdate(h.tickets, e.ticket, t.(actual := Some(e.actual)));
  }

  lemma ResizeAccounted(h: History, e: Event, initial: real)
    requires Accounted(h, initial) && e.Resize? && Enabled(h, e)
    ensures Accounted(Next(h, e), initial + ForgivenBy(h, e))
  {
    hide Timed, Earned, Reconfigured, RefilledState;
    TimedKeeps(h, e.now);
    if !(h.s.config == e.config && h.s.policy == e.policy) {
      ResizeBound(h.s, e.config, e.policy, e.now);
    }
  }

  lemma StepAccounted(h: History, e: Event, initial: real)
    requires Accounted(h, initial) && Enabled(h, e)
    ensures Accounted(Next(h, e), initial + ForgivenBy(h, e))
  {
    hide Timed, Earned, Reconfigured, RefilledState, Dropped;
    match e
    case Try(_, _, _) => TryAccounted(h, e, initial);
    case Leave(_) => LeaveAccounted(h, e, initial);
    case Settle(_, _, _) => SettleAccounted(h, e, initial);
    case Resize(_, _, _) => ResizeAccounted(h, e, initial);
    case Status(now) =>
      TimedKeeps(h, now);
      RefillBound(h.s, now);
    case TakeAttempted =>
  }

  /** Entitlement bound: in every run, provisioned and burst WU (actual once settled, estimated
      until then) is at most the rate over the time refilled, plus the initial capacity, plus
      what was forgiven, less the level and the credit. And the queue's depth is always what
      the outstanding slots hold. */
  lemma EntitlementBound(hs: seq<History>, es: seq<Event>, c: Config, p: BoundaryPolicy, start: real, n: nat)
    requires Run(hs, es, c, p, start) && n <= |es|
    ensures Accounted(hs[n], c.entitlement * c.capacityS + Forgiven(hs, es, n))
  {
    hide Next, Enabled, Accounted, NewHistory, Forgiven;
    AccountedAtFirst(c, p, start);
    RunAccounted(hs, es, c, p, start, c.entitlement * c.capacityS, n);
  }

  lemma AccountedAtFirst(c: Config, p: BoundaryPolicy, start: real)
    requires ValidConfig(c) && ValidPolicies(p)
    ensures Accounted(NewHistory(c, p, start), c.entitlement * c.capacityS)
  {
    NewBucketValid(c, start);
    if p.burst.Some? {
      NewBankValid(c.entitlement, p.burst.value, start);
    }
    hide ValidBucket, ValidBank;
  }

  lemma {:induction false} RunAccounted(hs: seq<History>, es: seq<Event>, c: Config, p: BoundaryPolicy, start: real, initial: real, n: nat)
    requires Run(hs, es, c, p, start) && n <= |es| && Accounted(hs[0], initial)
    ensures Accounted(hs[n], initial + Forgiven(hs, es, n))
  {
    hide Next, Enabled, Accounted, NewHistory, ForgivenBy;
    if n == 0 {
      assert initial + Forgiven(hs, es, 0) == initial;
    } else {
      RunAccounted(hs, es, c, p, start, initial, n - 1);
      StepAccounted(hs[n - 1], es[n - 1], initial + Forgiven(hs, es, n - 1));
      assert initial + Forgiven(hs, es, n - 1) + ForgivenBy(hs[n - 1], es[n - 1]) == initial + Forgiven(hs, es, n);
    }
  }

  /** Nothing was forgiven exactly when no call dropped overdrawn credit with the burst policy
      and none settled, above its estimate, a request whose bank is gone. */
  lemma {:induction false} ForgivenIff(hs: seq<History>, es: seq<Event>, n: nat)
    requires n <= |es| <= |hs|
    ensures Forgiven(hs, es, n) >= 0.0 && (Forgiven(hs, es, n) == 0.0 <==> forall i :: 0 <= i < n ==> !Forgives(hs[i], es[i]))
  {
    if n > 0 {
      ForgivenIff(hs, es, n - 1);
      ForgivesIff(hs[n - 1], es[n - 1]);
      hide Forgives, ForgivenBy;
      assert (forall i :: 0 <= i < n ==> !Forgives(hs[i], es[i]))
        <==> (forall i :: 0 <= i < n - 1 ==> !Forgives(hs[i], es[i])) && !Forgives(hs[n - 1], es[n - 1]);
    }
  }

  lemma ForgivesIff(h: History, e: Event)
    ensures ForgivenBy(h, e) >= 0.0 && (ForgivenBy(h, e) == 0.0 <==> !Forgives(h, e))
  {
  }

  /** A resize that leaves a limiter its burst bank, if it has one. */
  predicate KeepsBurst(h: History, e: Event) {
    e.Resize? && h.s.burst.Some? ==> e.policy.burst.Some?
  }

  /** Every burst request has a bank to settle with. */
  predicate Banked(h: History) {
    ValidState(h.s) && forall t :: t in h.tickets && t.class_ == Bursting ==> h.s.burst.Some?
  }

  lemma StepBanked(h: History, e: Event)
    requires Banked(h) && Enabled(h, e) && KeepsBurst(h, e)
    ensures Banked(Next(h, e)) && !Forgives(h, e)
  {
    StepValid(h, e);
    match e
    case Try(req, first, now) => AdmitBound(h.s, req, first, now);
    case Settle(i, _, _) => assert h.tickets[i] in h.tickets;
    case _ =>
  }

  lemma {:induction false} RunBanked(hs: seq<History>, es: seq<Event>, c: Config, p: BoundaryPolicy, start: real, n: nat)
    requires Run(hs, es, c, p, start) && n <= |es| && forall i :: 0 <= i < n ==> KeepsBurst(hs[i], es[i])
    ensures Banked(hs[n]) && forall i :: 0 <= i < n ==> !Forgives(hs[i], es[i])
  {
    if n == 0 {
      RunValid(hs, es, c, p, start, 0);
    } else {
      hide Banked, Next, Enabled, KeepsBurst, Forgives, NewHistory;
      RunBanked(hs, es, c, p, start, n - 1);
      assert KeepsBurst(hs[n - 1], es[n - 1]);
      StepBanked(hs[n - 1], es[n - 1]);
    }
  }

  /** In a run that keeps the burst policy nothing is forgiven. */
  lemma KeptPolicyBound(hs: seq<History>, es: seq<Event>, c: Config, p: BoundaryPolicy, start: real, n: nat)
    requires Run(hs, es, c, p, start) && n <= |es| && forall i :: 0 <= i < n ==> KeepsBurst(hs[i], es[i])
    ensures Forgiven(hs, es, n) == 0.0 && Accounted(hs[n], c.entitlement * c.capacityS)
  {
    hide Next, Enabled, Accounted, KeepsBurst, Forgives, NewHistory, Banked, Forgiven;
    RunBanked(hs, es, c, p, start, n);
    ForgivenIff(hs, es, n);
    EntitlementBound(hs, es, c, p, start, n);
    assert c.entitlement * c.capacityS + Forgiven(hs, es, n) == c.entitlement * c.capacityS;
  }

  // ---------------------------------------------------------------------------
  // The exact balance
  // ---------------------------------------------------------------------------

  /** What does not fit under a cap. */
  function Above(x: real, cap: real): real {
    MaxR(x - cap, 0.0)
  }

  /** Level and credit once refilled to `now`, and what neither had room for. */
  datatype Topped = Topped(level: real, credit: real, lost: real)

  function ToppedUp(s: State, now: real): Topped {
    var b := s.provisioned;
    var full := b.level + b.rate * MaxR(now - b.last, 0.0);
    var over := Above(full, b.capacity);
    if s.burst.None? then Topped(full - over, 0.0, over)
    else
      var lost := Above(s.burst.value.credit + over, s.burst.value.maxCredit);
      Topped(full - over, s.burst.value.credit + over - lost, lost)
  }

  function CapacityOf(c: Config): real {
    c.entitlement * c.capacityS
  }

  function MaxCreditOf(c: Config, p: BurstPolicy): real {
    c.entitlement * p.maxCreditSeconds
  }

  /** WU a call throws away: what bucket and bank have no room for when refilled, refunded or
      resized, credit dropped with its bank, and a refund whose bank is gone. */
  function LostBy(h: History, e: Event): real {
    match e
    case Try(_, _, now) => ToppedUp(h.s, now).lost
    case Status(now) => ToppedUp(h.s, now).lost
    case Settle(i, actual, now) =>
      var top := ToppedUp(h.s, now);
      if i >= |h.tickets| then top.lost
      else
        var t := h.tickets[i];
        top.lost + (match t.class_
                    case Provisioned => Above(top.level + (t.estimated - actual), h.s.provisioned.capacity)
                    case Bursting =>
                      if h.s.burst.Some? then Above(top.credit + (t.estimated - actual), h.s.burst.value.maxCredit)
                      else MaxR(t.estimated - actual, 0.0)
                    case Spillover => 0.0)
    case Resize(c, p, now) =>
      if h.s.config == c && h.s.policy == p then 0.0
      else
        var top := ToppedUp(h.s, now);
        top.lost + Above(top.level, CapacityOf(c))
        + (if p.burst.None? then MaxR(top.credit, 0.0) else Above(top.credit, MaxCreditOf(c, p.burst.value)))
    case _ => 0.0
  }

  lemma ToppedUpIs(s: State, now: real)
    requires ValidState(s)
    ensures var (r, top) := (RefilledState(s, now), ToppedUp(s, now));
      && r.provisioned.level == top.level && Credit(r) == top.credit
      && top.level + top.credit + top.lost == s.provisioned.level + Credit(s) + Earned(s.provisioned, now)
  {
    RefillEarns(s.provisioned, now);
  }

  /** Consumption, level and credit. */
  function Balance(h: History): real {
    Consumed(h.tickets) + h.s.provisioned.level + Credit(h.s)
  }

  predicate Balances(h: History, e: Event)
    requires Enabled(h, e)
  {
    Balance(Next(h, e)) + LostBy(h, e) == Balance(h) + (Next(h, e).earned - h.earned) + ForgivenBy(h, e)
  }

  lemma TryBalances(h: History, e: Event)
    requires ValidState(h.s) && e.Try? && Enabled(h, e)
    ensures Balances(h, e)
  {
    hide Timed, Earned, RefilledState, ToppedUp, Consumed;
    TimedKeeps(h, e.now);
    ToppedUpIs(h.s, e.now);
    AdmitTakes(h.s, e.req, e.first, e.now);
    var (s, d) := Admitted(h.s, e.req, e.first, e.now);
    hide Admitted;
    match d
    case Admit(c, wu) => ConsumedGrows(h.tickets, Ticket(c, wu, None));
    case Queue(_, _) =>
    case Reject(_, _) =>
  }

  /** An attempt takes exactly what it admits, from the bucket or from the bank. */
  lemma AdmitTakes(s: State, req: Request, first: bool, now: real)
    ensures var (s', d) := Admitted(s, req, first, now);
      var r := RefilledState(s, now);
      && s'.provisioned.level == r.provisioned.level - (if d.Admit? && d.class_ == Provisioned then d.wu else 0.0)
      && Credit(s') == Credit(r) - (if d.Admit? && d.class_ == Bursting then d.wu else 0.0)
  {
    hide RefilledState, CanAdmit, CanDraw, TimeUntilAdmit, Refilled;
  }

  lemma SettleBalances(h: History, e: Event)
    requires ValidState(h.s) && e.Settle? && Enabled(h, e)
    ensures Balances(h, e)
  {
    hide Timed, Earned, RefilledState, ToppedUp, Consumed;
    TimedKeeps(h, e.now);
    ToppedUpIs(h.s, e.now);
    RefillKeeps(h.s, e.now);
    var t := h.tickets[e.ticket];
    ConsumedUpdate(h.tickets, e.ticket, t.(actual := Some(e.actual)));
  }

  /** A settlement moves the level, or the credit, by what the estimate was off, up to its cap. */
  predicate SettlesAs(s: State, class_: Class, refund: real, now: real, s': State) {
    var top := ToppedUp(s, now);
    match class_
    case Provisioned => s'.provisioned.level == MinR(top.level + refund, s.provisioned.capacity) && Credit(s') == top.credit
    case Bursting =>
      && s'.provisioned.level == top.level
      && (s.burst.Some? ==> Credit(s') == MinR(top.credit + refund, s.burst.value.maxCredit))
    case Spillover => s'.provisioned.level == top.level && Credit(s') == top.credit
  }

  lemma SettledIs(s: State, class_: Class, delta: real, now: real)
    requires ValidState(s)
    ensures SettlesAs(s, class_, -delta, now, SettledState(s, class_, delta, now))
  {
    ToppedUpIs(s, now);
    RefillKeeps(s, now);
    hide RefilledState, ToppedUp;
  }

  lemma RefillKeeps(s: State, now: real)
    ensures var r := RefilledState(s, now);
      && r == s.(provisioned := r.provisioned, burst := r.burst) && (r.burst.Some? <==> s.burst.Some?)
      && r.provisioned == s.provisioned.(level := r.provisioned.level, last := MaxR(s.provisioned.last, now))
      && (s.burst.Some? ==> r.burst.value == s.burst.value.(credit := r.burst.value.credit))
  {
  }

  lemma ResizeBalances(h: History, e: Event)
    requires ValidState(h.s) && e.Resize? && Enabled(h, e)
    ensures Balances(h, e)
  {
    hide Timed, Earned, RefilledState, ToppedUp, Consumed, Reconfigured, CapacityOf, MaxCreditOf, ValidBucket, ValidBank;
    TimedKeeps(h, e.now);
    if !(h.s.config == e.config && h.s.policy == e.policy) {
      ToppedUpIs(h.s, e.now);
      ResizeCarries(h.s, e.config, e.policy, e.now);
    } else {
      RefillKeeps(h.s, e.now);
    }
  }

  /** A resize keeps level and credit, as far as the new limits go. */
  lemma ResizeCarries(s: State, c: Config, p: BoundaryPolicy, now: real)
    requires ValidState(s) && ValidConfig(c) && ValidPolicies(p) && !(s.config == c && s.policy == p)
    ensures var (s', r) := (Reconfigured(s, c, p, now), RefilledState(s, now));
      && s'.provisioned.level == MinR(r.provisioned.level, CapacityOf(c))
      && Credit(s') == (if p.burst.None? then 0.0 else MinR(Credit(r), MaxCreditOf(c, p.burst.value)))
      && s' == s.(config := c, policy := p, provisioned := s'.provisioned, burst := s'.burst) && (s'.burst.Some? <==> p.burst.Some?)
      && s'.provisioned == Bucket(c.entitlement, c.entitlement * c.capacityS, c.entitlement * c.maxDebtS, s'.provisioned.level, now)
  {
    var r := RefilledState(s, now);
    RefillKeeps(s, now);
    RefillBound(s, now);
    RefilledTwice(r.provisioned, now);
    if p.burst.Some? {
      Product(c.entitlement, p.burst.value.maxCreditSeconds);
    }
    hide RefilledState, Refilled;
  }

  /** The bank of a new policy: limits from the entitlement, and the ceiling at the old one's
      level or, if there was none, full. */
  lemma ResizeBanks(s: State, c: Config, p: BoundaryPolicy, now: real)
    requires ValidState(s) && ValidConfig(c) && ValidPolicies(p) && !(s.config == c && s.policy == p) && p.burst.Some?
    ensures var (s', q) := (Reconfigured(s, c, p, now), p.burst.value);
      var extra := c.entitlement * MaxR(q.maxRateMultiple - 1.0, 0.0);
      var reserve := if q.continuationReserve < 0.0 then 0.0 else if q.continuationReserve > 1.0 then 1.0 else q.continuationReserve;
      && s'.burst.Some?
      && var b := s'.burst.value;
         && b.maxCredit == c.entitlement * q.maxCreditSeconds && b.reserve == c.entitlement * q.maxCreditSeconds * reserve
         && b.ceiling == Bucket(extra, extra, 0.0, b.ceiling.level, now)
         && b.ceiling.level == if s.burst.Some? then MinR(Refilled(s.burst.value.ceiling, now).level, extra) else extra
  {
    RefillKeeps(s, now);
    hide RefilledState, Refilled;
  }

  lemma RefilledTwice(b: Bucket, now: real)
    requires b.last >= now && b.level <= b.capacity
    ensures Refilled(b, now) == b
  {
    assert Elapsed(b, now) == 0.0;
    hide Elapsed;
  }

  lemma StepBalances(h: History, e: Event)
    requires ValidState(h.s) && Enabled(h, e)
    ensures Balances(h, e)
  {
    hide Timed, Earned, RefilledState, ToppedUp, Consumed;
    match e
    case Try(_, _, _) => TryBalances(h, e);
    case Settle(_, _, _) => SettleBalances(h, e);
    case Resize(_, _, _) => ResizeBalances(h, e);
    case Status(now) =>
      TimedKeeps(h, now);
      ToppedUpIs(h.s, now);
    case _ =>
  }

  /** WU thrown away by the first `n` calls. */
  function Lost(hs: seq<History>, es: seq<Event>, n: nat): real
    requires n <= |es| <= |hs|
  {
    if n == 0 then 0.0 else Lost(hs, es, n - 1) + LostBy(hs[n - 1], es[n - 1])
  }

  /** Conservation: in every run, what was consumed, what is left, and what the caps threw away
      is exactly what was earned, the capacity to begin with, and what was forgiven. */
  lemma ExactBalance(hs: seq<History>, es: seq<Event>, c: Config, p: BoundaryPolicy, start: real, n: nat)
    requires Run(hs, es, c, p, start) && n <= |es|
    ensures Balance(hs[n]) + Lost(hs, es, n) == hs[n].earned + c.entitlement * c.capacityS + Forgiven(hs, es, n)
  {
    BalanceAtFirst(c, p, start);
    hide Balance, NewHistory;
    RunBalances(hs, es, c, p, start, c.entitlement * c.capacityS, n);
  }

  lemma BalanceAtFirst(c: Config, p: BoundaryPolicy, start: real)
    ensures Balance(NewHistory(c, p, start)) == c.entitlement * c.capacityS && NewHistory(c, p, start).earned == 0.0
  {
  }

  lemma {:induction false} RunBalances(hs: seq<History>, es: seq<Event>, c: Config, p: BoundaryPolicy, start: real, initial: real, n: nat)
    requires Run(hs, es, c, p, start) && n <= |es| && Balance(hs[0]) == initial && hs[0].earned == 0.0
    ensures Balance(hs[n]) + Lost(hs, es, n) == hs[n].earned + initial + Forgiven(hs, es, n)
  {
    hide Next, Enabled, NewHistory, Balance, LostBy, ForgivenBy;
    if n > 0 {
      RunBalances(hs, es, c, p, start, initial, n - 1);
      RunValid(hs, es, c, p, start, n - 1);
      StepBalances(hs[n - 1], es[n - 1]);
    }
  }

  // ---------------------------------------------------------------------------
  // What an attempt is told
  // ---------------------------------------------------------------------------

  predicate RoomInBucket(b: Bucket, wu: real) {
    b.level > 0.0 && (b.level + b.maxDebt >= wu || b.level == b.capacity)
  }

  /** The credit a request may draw: continuations may use the reserve. */
  predicate RoomInBank(bank: Bank, ceiling: real, wu: real, continuation: bool) {
    && bank.credit - (if continuation then 0.0 else bank.reserve) >= wu
    && (ceiling >= wu || ceiling >= bank.ceiling.capacity)
  }

  predicate RoomInQueue(s: State, wait: real, req: Request, now: real) {
    && s.policy.queue.Some? && s.queued + req.wu <= s.policy.queue.value.maxDepthWuSeconds * s.config.entitlement
    && InTimeToWait(s, wait, req, now)
  }

  predicate InTimeToWait(s: State, wait: real, req: Request, now: real) {
    s.policy.queue.Some? && (wait <= 0.0 || now + wait <= req.receivedAt + s.policy.queue.value.deadlineMs as real * MS)
  }

  /** Every decision by what has room, in this order: bucket, bank, queue, spillover; and the
      reason of a rejection. `r` is the state refilled, `ceiling` the bank's ceiling likewise. */
  predicate Told(r: State, ceiling: real, wait: real, req: Request, now: real, s: State, d: Decision) {
    if RoomInBucket(r.provisioned, req.wu) then
      d == Admit(Provisioned, req.wu) && s.provisioned.level == r.provisioned.level - req.wu && Credit(s) == Credit(r) && s.queued == r.queued
    else if r.burst.Some? && RoomInBank(r.burst.value, ceiling, req.wu, req.continuation) then
      d == Admit(Bursting, req.wu) && Credit(s) == Credit(r) - req.wu && s.burst.Some? && s.burst.value.ceiling.level == ceiling - req.wu
      && s.provisioned == r.provisioned && s.queued == r.queued
    else
      && s.provisioned == r.provisioned && Credit(s) == Credit(r)
      && (if RoomInQueue(r, wait, req, now) then
            d.Queue? && d.wu == req.wu && s.queued == r.queued + req.wu
            && d.wait == if wait < MS then MS else if wait > 50.0 * MS then 50.0 * MS else wait
          else
            && s.queued == r.queued
            && d == if r.policy.spillover then Admit(Spillover, req.wu)
                    else Reject(if r.policy.queue.None? then EntitlementExhausted
                                else if InTimeToWait(r, wait, req, now) then QueueFull else QueueDeadline, wait))
  }

  predicate ToldAt(s: State, req: Request, now: real, s': State, d: Decision) {
    var r := RefilledState(s, now);
    Told(r, if r.burst.Some? then Refilled(r.burst.value.ceiling, now).level else 0.0, TimeUntilAdmit(r.provisioned, req.wu), req, now, s', d)
  }

  lemma AdmittedIs(s: State, req: Request, first: bool, now: real)
    requires ValidState(s) && req.wu >= 0.0
    ensures var (s', d) := Admitted(s, req, first, now);
      && ToldAt(s, req, now, s', d)
      && s'.attempted == s.attempted + (if first then req.wu else 0.0) && s'.config == s.config && s'.policy == s.policy
  {
    hide RefilledState, Refilled, TimeUntilAdmit, Boundary, RoomInQueue, InTimeToWait, WaitFor;
    RefillBound(s, now);
    RefillKeeps(s, now);
    var r := RefilledState(s, now);
    var s1 := if first then r.(attempted := r.attempted + req.wu) else r;
    if RoomInBucket(r.provisioned, req.wu) {
      assert CanAdmit(s1.provisioned, req.wu);
    } else {
      assert !CanAdmit(s1.provisioned, req.wu);
      var s2 := s1.(burst := if s1.burst.Some? then Some(Looked(s1.burst.value, now)) else None);
      if r.burst.Some? {
        RefilledLimits(r.burst.value.ceiling, now);
      }
      BoundaryIs(s2, req, now);
      SameQueue(r, s2, TimeUntilAdmit(r.provisioned, req.wu), req, now);
    }
  }

  lemma RefilledLimits(b: Bucket, now: real)
    ensures Refilled(b, now).capacity == b.capacity
  {
  }

  lemma SameQueue(r: State, s: State, wait: real, req: Request, now: real)
    requires r.policy == s.policy && r.config == s.config && r.queued == s.queued
    ensures RoomInQueue(r, wait, req, now) == RoomInQueue(s, wait, req, now) && InTimeToWait(r, wait, req, now) == InTimeToWait(s, wait, req, now)
  {
  }

  lemma BoundaryIs(s: State, req: Request, now: real)
    ensures var (s', d) := Boundary(s, req, now);
      var wait := TimeUntilAdmit(s.provisioned, req.wu);
      && s' == s.(queued := s'.queued)
      && if RoomInQueue(s, wait, req, now) then
           d == Queue(if wait < MS then MS else if wait > 50.0 * MS then 50.0 * MS else wait, req.wu) && s'.queued == s.queued + req.wu
         else
           && s'.queued == s.queued
           && d == if s.policy.spillover then Admit(Spillover, req.wu)
                   else Reject(if s.policy.queue.None? then EntitlementExhausted
                               else if InTimeToWait(s, wait, req, now) then QueueFull else QueueDeadline, wait)
  {
    WaitNotNegative(s.provisioned, req.wu);
    hide TimeUntilAdmit;
  }

  lemma WaitNotNegative(b: Bucket, wu: real)
    ensures TimeUntilAdmit(b, wu) >= 0.0
  {
  }

  /** A draw that is no continuation leaves the reserve alone, and no draw overdraws. */
  lemma ReserveIsKept(s: State, req: Request, first: bool, now: real)
    requires ValidState(s) && req.wu >= 0.0 && Admitted(s, req, first, now).1 == Admit(Bursting, req.wu)
    ensures var s' := Admitted(s, req, first, now).0;
      s'.burst.Some? && s'.burst.value.credit >= 0.0 && (!req.continuation ==> s'.burst.value.credit >= s'.burst.value.reserve)
  {
    AdmittedIs(s, req, first, now);
    RefillBound(s, now);
    RefillKeeps(s, now);
    AdmitKeepsReserve(s, req, first, now);
    hide RefilledState, Admitted, Refilled;
  }

  lemma AdmitKeepsReserve(s: State, req: Request, first: bool, now: real)
    ensures var s' := Admitted(s, req, first, now).0;
      (s'.burst.Some? <==> s.burst.Some?) && (s.burst.Some? ==> s'.burst.value.reserve == s.burst.value.reserve)
  {
  }

  /** A run that changes neither configuration nor policy. */
  predicate SameSetting(h: History, e: Event) {
    e.Resize? ==> e.config == h.s.config && e.policy == h.s.policy
  }

  predicate WithinDepth(h: History, c: Config, p: BoundaryPolicy) {
    && h.s.config == c && h.s.policy == p
    && if p.queue.None? then h.s.queued == 0.0 else h.s.queued <= MaxR(p.queue.value.maxDepthWuSeconds * c.entitlement, 0.0)
  }

  lemma StepWithinDepth(h: History, e: Event, c: Config, p: BoundaryPolicy)
    requires ValidState(h.s) && Enabled(h, e) && SameSetting(h, e) && WithinDepth(h, c, p)
    requires NonNegative(h.slots) && h.s.queued == Sum(h.slots)
    ensures WithinDepth(Next(h, e), c, p)
  {
    hide Timed, RefilledState, Admitted, SettledState, Reconfigured, Sum;
    match e
    case Try(req, first, now) =>
      AdmittedIs(h.s, req, first, now);
      RefillKeeps(h.s, now);
      hide TimeUntilAdmit, Refilled, Credit;
    case Leave(i) =>
      SumAtLeast(h.slots, i);
    case Settle(i, actual, now) => SettleKeepsQueue(h.s, h.tickets[i].class_, actual - h.tickets[i].estimated, now);
    case Status(now) => RefillKeeps(h.s, now);
    case _ =>
  }

  lemma SettleKeepsQueue(s: State, class_: Class, delta: real, now: real)
    ensures var s' := SettledState(s, class_, delta, now); s'.queued == s.queued && s'.config == s.config && s'.policy == s.policy
  {
  }

  lemma SumAtLeast(xs: seq<real>, i: nat)
    requires i < |xs| && NonNegative(xs)
    ensures 0.0 <= xs[i] <= Sum(xs)
  {
    SumWithout(xs, i);
    SumNonNegative(Without(xs, i));
  }

  lemma RunQueued(hs: seq<History>, es: seq<Event>, c: Config, p: BoundaryPolicy, start: real, n: nat)
    requires Run(hs, es, c, p, start) && n <= |es|
    ensures NonNegative(hs[n].slots) && hs[n].s.queued == Sum(hs[n].slots)
  {
    hide Next, Enabled, NewHistory, Forgiven, Consumed;
    EntitlementBound(hs, es, c, p, start, n);
  }

  /** At a fixed configuration the queue never holds more than its depth, and without a queue
      nothing. */
  lemma {:induction false} QueueWithinDepth(hs: seq<History>, es: seq<Event>, c: Config, p: BoundaryPolicy, start: real, n: nat)
    requires Run(hs, es, c, p, start) && n <= |es| && forall i :: 0 <= i < n ==> SameSetting(hs[i], es[i])
    ensures WithinDepth(hs[n], c, p)
  {
    if n > 0 {
      hide Next, Enabled, WithinDepth, SameSetting, NewHistory, ValidState;
      QueueWithinDepth(hs, es, c, p, start, n - 1);
      RunValid(hs, es, c, p, start, n - 1);
      RunQueued(hs, es, c, p, start, n - 1);
      assert SameSetting(hs[n - 1], es[n - 1]);
      StepWithinDepth(hs[n - 1], es[n - 1], c, p);
    }
  }

  /** The queue's depth is exactly what the outstanding slots hold. */
  lemma QueueDepthIsOutstanding(hs: seq<History>, es: seq<Event>, c: Config, p: BoundaryPolicy, start: real, n: nat)
    requires Run(hs, es, c, p, start) && n <= |es|
    ensures hs[n].s.queued == Sum(hs[n].slots)
  {
    EntitlementBound(hs, es, c, p, start, n);
  }

  lemma RunValid(hs: seq<History>, es: seq<Event>, c: Config, p: BoundaryPolicy, start: real, n: nat)
    requires Run(hs, es, c, p, start) && n <= |es|
    ensures ValidState(hs[n].s)
  {
    EntitlementBound(hs, es, c, p, start, n);
  }

  lemma StepValid(h: History, e: Event)
    requires ValidState(h.s) && Enabled(h, e)
    ensures ValidState(Next(h, e).s)
  {
    hide Admitted, Timed, SettledState, Reconfigured, RefilledState;
    match e
    case Try(req, first, now) => AdmitBound(h.s, req, first, now);
    case Settle(i, actual, now) => SettleBound(h.s, h.tickets[i].class_, actual - h.tickets[i].estimated, now);
    case Resize(c, p, now) =>
      if !(h.s.config == c && h.s.policy == p) {
        ResizeBound(h.s, c, p, now);
      }
    case Status(now) => RefillBound(h.s, now);
    case _ =>
  }

  // ---------------------------------------------------------------------------
  // Time earned once, and twice
  // ---------------------------------------------------------------------------

  /** The moment a call refills to, if it does. */
  function RefillsTo(h: History, e: Event): Option<real> {
    match e
    case Try(_, _, now) => Some(now)
    case Settle(_, _, now) => Some(now)
    case Resize(c, p, now) => if h.s.config == c && h.s.policy == p then None else Some(now)
    case Status(now) => Some(now)
    case _ => None
  }

  /** A call that refills, at a rate above zero, time the bucket had already been given. */
  predicate EarnsTwice(h: History, e: Event) {
    var b := h.s.provisioned;
    RefillsTo(h, e).Some? && b.rate > 0.0 && b.last < h.clock && b.last < RefillsTo(h, e).value
  }

  /** A resize that takes effect, dated before a moment already refilled to. */
  predicate Backdated(h: History, e: Event) {
    e.Resize? && RefillsTo(h, e).Some? && e.now < h.clock
  }

  predicate InTime(h: History) {
    ValidState(h.s) && h.s.provisioned.last <= h.clock && h.earned >= h.due
  }

  lemma TimedOnceIff(h: History, now: real)
    requires InTime(h)
    ensures var h', b := Timed(h, now), h.s.provisioned;
      && h'.earned - h'.due >= h.earned - h.due && MaxR(b.last, now) <= h'.clock
      && (h'.earned - h'.due == h.earned - h.due <==> !(b.rate > 0.0 && b.last < h.clock && b.last < now))
  {
    var b := h.s.provisioned;
    RateTimes(b.rate, Elapsed(b, now), MaxR(now - h.clock, 0.0));
  }

  /** What a call leaves of the bucket's clock. */
  lemma LastAfter(h: History, e: Event)
    requires Enabled(h, e) && ValidState(h.s)
    ensures var to := RefillsTo(h, e);
      Next(h, e).s.provisioned.last
      == if to.None? then h.s.provisioned.last else if e.Resize? then to.value else MaxR(h.s.provisioned.last, to.value)
    ensures RefillsTo(h, e).None? ==> Next(h, e) == h.(s := Next(h, e).s, slots := Next(h, e).slots)
    ensures RefillsTo(h, e).Some? ==>
      var t := Timed(h, RefillsTo(h, e).value); Next(h, e).earned == t.earned && Next(h, e).due == t.due && Next(h, e).clock == t.clock
  {
    if e.Try? {
      AdmitLast(h.s, e.req, e.first, e.now);
    }
  }

  lemma AdmitLast(s: State, req: Request, first: bool, now: real)
    ensures Admitted(s, req, first, now).0.provisioned.last == MaxR(s.provisioned.last, now)
  {
  }

  /** One call earns exactly the time that has passed, unless it earns some twice. */
  lemma StepOnceIff(h: History, e: Event)
    requires InTime(h) && Enabled(h, e)
    ensures var h' := Next(h, e);
      && InTime(h') && (h'.earned - h'.due == h.earned - h.due <==> !EarnsTwice(h, e))
      && h'.earned - h'.due >= h.earned - h.due
  {
    StepValid(h, e);
    LastAfter(h, e);
    hide Next;
    if RefillsTo(h, e).Some? {
      TimedOnceIff(h, RefillsTo(h, e).value);
    }
  }

  /** In every run, what was earned is the rate's integral over the time that passed exactly
      when no call earned time twice, and more than it otherwise. */
  lemma {:induction false} EarnedOnceIff(hs: seq<History>, es: seq<Event>, c: Config, p: BoundaryPolicy, start: real, n: nat)
    requires Run(hs, es, c, p, start) && n <= |es|
    ensures InTime(hs[n]) && (hs[n].earned == hs[n].due <==> forall i :: 0 <= i < n ==> !EarnsTwice(hs[i], es[i]))
  {
    if n > 0 {
      EarnedOnceIff(hs, es, c, p, start, n - 1);
      hide Next, InTime, EarnsTwice, Enabled, NewHistory;
      StepOnceIff(hs[n - 1], es[n - 1]);
      InTimeEarned(hs[n - 1]);
      InTimeEarned(hs[n]);
      assert (forall i :: 0 <= i < n ==> !EarnsTwice(hs[i], es[i]))
        <==> (forall i :: 0 <= i < n - 1 ==> !EarnsTwice(hs[i], es[i])) && !EarnsTwice(hs[n - 1], es[n - 1]);
    } else {
      RunValid(hs, es, c, p, start, 0);
    }
  }

  lemma InTimeEarned(h: History)
    requires InTime(h)
    ensures h.earned >= h.due
  {
  }

  lemma InTimeValid(h: History)
    requires InTime(h)
    ensures ValidState(h.s)
  {
  }

  /** A call that dates nothing back leaves the bucket refilled to the latest moment seen. */
  lemma StepOnTime(h: History, e: Event)
    requires Enabled(h, e) && ValidState(h.s) && h.s.provisioned.last == h.clock && !Backdated(h, e)
    ensures Next(h, e).s.provisioned.last == Next(h, e).clock
  {
    LastAfter(h, e);
    hide Next, Enabled, ValidState;
  }

  lemma {:induction false} ForwardOnTime(hs: seq<History>, es: seq<Event>, c: Config, p: BoundaryPolicy, start: real, n: nat)
    requires Run(hs, es, c, p, start) && n <= |es| && forall i :: 0 <= i < |es| ==> !Backdated(hs[i], es[i])
    ensures hs[n].s.provisioned.last == hs[n].clock
  {
    if n > 0 {
      hide Next, InTime, Backdated, Enabled, NewHistory, ValidState, EarnsTwice;
      ForwardOnTime(hs, es, c, p, start, n - 1);
      EarnedOnceIff(hs, es, c, p, start, n - 1);
      InTimeValid(hs[n - 1]);
      StepOnTime(hs[n - 1], es[n - 1]);
    }
  }

  /** With no resize dated back, no time is earned twice, and the bound is on the time that
      has really passed. */
  lemma ForwardEarnsOnce(hs: seq<History>, es: seq<Event>, c: Config, p: BoundaryPolicy, start: real, n: nat)
    requires Run(hs, es, c, p, start) && n <= |es| && forall i :: 0 <= i < |es| ==> !Backdated(hs[i], es[i])
    ensures hs[n].s.provisioned.last == hs[n].clock && hs[n].earned == hs[n].due
    ensures Consumed(hs[n].tickets) + hs[n].s.provisioned.level + Credit(hs[n].s) <= hs[n].due + c.entitlement * c.capacityS + Forgiven(hs, es, n)
  {
    hide Run, Forgiven, Backdated, Accounted, EarnsTwice, InTime, Consumed, Credit;
    RunLength(hs, es, c, p, start);
    EntitlementBound(hs, es, c, p, start, n);
    AccountedBound(hs[n], c.entitlement * c.capacityS + Forgiven(hs, es, n));
    EarnedOnceIff(hs, es, c, p, start, n);
    forall i | 0 <= i <= n
      ensures hs[i].s.provisioned.last == hs[i].clock
    {
      ForwardOnTime(hs, es, c, p, start, i);
    }
    forall i | 0 <= i < n
      ensures !EarnsTwice(hs[i], es[i])
    {
      NotTwice(hs[i], es[i]);
    }
  }

  lemma RunLength(hs: seq<History>, es: seq<Event>, c: Config, p: BoundaryPolicy, start: real)
    requires Run(hs, es, c, p, start)
    ensures |hs| == |es| + 1
  {
  }

  lemma AccountedBound(h: History, initial: real)
    requires Accounted(h, initial)
    ensures Consumed(h.tickets) + h.s.provisioned.level + Credit(h.s) <= h.earned + initial
  {
  }

  lemma NotTwice(h: History, e: Event)
    requires h.s.provisioned.last == h.clock
    ensures !EarnsTwice(h, e)
  {
  }

  /** A resize that takes effect at a rate above zero: whatever is asked of the limiter next
      earns the time that passed, and no more, exactly if the resize was not dated back. */
  lemma BackdatingIff(h: History, e: Event)
    requires InTime(h) && Enabled(h, e)
    requires h.s.provisioned.last == h.clock && e.Resize? && RefillsTo(h, e).Some? && e.config.entitlement > 0.0
    ensures !Backdated(h, e)
            <==> forall t: real :: Next(Next(h, e), Status(t)).earned - Next(Next(h, e), Status(t)).due == h.earned - h.due
  {
    hide Admitted;
    var h1 := Next(h, e);
    StepOnceIff(h, e);
    LastAfter(h, e);
    assert h1.s.provisioned.rate == e.config.entitlement;
    forall t: real
      ensures Next(h1, Status(t)).earned - Next(h1, Status(t)).due == h.earned - h.due <==> !EarnsTwice(h1, Status(t))
    {
      StepOnceIff(h1, Status(t));
    }
    hide Next;
    if Backdated(h, e) {
      assert EarnsTwice(h1, Status(h1.clock));
    }
  }

  /** Ten WU per ten seconds: full, spent, refilled and spent again by second 10. */
  const SMALL := Config(1.0, 10.0, 0.0)
  const PLAIN := BoundaryPolicy(None, None, false)

  function Ask(now: real): Event {
    Event.Try(Request(10.0, false, now), true, now)
  }

  /** The same entitlement with another debt bound, as of second 0. */
  const LATE := Resize(Config(1.0, 10.0, 1.0), PLAIN, 0.0)

  /** Where a limiter of the example is. */
  predicate At(h: History, debt: real, level: real, last: real, asked: nat) {
    && h.s.config == Config(1.0, 10.0, debt) && h.s.policy == PLAIN && h.s.burst.None?
    && h.s.provisioned == Bucket(1.0, 10.0, debt, level, last)
    && Consumed(h.tickets) == asked as real * 10.0
  }

  /** Ten WU are admitted on a full bucket, or one that has had ten seconds. */
  lemma AskedInFull(h: History, debt: real, level: real, last: real, asked: nat, now: real)
    requires At(h, debt, level, last, asked) && debt >= 0.0
    requires (level == 10.0 && now == last) || (level == 0.0 && now == last + 10.0)
    ensures Enabled(h, Ask(now)) && At(Next(h, Ask(now)), debt, 0.0, now, asked + 1)
    ensures var h' := Next(h, Ask(now));
      h'.earned == h.earned + (now - last) && h'.due == h.due + MaxR(now - h.clock, 0.0) && h'.clock == MaxR(h.clock, now)
  {
    hide Consumed;
    var h' := Next(h, Ask(now));
    assert h'.tickets == h.tickets + [Ticket(Provisioned, 10.0, None)];
    ConsumedGrows(h.tickets, Ticket(Provisioned, 10.0, None));
  }

  lemma ResizedLate(h: History, last: real, asked: nat)
    requires At(h, 0.0, 0.0, last, asked) && last >= 0.0 && h.clock >= 0.0
    ensures Enabled(h, LATE) && At(Next(h, LATE), 1.0, 0.0, 0.0, asked)
    ensures Next(h, LATE).earned == h.earned && Next(h, LATE).due == h.due && Next(h, LATE).clock == h.clock
  {
    hide Consumed;
  }

  lemma ExampleStarts()
    ensures At(NewHistory(SMALL, PLAIN, 0.0), 0.0, 10.0, 0.0, 0)
  {
  }

  lemma ExampleEnds(h: History)
    requires At(h, 1.0, 0.0, 10.0, 3)
    ensures Consumed(h.tickets) == 30.0
  {
  }

  /** A resize dated back by ten seconds lets those ten seconds be spent again: thirty WU in
      ten seconds, of an entitlement to ten and a capacity of ten. */
  lemma BackdatedResizeEarnsTwice() returns (hs: seq<History>, es: seq<Event>)
    ensures Run(hs, es, SMALL, PLAIN, 0.0) && |es| == 4
    ensures Consumed(hs[4].tickets) == 30.0 && hs[4].due == 10.0 && hs[4].clock == 10.0 && hs[4].earned == 20.0
  {
    hide Next, Enabled, Consumed, At, NewState;
    var h0 := NewHistory(SMALL, PLAIN, 0.0);
    ExampleStarts();
    AskedInFull(h0, 0.0, 10.0, 0.0, 0, 0.0);
    var h1 := Next(h0, Ask(0.0));
    AskedInFull(h1, 0.0, 0.0, 0.0, 1, 10.0);
    var h2 := Next(h1, Ask(10.0));
    ResizedLate(h2, 10.0, 2);
    var h3 := Next(h2, LATE);
    AskedInFull(h3, 1.0, 0.0, 0.0, 2, 10.0);
    var h4 := Next(h3, Ask(10.0));
    hs, es := [h0, h1, h2, h3, h4], [Ask(0.0), Ask(10.0), LATE, Ask(10.0)];
    ExampleEnds(h4);
  }

  /** The clock to compare a resize with is the latest moment refilled to, not the bucket's own:
      one dated back to a rate of zero sets the bucket's clock back and earns nothing, and the
      next, after the bucket's clock but before the other, earns time twice. */
  lemma BucketClockIsNotEnough(h: History)
    requires InTime(h) && h.s.provisioned.last == h.clock == 10.0
    requires h.s.config == SMALL && h.s.policy == PLAIN
    ensures var idle, again := Resize(Config(0.0, 10.0, 0.0), PLAIN, 0.0), Resize(SMALL, PLAIN, 5.0);
      && Enabled(h, idle) && Enabled(Next(h, idle), again)
      && var h2 := Next(Next(h, idle), again);
         again.now >= Next(h, idle).s.provisioned.last && Next(h2, Status(10.0)).earned - Next(h2, Status(10.0)).due > h2.earned - h2.due
  {
    var idle, again := Resize(Config(0.0, 10.0, 0.0), PLAIN, 0.0), Resize(SMALL, PLAIN, 5.0);
    var h1 := Next(h, idle);
    StepOnceIff(h, idle);
    LastAfter(h, idle);
    var h2 := Next(h1, again);
    StepOnceIff(h1, again);
    LastAfter(h1, again);
    assert h2.s.provisioned.rate == 1.0 && h2.s.provisioned.last == 5.0 && h2.clock == 10.0;
    hide Next;
    StepOnceIff(h2, Status(10.0));
  }

  // ---------------------------------------------------------------------------
  // A burst policy dropped
  // ---------------------------------------------------------------------------

  /** Ten seconds of credit, and ten WU per second of it. */
  const BURSTY := BoundaryPolicy(Some(BurstPolicy(10.0, 11.0, 0.0)), None, false)

  /** Twice what the second request estimated. */
  const OVER := Event.Settle(1, 20.0, 10.0)
  const DROP := Resize(SMALL, PLAIN, 10.0)

  predicate Bursty(s: State, level: real, last: real, credit: real, ceiling: real, looked: real) {
    && s.config == SMALL && s.policy == BURSTY && s.provisioned == Bucket(1.0, 10.0, 0.0, level, last)
    && s.burst == Some(Bank(credit, 10.0, 0.0, Bucket(10.0, 10.0, 0.0, ceiling, looked)))
  }

  predicate Plain(s: State) {
    s.config == SMALL && s.policy == PLAIN && s.provisioned == Bucket(1.0, 10.0, 0.0, 0.0, 10.0) && s.burst.None?
  }

  lemma BurstyNew()
    ensures Bursty(NewState(SMALL, BURSTY, 0.0), 10.0, 0.0, 0.0, 10.0, 0.0)
  {
  }

  /** Ten idle seconds on a full bucket are banked. */
  lemma BurstyIdle(s: State)
    requires Bursty(s, 10.0, 0.0, 0.0, 10.0, 0.0)
    ensures Bursty(RefilledState(s, 10.0), 10.0, 10.0, 10.0, 10.0, 0.0) && Earned(s.provisioned, 10.0) == 10.0
  {
  }

  /** Nothing changes in no time. */
  lemma InNoTime(s: State)
    requires s.provisioned.last == 10.0 && s.provisioned.level <= s.provisioned.capacity
    requires s.burst.Some? ==> s.burst.value.credit <= s.burst.value.maxCredit
    ensures RefilledState(s, 10.0) == s && Earned(s.provisioned, 10.0) == 0.0
  {
    assert Elapsed(s.provisioned, 10.0) == 0.0;
    hide Elapsed;
  }

  lemma BurstyAsked(s: State)
    requires Bursty(s, 10.0, 10.0, 10.0, 10.0, 0.0)
    ensures var (s', d) := Admitted(s, Request(10.0, false, 10.0), true, 10.0);
      Bursty(s', 0.0, 10.0, 10.0, 10.0, 0.0) && d == Admit(Provisioned, 10.0) && Earned(s.provisioned, 10.0) == 0.0
  {
    hide RefilledState, Earned, Boundary, Looked, CanDraw, Drawn;
    InNoTime(s);
  }

  lemma BurstyDrawn(s: State)
    requires Bursty(s, 0.0, 10.0, 10.0, 10.0, 0.0)
    ensures var (s', d) := Admitted(s, Request(10.0, false, 10.0), true, 10.0);
      Bursty(s', 0.0, 10.0, 0.0, 0.0, 10.0) && d == Admit(Bursting, 10.0) && Earned(s.provisioned, 10.0) == 0.0
  {
    hide RefilledState, Earned, Boundary, Refilled;
    InNoTime(s);
    CeilingFull();
  }

  lemma BurstyOver(s: State)
    requires Bursty(s, 0.0, 10.0, 0.0, 0.0, 10.0)
    ensures Bursty(SettledState(s, Bursting, 10.0, 10.0), 0.0, 10.0, -10.0, 0.0, 10.0) && Earned(s.provisioned, 10.0) == 0.0
  {
    hide RefilledState, Earned;
    InNoTime(s);
  }

  lemma PlainOver(s: State)
    requires Plain(s)
    ensures Plain(SettledState(s, Bursting, 10.0, 10.0)) && Earned(s.provisioned, 10.0) == 0.0
  {
    hide RefilledState, Earned;
    InNoTime(s);
  }

  lemma BurstyDropped(s: State, credit: real)
    requires Bursty(s, 0.0, 10.0, credit, 0.0, 10.0) && credit <= 10.0
    ensures Plain(Reconfigured(s, SMALL, PLAIN, 10.0)) && Earned(s.provisioned, 10.0) == 0.0
  {
    hide RefilledState, Earned, Refilled, NewBucket;
    InNoTime(s);
    SmallBucket();
  }

  lemma SmallBucket()
    ensures NewBucket(SMALL, 10.0) == Bucket(1.0, 10.0, 0.0, 10.0, 10.0)
    ensures Refilled(Bucket(1.0, 10.0, 0.0, 0.0, 10.0), 10.0) == Bucket(1.0, 10.0, 0.0, 0.0, 10.0)
  {
  }

  lemma CeilingFull()
    ensures Refilled(Bucket(10.0, 10.0, 0.0, 10.0, 0.0), 10.0) == Bucket(10.0, 10.0, 0.0, 10.0, 10.0)
  {
  }

  /** The run up to where ten WU of burst are drawn. */
  lemma DrawnInFull() returns (hs: seq<History>, es: seq<Event>)
    ensures Run(hs, es, SMALL, BURSTY, 0.0) && |hs| == 4 && es == [Status(10.0), Ask(10.0), Ask(10.0)]
    ensures Bursty(hs[3].s, 0.0, 10.0, 0.0, 0.0, 10.0) && hs[3].earned == 10.0
    ensures hs[3].tickets == [Ticket(Provisioned, 10.0, None), Ticket(Bursting, 10.0, None)]
  {
    hide NewState, RefilledState, Admitted, Timed, Earned, Bursty;
    var h0 := NewHistory(SMALL, BURSTY, 0.0);
    BurstyNew();
    BurstyIdle(h0.s);
    TimedKeeps(h0, 10.0);
    var h1 := Next(h0, Status(10.0));
    BurstyAsked(h1.s);
    TimedKeeps(h1, 10.0);
    var h2 := Next(h1, Ask(10.0));
    BurstyDrawn(h2.s);
    TimedKeeps(h2, 10.0);
    var h3 := Next(h2, Ask(10.0));
    hs, es := [h0, h1, h2, h3], [Status(10.0), Ask(10.0), Ask(10.0)];
  }

  /** How the run ends, in either order. */
  lemma DroppedInTheEnd(h: History, settledFirst: bool)
    requires Bursty(h.s, 0.0, 10.0, 0.0, 0.0, 10.0)
    requires h.tickets == [Ticket(Provisioned, 10.0, None), Ticket(Bursting, 10.0, None)]
    ensures var (e, f) := if settledFirst then (OVER, DROP) else (DROP, OVER);
      && Enabled(h, e) && Enabled(Next(h, e), f)
      && var h' := Next(Next(h, e), f);
         Plain(h'.s) && h'.earned == h.earned && h'.tickets == [Ticket(Provisioned, 10.0, None), Ticket(Bursting, 10.0, Some(20.0))]
  {
    hide RefilledState, Reconfigured, SettledState, Timed, Earned;
    TimedKeeps(h, 10.0);
    if settledFirst {
      BurstyOver(h.s);
      var h1 := Next(h, OVER);
      TimedKeeps(h1, 10.0);
      BurstyDropped(h1.s, -10.0);
    } else {
      BurstyDropped(h.s, 0.0);
      var h1 := Next(h, DROP);
      TimedKeeps(h1, 10.0);
      PlainOver(h1.s);
    }
  }

  lemma RunGrows(hs: seq<History>, es: seq<Event>, c: Config, p: BoundaryPolicy, start: real, e: Event)
    requires Run(hs, es, c, p, start) && Enabled(hs[|es|], e)
    ensures Run(hs + [Next(hs[|es|], e)], es + [e], c, p, start)
  {
    hide Next, Enabled, NewHistory;
    var hs', es' := hs + [Next(hs[|es|], e)], es + [e];
    forall i | 0 <= i < |es'|
      ensures Enabled(hs'[i], es'[i]) && hs'[i + 1] == Next(hs'[i], es'[i])
    {
      if i < |es| {
        assert hs'[i] == hs[i] && hs'[i + 1] == hs[i + 1] && es'[i] == es[i];
      }
    }
  }

  lemma TwoTickets()
    ensures Consumed([Ticket(Provisioned, 10.0, None), Ticket(Bursting, 10.0, Some(20.0))]) == 30.0
  {
    ConsumedGrows([Ticket(Provisioned, 10.0, None)], Ticket(Bursting, 10.0, Some(20.0)));
    ConsumedGrows([], Ticket(Provisioned, 10.0, None));
    assert [] + [Ticket(Provisioned, 10.0, None)] == [Ticket(Provisioned, 10.0, None)];
    assert [Ticket(Provisioned, 10.0, None)] + [Ticket(Bursting, 10.0, Some(20.0))]
        == [Ticket(Provisioned, 10.0, None), Ticket(Bursting, 10.0, Some(20.0))];
  }

  /** Dropping the burst policy lets go of WU, whether a burst request is settled above its
      estimate before or after: thirty WU in ten seconds, of an entitlement to ten and a
      capacity of ten, with nothing owed. */
  lemma DroppedPolicyForgives(settledFirst: bool) returns (hs: seq<History>, es: seq<Event>)
    ensures Run(hs, es, SMALL, BURSTY, 0.0) && |es| == 5 && (if settledFirst then es[3..] == [OVER, DROP] else es[3..] == [DROP, OVER])
    ensures Consumed(hs[5].tickets) == 30.0 && hs[5].earned == 10.0 && hs[5].s.provisioned.level == 0.0 && Credit(hs[5].s) == 0.0
  {
    hide Run, Next, Enabled, Consumed, Bursty;
    hs, es := DrawnInFull();
    var h3 := hs[3];
    DroppedInTheEnd(h3, settledFirst);
    TwoTickets();
    var (e4, e5) := if settledFirst then (OVER, DROP) else (DROP, OVER);
    var h4 := Next(h3, e4);
    RunGrows(hs, es, SMALL, BURSTY, 0.0, e4);
    hs, es := hs + [h4], es + [e4];
    RunGrows(hs, es, SMALL, BURSTY, 0.0, e5);
    hs, es := hs + [Next(h4, e5)], es + [e5];
  }

  // ---------------------------------------------------------------------------
  // At a fixed configuration
  // ---------------------------------------------------------------------------

  /** No resize, estimates of at most `largest`, and no settlement above its estimate. */
  predicate Modest(h: History, e: Event, largest: real) {
    match e
    case Try(req, _, _) => req.wu <= largest
    case Settle(i, actual, _) => i < |h.tickets| && actual <= h.tickets[i].estimated
    case Resize(c, p, _) => c == h.s.config && p == h.s.policy
    case _ => true
  }

  /** The deepest a bucket goes when settlements only refund. */
  function Depth(b: Bucket, largest: real): real {
    MaxR(b.maxDebt, largest - b.capacity)
  }

  /** The same bucket at another time, no deeper than `Depth`, with credit not overspent. */
  predicate Floored(h: History, b0: Bucket, largest: real) {
    var b := h.s.provisioned;
    && ValidState(h.s) && b == b0.(level := b.level, last := b.last)
    && b.level >= -Depth(b0, largest) && Credit(h.s) >= 0.0
    && h.earned == Over(b0.rate, b0.last, b.last)
  }

  lemma OverAdds(rate: real, from: real, to: real, more: real)
    ensures Over(rate, from, to + more) == Over(rate, from, to) + rate * more
  {
  }

  lemma RefillFloored(h: History, b0: Bucket, largest: real, now: real)
    requires Floored(h, b0, largest)
    ensures Floored(Timed(h, now).(s := RefilledState(h.s, now)), b0, largest)
  {
    var b := h.s.provisioned;
    RefillBound(h.s, now);
    OverAdds(b0.rate, b0.last, b.last, Elapsed(b, now));
    hide Over;
  }

  lemma TryFloored(h: History, e: Event, b0: Bucket, largest: real)
    requires Floored(h, b0, largest) && e.Try? && Enabled(h, e) && e.req.wu <= largest
    ensures Floored(Next(h, e), b0, largest)
  {
    hide Admitted, RefilledState, Earned, Timed;
    TimedKeeps(h, e.now);
    RefillFloored(h, b0, largest, e.now);
    AdmitFloor(h.s, e.req, e.first, e.now, largest);
    var h' := Next(h, e);
    assert h'.s == Admitted(h.s, e.req, e.first, e.now).0 && h'.earned == h.earned + Earned(h.s.provisioned, e.now);
  }

  /** An admission leaves the bucket within its depth and the credit not overspent. */
  lemma AdmitFloor(s: State, req: Request, first: bool, now: real, largest: real)
    requires ValidState(s) && 0.0 <= req.wu <= largest && Credit(s) >= 0.0 && s.provisioned.level >= -Depth(s.provisioned, largest)
    ensures var s' := Admitted(s, req, first, now).0;
      var r := RefilledState(s, now);
      && ValidState(s') && s'.provisioned == r.provisioned.(level := s'.provisioned.level)
      && s'.provisioned.level >= -Depth(s.provisioned, largest) && Credit(s') >= 0.0
  {
    RefillBound(s, now);
    AdmitBound(s, req, first, now);
  }

  lemma SettleFloored(h: History, e: Event, b0: Bucket, largest: real)
    requires Floored(h, b0, largest) && e.Settle? && Enabled(h, e) && e.actual <= h.tickets[e.ticket].estimated
    ensures Floored(Next(h, e), b0, largest)
  {
    hide Timed, Earned, RefilledState, Depth;
    TimedKeeps(h, e.now);
    RefillFloored(h, b0, largest, e.now);
    var t := h.tickets[e.ticket];
    SettleBound(h.s, t.class_, e.actual - t.estimated, e.now);
  }

  lemma StepFloored(h: History, e: Event, b0: Bucket, largest: real)
    requires Floored(h, b0, largest) && Enabled(h, e) && Modest(h, e, largest)
    ensures Floored(Next(h, e), b0, largest)
  {
    match e
    case Try(_, _, _) => TryFloored(h, e, b0, largest);
    case Settle(_, _, _) => SettleFloored(h, e, b0, largest);
    case Status(now) => RefillFloored(h, b0, largest, now);
    case Resize(_, _, _) =>
    case Leave(_) =>
    case TakeAttempted =>
  }

  lemma {:induction false} RunFloored(hs: seq<History>, es: seq<Event>, c: Config, p: BoundaryPolicy, start: real, largest: real, n: nat)
    requires Run(hs, es, c, p, start) && n <= |es| && forall i :: 0 <= i < |es| ==> Modest(hs[i], es[i], largest)
    ensures Floored(hs[n], NewBucket(c, start), largest)
  {
    if n == 0 {
      hide Floored, NewHistory, ValidState, Modest;
      RunValid(hs, es, c, p, start, 0);
      FlooredAtFirst(c, p, start, largest);
    } else {
      hide Floored, Modest, Next, Enabled, NewHistory, NewBucket;
      RunFloored(hs, es, c, p, start, largest, n - 1);
      StepFloored(hs[n - 1], es[n - 1], NewBucket(c, start), largest);
    }
  }

  lemma FlooredAtFirst(c: Config, p: BoundaryPolicy, start: real, largest: real)
    requires ValidState(NewHistory(c, p, start).s)
    ensures Floored(NewHistory(c, p, start), NewBucket(c, start), largest)
  {
    var b := NewBucket(c, start);
    assert b.level == b.capacity && b.last - b.last == 0.0;
    hide NewBucket;
  }

  /** At a fixed configuration, with no settlement above its estimate, provisioned and burst
      WU is at most the rate over the time elapsed, plus the capacity, plus the debt bound or
      what the largest request exceeds the capacity by. */
  lemma FixedConfigBound(hs: seq<History>, es: seq<Event>, c: Config, p: BoundaryPolicy, start: real, largest: real, n: nat)
    requires Run(hs, es, c, p, start) && n <= |es| && forall i :: 0 <= i < |es| ==> Modest(hs[i], es[i], largest)
    ensures var capacity := c.entitlement * c.capacityS;
      Consumed(hs[n].tickets)
      <= Over(c.entitlement, start, hs[n].s.provisioned.last) + capacity + MaxR(c.entitlement * c.maxDebtS, largest - capacity)
  {
    hide Accounted, Floored, Next, Enabled, Modest, NewHistory, Over;
    var b0 := NewBucket(c, start);
    assert b0.rate == c.entitlement && b0.capacity == c.entitlement * c.capacityS && b0.maxDebt == c.entitlement * c.maxDebtS && b0.last == start;
    forall i | 0 <= i < n
      ensures KeepsBurst(hs[i], es[i])
    {
      RunValid(hs, es, c, p, start, i);
      ModestKeeps(hs[i], es[i], largest);
    }
    KeptPolicyBound(hs, es, c, p, start, n);
    RunFloored(hs, es, c, p, start, largest, n);
    BoundFrom(hs[n], b0, largest);
  }

  lemma ModestKeeps(h: History, e: Event, largest: real)
    requires ValidState(h.s) && Modest(h, e, largest)
    ensures KeepsBurst(h, e)
  {
  }

  lemma BoundFrom(h: History, b0: Bucket, largest: real)
    requires Accounted(h, b0.capacity) && Floored(h, b0, largest)
    ensures Consumed(h.tickets) <= Over(b0.rate, b0.last, h.s.provisioned.last) + b0.capacity + MaxR(b0.maxDebt, largest - b0.capacity)
  {
    hide Consumed, ValidState, Credit, MaxR, Over;
  }

  // ---------------------------------------------------------------------------
  // Leaving the queue
  // ---------------------------------------------------------------------------

  /** A request that is queued waits for at least 1 ms, before its deadline. */
  lemma QueuedBeforeDeadline(s: State, req: Request, first: bool, now: real)
    requires ValidState(s) && Admitted(s, req, first, now).1.Queue?
    ensures s.policy.queue.Some? && now < req.receivedAt + s.policy.queue.value.deadlineMs as real * MS
    ensures MS <= Admitted(s, req, first, now).1.wait <= 50.0 * MS
  {
    RefillEarns(s.provisioned, now);
    var b := Refilled(s.provisioned, now);
    if b.rate > 0.0 && TimeUntilAdmit(b, req.wu) < MAX_WAIT {
      WaitClosesGap(b, req.wu);
    }
  }

  /** One caller's attempts: at each, the limiter is in some state it can be in, whatever
      others did meanwhile. */
  datatype Attempt = Attempt(s: State, now: real)

  predicate KeepsQueueing(attempts: seq<Attempt>, req: Request, deadlineMs: nat) {
    && (forall i :: 0 <= i < |attempts| ==>
          && ValidState(attempts[i].s) && Admitted(attempts[i].s, req, i == 0, attempts[i].now).1.Queue?
          && attempts[i].s.policy.queue.value.deadlineMs <= deadlineMs)
    && (forall i :: 0 <= i < |attempts| - 1 ==>
          attempts[i + 1].now >= attempts[i].now + Admitted(attempts[i].s, req, i == 0, attempts[i].now).1.wait)
  }

  lemma {:induction false} AttemptsApart(attempts: seq<Attempt>, req: Request, deadlineMs: nat, n: nat)
    requires KeepsQueueing(attempts, req, deadlineMs) && n < |attempts|
    ensures attempts[n].now >= attempts[0].now + n as real * MS
  {
    if n > 0 {
      AttemptsApart(attempts, req, deadlineMs, n - 1);
      QueuedBeforeDeadline(attempts[n - 1].s, req, n - 1 == 0, attempts[n - 1].now);
      assert n as real == (n - 1) as real + 1.0;
    }
  }

  /** A caller that waits out each slot leaves the queue within as many attempts as its
      deadline has milliseconds. */
  lemma LeavesTheQueue(attempts: seq<Attempt>, req: Request, deadlineMs: nat)
    requires KeepsQueueing(attempts, req, deadlineMs)
    requires attempts != [] ==> attempts[0].now >= req.receivedAt
    ensures |attempts| <= deadlineMs
  {
    if attempts != [] {
      var n := |attempts| - 1;
      var last := attempts[n];
      AttemptsApart(attempts, req, deadlineMs, n);
      QueuedBeforeDeadline(last.s, req, n == 0, last.now);
      assert n as real * MS < deadlineMs as real * MS;
      assert n as real < deadlineMs as real;
    }
  }

  class ReservationLimiter {
    var config: Config
    var policy: BoundaryPolicy
    var provisioned: DebtBucket
    var burst: BurstBank?
    var queued: real
    var attempted: real

    ghost function Parts(): set<object?>
      reads this
    {
      if burst == null then {this, provisioned} else {this, provisioned, burst, burst.ceiling}
    }

    ghost predicate Valid()
      reads this
    {
      burst != null ==> burst.ceiling != provisioned
    }

    ghost function Value(): State
      reads this, Parts()
    {
      State(config, policy, provisioned.Value(), if burst == null then None else Some(burst.Value()), queued, attempted)
    }

    constructor (config: Config, policy: BoundaryPolicy, now: real)
      ensures Valid() && Value() == NewState(config, policy, now) && fresh(Parts())
    {
      var rate := config.entitlement;
      provisioned := new DebtBucket(rate, rate * config.capacityS, rate * config.maxDebtS, now);
      if policy.burst.Some? {
        var bank := new BurstBank(rate, policy.burst.value, now);
        burst := bank;
      } else {
        burst := null;
      }
      this.config, this.policy, queued, attempted := config, policy, 0.0, 0.0;
    }

    method Refill(now: real)
      requires Valid()
      modifies Parts()
      ensures Valid() && Parts() == old(Parts()) && Value() == RefilledState(old(Value()), now)
    {
      var overflow := provisioned.Refill(now);
      if burst != null {
        burst.AccrueWu(overflow);
      }
    }

    /** Change entitlement or policy in place: level and credit carry over, clamped. */
    method Reconfigure(c: Config, p: BoundaryPolicy, now: real)
      requires Valid()
      modifies Parts()
      ensures Valid() && Value() == Reconfigured(old(Value()), c, p, now) && fresh(Parts() - old(Parts()))
    {
      hide RefilledState, Carried;
      if config == c && policy == p {
        return;
      }
      Refill(now);
      Carry(c, p, now);
    }

    /** Level and credit under a new entitlement and policy. */
    method Carry(c: Config, p: BoundaryPolicy, now: real)
      requires Valid()
      modifies Parts()
      ensures Valid() && Value() == Carried(old(Value()), c, p, now) && fresh(Parts() - old(Parts()))
    {
      hide Refilled, AtLevel, NewBucket, NewBank, Rescaled;
      var bucket := CarryBucket(c, now);
      var bank := CarryBurst(c.entitlement, p.burst, now);
      provisioned, burst, config, policy := bucket, bank, c, p;
    }

    /** The bucket under a new entitlement, at the level of the old one. */
    method CarryBucket(c: Config, now: real) returns (bucket: DebtBucket)
      requires Valid()
      modifies provisioned
      ensures fresh(bucket) && Parts() == old(Parts()) && (burst != null ==> burst.Value() == old(burst.Value()))
      ensures bucket.Value() == AtLevel(NewBucket(c, now), Refilled(old(provisioned.Value()), now).level)
    {
      var rate := c.entitlement;
      var level := provisioned.Level(now);
      bucket := new DebtBucket(rate, rate * c.capacityS, rate * c.maxDebtS, now);
      bucket.SetLevel(level);
    }

    /** The bank under a new entitlement: the old one rescaled, or a new one, or none. */
    method CarryBurst(rate: real, p: Option<BurstPolicy>, now: real) returns (bank: BurstBank?)
      requires Valid()
      modifies if burst == null then {} else {burst, burst.ceiling}
      ensures Parts() == old(Parts()) && provisioned.Value() == old(provisioned.Value())
      ensures bank == null <==> p.None?
      ensures bank != null ==>
        && fresh(bank) && fresh(bank.ceiling)
        && bank.Value() == if old(burst) != null then Rescaled(old(burst.Value()), rate, p.value, now) else NewBank(rate, p.value, now)
    {
      bank := null;
      if p.Some? {
        if burst != null {
          bank := burst.Rescale(rate, p.value, now);
        } else {
          bank := new BurstBank(rate, p.value, now);
        }
      }
    }

    /** Try to admit; a re-check passes `first` as false, its slot dropped before. */
    method TryAdmit(req: Request, first: bool, now: real) returns (d: Decision)
      requires Valid()
      modifies Parts()
      ensures Valid() && Parts() == old(Parts())
      ensures (Value(), d) == Admitted(old(Value()), req, first, now)
      ensures ValidState(old(Value())) && req.wu >= 0.0 ==> ToldAt(old(Value()), req, now, Value(), d)
    {
      if ValidState(Value()) && req.wu >= 0.0 {
        AdmittedIs(Value(), req, first, now);
      }
      Refill(now);
      var wu := req.wu;
      if first {
        attempted := attempted + wu;
      }
      var admits := provisioned.Admits(wu);
      if admits {
        provisioned.Debit(wu);
        return Admit(Provisioned, wu);
      }
      if burst != null {
        var draws := burst.Draws(wu, req.continuation, now);
        if draws {
          burst.Draw(wu);
          return Admit(Bursting, wu);
        }
      }
      d := AtBoundary(req, now);
    }

    method AtBoundary(req: Request, now: real) returns (d: Decision)
      requires Valid()
      modifies this`queued
      ensures Valid() && Parts() == old(Parts())
      ensures (Value(), d) == Boundary(old(Value()), req, now)
    {
      var retryAfter := provisioned.Wait(req.wu);
      var reason := EntitlementExhausted;
      if policy.queue.Some? {
        var q := policy.queue.value;
        var deadline := req.receivedAt + q.deadlineMs as real * MS;
        var remaining := MaxR(deadline - now, 0.0);
        var maxDepth := q.maxDepthWuSeconds * config.entitlement;
        if retryAfter > remaining {
          reason := QueueDeadline;
        } else if queued + req.wu > maxDepth {
          reason := QueueFull;
        } else {
          queued := queued + req.wu;
          return Queue(MaxR(MinR(retryAfter, 50.0 * MS), MS), req.wu);
        }
      }
      if policy.spillover {
        return Admit(Spillover, req.wu);
      }
      d := Reject(reason, retryAfter);
    }

    /** Dropping a queue slot. */
    method DropSlot(wu: real)
      requires Valid()
      modifies this`queued
      ensures Valid() && Parts() == old(Parts()) && Value() == LeftQueue(old(Value()), wu)
    {
      queued := MaxR(queued - wu, 0.0);
    }

    method SettleTicket(class_: Class, estimated: real, actual: real, now: real)
      requires Valid()
      modifies Parts()
      ensures Valid() && Parts() == old(Parts()) && Value() == SettledState(old(Value()), class_, actual - estimated, now)
      ensures ValidState(old(Value())) ==> SettlesAs(old(Value()), class_, estimated - actual, now, Value())
    {
      var delta := actual - estimated;
      if ValidState(Value()) {
        SettledIs(Value(), class_, delta, now);
      }
      Refill(now);
      match class_ {
        case Provisioned => provisioned.Settle(delta);
        case Bursting =>
          if burst != null {
            burst.SettleDelta(delta);
          }
        case Spillover =>
      }
    }
  }
}