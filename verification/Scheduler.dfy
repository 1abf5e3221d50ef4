/**
 The continuous-batching scheduler (crates/pt-mock-engine/src/contention.rs): admission,
 chunked prefill, one token per decoding sequence per step, and eviction with recompute
 when the KV cache overflows. Time is not part of the model.
 */
module Scheduler {
  import opened Prelude

  const U64_MAX: nat := 0xFFFF_FFFF_FFFF_FFFF

  datatype Contention = Contention(maxBatch: nat, chunk: Option<nat>, kvCapacity: nat)

  datatype Submission = Submission(prompt: nat, prefill: nat, output: nat)

  /** A sequence. `delivered` counts the tokens its client received. */
  datatype Sequence = Sequence(
    id: nat, prompt: nat, prefillLeft: nat, generated: nat, output: nat, delivered: nat, admitted: nat)

  function Kv(s: Sequence): nat {
    s.prompt + s.generated
  }

  function Outputs(sub: Submission): nat {
    Max(sub.output, 1)
  }

  function Accept(sub: Submission, id: nat): Sequence {
    Sequence(id, sub.prompt, Max(sub.prefill, 1), 0, Outputs(sub), 0, 0)
  }

  // ---------------------------------------------------------------------------
  // Sums over sequences
  // ---------------------------------------------------------------------------

  function Sum(f: Sequence -> nat, ss: seq<Sequence>): nat {
    if ss == [] then 0 else f(ss[0]) + Sum(f, ss[1..])
  }

  function Owed(s: Sequence): nat {
    SaturatingSub(s.output, s.generated)
  }

  function Work(s: Sequence): nat {
    s.prefillLeft
  }

  function Is(id: nat): Sequence -> nat {
    (s: Sequence) => if s.id == id then 1 else 0
  }

  lemma {:induction false} SumAppend(f: Sequence -> nat, a: seq<Sequence>, b: seq<Sequence>)
    ensures Sum(f, a + b) == Sum(f, a) + Sum(f, b)
  {
    if a == [] {
      assert a + b == b;
    } else {
      assert (a + b)[1..] == a[1..] + b;
      SumAppend(f, a[1..], b);
    }
  }

  lemma SumOne(f: Sequence -> nat, s: Sequence)
    ensures Sum(f, [s]) == f(s)
  {
    assert [s][1..] == [];
  }

  // ---------------------------------------------------------------------------
  // Admission
  // ---------------------------------------------------------------------------

  predicate Room(c: Contention, waiting: seq<Sequence>, running: seq<Sequence>) {
    |running| < c.maxBatch && waiting != [] && (Sum(Kv, running) + Kv(waiting[0]) <= c.kvCapacity || running == [])
  }

  /** First come first served, while the batch and the cache have room. */
  function Admitted(c: Contention, waiting: seq<Sequence>, running: seq<Sequence>, count: nat): (seq<Sequence>, seq<Sequence>, nat)
    decreases |waiting|
  {
    if Room(c, waiting, running)
    then Admitted(c, waiting[1..], running + [waiting[0].(admitted := count + 1)], count + 1)
    else (waiting, running, count)
  }

  /** Sequences taken into the batch, numbered from `count` on. */
  function Stamped(ss: seq<Sequence>, count: nat): (r: seq<Sequence>)
    ensures |r| == |ss|
  {
    seq(|ss|, i requires 0 <= i < |ss| => ss[i].(admitted := count + 1 + i))
  }

  /** The batch is full, or not empty and without KV for one more. */
  predicate Full(c: Contention, running: seq<Sequence>, next: Sequence) {
    |running| >= c.maxBatch || (running != [] && Sum(Kv, running) + Kv(next) > c.kvCapacity)
  }

  /** The first `n` waiting sequences, and no more, went into the batch, in their order: each
      found it not full, and the next does not. */
  predicate TakesIn(c: Contention, waiting0: seq<Sequence>, running0: seq<Sequence>, count0: nat,
                    waiting: seq<Sequence>, running: seq<Sequence>, count: nat, n: nat)
  {
    && n <= |waiting0| && waiting == waiting0[n..] && running == running0 + Stamped(waiting0[..n], count0) && count == count0 + n
    && (forall k :: 0 <= k < n ==> !Full(c, running0 + Stamped(waiting0[..k], count0), waiting0[k]))
    && (n < |waiting0| ==> Full(c, running, waiting0[n]))
  }

  lemma {:induction false} AdmittedIs(c: Contention, waiting: seq<Sequence>, running: seq<Sequence>, count: nat) returns (n: nat)
    ensures var (w, r, k) := Admitted(c, waiting, running, count); TakesIn(c, waiting, running, count, w, r, k, n)
    decreases |waiting|
  {
    var (w, r, k) := Admitted(c, waiting, running, count);
    if !Room(c, waiting, running) {
      n := 0;
      assert running + Stamped(waiting[..0], count) == running;
    } else {
      var first := waiting[0].(admitted := count + 1);
      var m := AdmittedIs(c, waiting[1..], running + [first], count + 1);
      n := m + 1;
      assert !Full(c, running, waiting[0]);
      hide Admitted, Room, Full;
      forall j | 0 <= j < n
        ensures !Full(c, running + Stamped(waiting[..j], count), waiting[j])
      {
        if j == 0 {
          assert running + Stamped(waiting[..0], count) == running;
        } else {
          StampedMore(waiting, running, count, j - 1);
          assert waiting[j] == waiting[1..][j - 1];
        }
      }
      StampedMore(waiting, running, count, m);
      assert waiting[1..][m..] == waiting[n..];
      assert n < |waiting| ==> waiting[1..][m] == waiting[n];
    }
  }

  lemma StampedMore(waiting: seq<Sequence>, running: seq<Sequence>, count: nat, j: nat)
    requires j < |waiting|
    ensures running + Stamped(waiting[..j + 1], count)
         == (running + [waiting[0].(admitted := count + 1)]) + Stamped(waiting[1..][..j], count + 1)
  {
    assert forall i :: 0 <= i < j ==> waiting[1..][..j][i] == waiting[..j + 1][i + 1];
  }

  method Admit(c: Contention, waiting0: seq<Sequence>, running0: seq<Sequence>, count0: nat)
    returns (waiting: seq<Sequence>, running: seq<Sequence>, count: nat)
    ensures (waiting, running, count) == Admitted(c, waiting0, running0, count0)
    ensures exists n :: TakesIn(c, waiting0, running0, count0, waiting, running, count, n)
  {
    ghost var n := AdmittedIs(c, waiting0, running0, count0);
    waiting, running, count := waiting0, running0, count0;
    var kvUsed := Sum(Kv, running);
    while |running| < c.maxBatch
      invariant kvUsed == Sum(Kv, running)
      invariant Admitted(c, waiting, running, count) == Admitted(c, waiting0, running0, count0)
      decreases |waiting|
    {
      if waiting == [] {
        break;
      }
      var next := waiting[0];
      var fits := kvUsed + Kv(next) <= c.kvCapacity;
      if !fits && running != [] {
        break;
      }
      waiting := waiting[1..];
      count := count + 1;
      var s := next.(admitted := count);
      kvUsed := kvUsed + Kv(s);
      SumAppend(Kv, running, [s]);
      SumOne(Kv, s);
      running := running + [s];
    }
  }

  // ---------------------------------------------------------------------------
  // One step
  // ---------------------------------------------------------------------------

  function Prefilled(ss: seq<Sequence>, budget: nat): (r: seq<Sequence>)
    ensures |r| == |ss|
    decreases |ss|
  {
    if ss == [] then []
    else
      var take := Min(ss[0].prefillLeft, budget);
      [ss[0].(prefillLeft := ss[0].prefillLeft - take)] + Prefilled(ss[1..], budget - take)
  }

  /** The budget is spent as far as there is prefill to do, on the first sequences of the
      batch, and nothing else changes. */
  predicate Spends(ss0: seq<Sequence>, budget: nat, ss: seq<Sequence>) {
    && |ss| == |ss0| && Sum(Work, ss) == SaturatingSub(Sum(Work, ss0), budget)
    && (forall i :: 0 <= i < |ss| ==> ss[i] == ss0[i].(prefillLeft := ss[i].prefillLeft) && ss[i].prefillLeft <= ss0[i].prefillLeft)
    && (forall i, j :: 0 <= i < j < |ss| && ss[j].prefillLeft < ss0[j].prefillLeft ==> ss[i].prefillLeft == 0)
  }

  lemma PrefilledIs(ss: seq<Sequence>, budget: nat)
    ensures Spends(ss, budget, Prefilled(ss, budget))
  {
    var p := Prefilled(ss, budget);
    PrefilledWork(ss, budget);
    forall i | 0 <= i < |ss|
      ensures p[i] == ss[i].(prefillLeft := p[i].prefillLeft) && p[i].prefillLeft <= ss[i].prefillLeft
    {
      PrefilledAt(ss, budget, i);
    }
    forall i, j | 0 <= i < j < |ss| && p[j].prefillLeft < ss[j].prefillLeft
      ensures p[i].prefillLeft == 0
    {
      PrefilledInOrder(ss, budget, i, j);
    }
  }

  lemma {:induction false} PrefilledInOrder(ss: seq<Sequence>, budget: nat, i: nat, j: nat)
    requires i < j < |ss| && Prefilled(ss, budget)[j].prefillLeft < ss[j].prefillLeft
    ensures Prefilled(ss, budget)[i].prefillLeft == 0
    decreases |ss|
  {
    var rest := budget - Min(ss[0].prefillLeft, budget);
    if i > 0 {
      PrefilledInOrder(ss[1..], rest, i - 1, j - 1);
    } else if rest == 0 {
      ZeroBudget(ss[1..]);
    }
  }

  method Prefill(ss0: seq<Sequence>, budget0: nat) returns (ss: seq<Sequence>)
    ensures ss == Prefilled(ss0, budget0) && Spends(ss0, budget0, ss)
  {
    PrefilledIs(ss0, budget0);
    hide Spends;
    ss := ss0;
    var budget: nat := budget0;
    ghost var goal := Prefilled(ss0, budget0);
    for i := 0 to |ss0|
      invariant |ss| == |ss0| && forall j :: i <= j < |ss| ==> ss[j] == ss0[j]
      invariant |goal| == |ss0| && goal[i..] == Prefilled(ss0[i..], budget)
      invariant forall j :: 0 <= j < i ==> ss[j] == goal[j]
    {
      assert ss0[i..][0] == ss0[i] && ss0[i..][1..] == ss0[i + 1..];
      assert goal[i..][0] == goal[i] && goal[i..][1..] == goal[i + 1..];
      if !(ss[i].prefillLeft == 0 || budget == 0) {
        var take := Min(ss[i].prefillLeft, budget);
        ss := ss[i := ss[i].(prefillLeft := ss[i].prefillLeft - take)];
        budget := budget - take;
      }
    }
  }

  /** A token for a sequence that can decode; a client that takes only `limit` is gone then. */
  function EmitOne(s: Sequence, limit: nat -> nat): Sequence {
    if s.prefillLeft > 0 then s
    else if s.delivered < limit(s.id) then s.(generated := s.generated + 1, delivered := s.delivered + 1)
    else s.(generated := s.output)
  }

  function Emitted(ss: seq<Sequence>, limit: nat -> nat): (r: seq<Sequence>)
    ensures |r| == |ss|
  {
    seq(|ss|, i requires 0 <= i < |ss| => EmitOne(ss[i], limit))
  }

  /** Every sequence whose prefill is done generates one token, and its client gets it; one
      whose client is gone is over; and nothing else changes. */
  predicate EmitsEach(ss0: seq<Sequence>, limit: nat -> nat, ss: seq<Sequence>) {
    && |ss| == |ss0|
    && forall i :: 0 <= i < |ss| ==>
         if ss0[i].prefillLeft > 0 then ss[i] == ss0[i]
         else
           && ss[i] == ss0[i].(generated := ss[i].generated, delivered := ss[i].delivered)
           && if ss0[i].delivered < limit(ss0[i].id)
              then ss[i].generated == ss0[i].generated + 1 && ss[i].delivered == ss0[i].delivered + 1
              else ss[i].generated == ss0[i].output && ss[i].delivered == ss0[i].delivered
  }

  method Emit(ss0: seq<Sequence>, limit: nat -> nat) returns (ss: seq<Sequence>)
    ensures ss == Emitted(ss0, limit) && EmitsEach(ss0, limit, ss)
  {
    ss := ss0;
    for i := 0 to |ss0|
      invariant |ss| == |ss0| && forall j :: i <= j < |ss| ==> ss[j] == ss0[j]
      invariant forall j :: 0 <= j < i ==> ss[j] == EmitOne(ss0[j], limit)
    {
      if ss[i].prefillLeft == 0 {
        if ss[i].delivered < limit(ss[i].id) {
          ss := ss[i := ss[i].(generated := ss[i].generated + 1, delivered := ss[i].delivered + 1)];
        } else {
          ss := ss[i := ss[i].(generated := ss[i].output)];
        }
      }
    }
  }

  /** `retain(generated < output)`. */
  function Kept(ss: seq<Sequence>): seq<Sequence> {
    if ss == [] then [] else (if ss[0].generated < ss[0].output then [ss[0]] else []) + Kept(ss[1..])
  }

  function Done(ss: seq<Sequence>): seq<Sequence> {
    if ss == [] then [] else (if ss[0].generated < ss[0].output then [] else [ss[0]]) + Done(ss[1..])
  }

  // ---------------------------------------------------------------------------
  // Eviction
  // ---------------------------------------------------------------------------

  /** `max_by_key`: the last of the most recently admitted. */
  function Newest(ss: seq<Sequence>): (k: nat)
    requires ss != []
    ensures k < |ss| && forall i :: 0 <= i < |ss| ==> ss[i].admitted <= ss[k].admitted
  {
    if |ss| == 1 then 0
    else
      var n := |ss| - 1;
      var k := Newest(ss[..n]);
      if ss[n].admitted >= ss[k].admitted then n else k
  }

  function SwapRemoved(ss: seq<Sequence>, k: nat): seq<Sequence>
    requires k < |ss|
  {
    ss[k := ss[|ss| - 1]][..|ss| - 1]
  }

  predicate Overflows(c: Contention, running: seq<Sequence>) {
    Sum(Kv, running) > c.kvCapacity && |running| > 1
  }

  /** Evict the newest until the rest fit; they recompute everything, at the head of the
      queue. */
  function Evicted(c: Contention, running: seq<Sequence>, waiting: seq<Sequence>): (seq<Sequence>, seq<Sequence>)
    decreases |running|
  {
    if !Overflows(c, running) then (running, waiting)
    else
      var k := Newest(running);
      Evicted(c, SwapRemoved(running, k), [running[k].(prefillLeft := Kv(running[k]))] + waiting)
  }

  lemma {:induction false} SumUpdate(f: Sequence -> nat, ss: seq<Sequence>, k: nat, x: Sequence)
    requires k < |ss|
    ensures Sum(f, ss[k := x]) + f(ss[k]) == Sum(f, ss) + f(x)
  {
    if k == 0 {
      assert ss[0 := x][1..] == ss[1..];
    } else {
      assert ss[k := x][1..] == ss[1..][k - 1 := x];
      SumUpdate(f, ss[1..], k - 1, x);
    }
  }

  lemma SumLast(f: Sequence -> nat, ss: seq<Sequence>)
    requires ss != []
    ensures Sum(f, ss) == Sum(f, ss[..|ss| - 1]) + f(ss[|ss| - 1])
  {
    var n := |ss| - 1;
    assert ss == ss[..n] + [ss[n]];
    SumAppend(f, ss[..n], [ss[n]]);
    SumOne(f, ss[n]);
  }

  lemma SwapRemovedSum(f: Sequence -> nat, ss: seq<Sequence>, k: nat)
    requires k < |ss|
    ensures Sum(f, SwapRemoved(ss, k)) + f(ss[k]) == Sum(f, ss)
  {
    hide Sum;
    var n := |ss| - 1;
    SumUpdate(f, ss, k, ss[n]);
    SumLast(f, ss[k := ss[n]]);
    assert ss[k := ss[n]][n] == ss[n];
  }

  /** Evicted sequences at the head of the queue: they prefill all they had in the cache. */
  function Recomputing(ss: seq<Sequence>): (r: seq<Sequence>)
    ensures |r| == |ss|
  {
    seq(|ss|, i requires 0 <= i < |ss| => ss[i].(prefillLeft := ss[i].prompt + ss[i].generated))
  }

  /** `gone` left the batch for the head of the queue: none of them admitted before one that
      stays, the oldest of them first, and no more than had to. */
  ghost predicate Throws(c: Contention, running0: seq<Sequence>, waiting0: seq<Sequence>, running: seq<Sequence>, waiting: seq<Sequence>,
                   gone: seq<Sequence>)
  {
    && waiting == Recomputing(gone) + waiting0 && |running| + |gone| == |running0| && (gone == [] ==> running == running0)
    && (forall s :: s in running0 <==> s in running || s in gone)
    && (forall i, s :: 0 <= i < |gone| && s in running ==> s.admitted <= gone[i].admitted)
    && (forall i, j :: 0 <= i < j < |gone| ==> gone[i].admitted <= gone[j].admitted)
    && (Sum(Kv, running) <= c.kvCapacity || |running| <= 1)
    && (gone != [] ==> Sum(Kv, running) + Kv(gone[0]) > c.kvCapacity && running != [])
  }

  lemma SwapRemovedHas(ss: seq<Sequence>, k: nat)
    requires k < |ss|
    ensures forall s :: s in ss <==> s in SwapRemoved(ss, k) || s == ss[k]
  {
    var left := SwapRemoved(ss, k);
    forall s | s in ss && s != ss[k]
      ensures s in left
    {
      var i :| 0 <= i < |ss| && ss[i] == s;
      assert left[if i == |ss| - 1 then k else i] == s;
    }
  }

  lemma {:induction false} EvictedIs(c: Contention, running: seq<Sequence>, waiting: seq<Sequence>) returns (gone: seq<Sequence>)
    ensures var (r, w) := Evicted(c, running, waiting); Throws(c, running, waiting, r, w, gone)
    decreases |running|
  {
    if !Overflows(c, running) {
      gone := [];
      assert Recomputing([]) + waiting == waiting;
    } else {
      var k := Newest(running);
      var left, s := SwapRemoved(running, k), running[k];
      var front := EvictedIs(c, left, [s.(prefillLeft := Kv(s))] + waiting);
      gone := front + [s];
      SwapRemovedHas(running, k);
      SwapRemovedSum(Kv, running, k);
      var (r, w) := Evicted(c, running, waiting);
      hide Throws, Evicted, Sum;
      ThrowsMore(c, running, waiting, left, s, r, w, front);
    }
  }

  /** `s`, the newest of a batch that overflows, goes too. */
  lemma ThrowsMore(c: Contention, running: seq<Sequence>, waiting: seq<Sequence>, left: seq<Sequence>, s: Sequence,
                   r: seq<Sequence>, w: seq<Sequence>, front: seq<Sequence>)
    requires |left| + 1 == |running| && left != [] && (forall x :: x in running <==> x in left || x == s)
    requires (forall x :: x in running ==> x.admitted <= s.admitted)
    requires Sum(Kv, left) + Kv(s) > c.kvCapacity
    requires Throws(c, left, [s.(prefillLeft := Kv(s))] + waiting, r, w, front)
    ensures Throws(c, running, waiting, r, w, front + [s])
  {
    hide Sum;
    var gone := front + [s];
    RecomputingMore(front, s, waiting);
    hide Recomputing;
    forall x
      ensures x in running <==> x in r || x in gone
    {
      assert x in gone <==> x in front || x == s;
    }
    assert gone[0] == if front == [] then s else front[0];
  }

  lemma RecomputingMore(front: seq<Sequence>, s: Sequence, waiting: seq<Sequence>)
    ensures Recomputing(front + [s]) + waiting == Recomputing(front) + ([s.(prefillLeft := Kv(s))] + waiting)
  {
  }

  method Evict(c: Contention, running0: seq<Sequence>, waiting0: seq<Sequence>)
    returns (running: seq<Sequence>, waiting: seq<Sequence>, preemptions: nat)
    ensures (running, waiting) == Evicted(c, running0, waiting0)
    ensures preemptions == |running0| - |running|
    ensures exists gone :: Throws(c, running0, waiting0, running, waiting, gone)
  {
    ghost var gone := EvictedIs(c, running0, waiting0);
    running, waiting, preemptions := running0, waiting0, 0;
    var kvUsed := Sum(Kv, running);
    while kvUsed > c.kvCapacity && |running| > 1
      invariant kvUsed == Sum(Kv, running) && preemptions == |running0| - |running|
      invariant Evicted(c, running, waiting) == Evicted(c, running0, waiting0)
      decreases |running|
    {
      var newest := FindNewest(running);
      var s := running[newest];
      SwapRemovedSum(Kv, running, newest);
      running := running[newest := running[|running| - 1]][..|running| - 1];
      kvUsed := kvUsed - Kv(s);
      waiting := [s.(prefillLeft := Kv(s))] + waiting;
      preemptions := preemptions + 1;
    }
  }

  method FindNewest(ss: seq<Sequence>) returns (k: nat)
    requires ss != []
    ensures k == Newest(ss)
  {
    k := 0;
    for i := 1 to |ss|
      invariant k == Newest(ss[..i])
    {
      assert ss[..i + 1][..i] == ss[..i];
      if ss[i].admitted >= ss[k].admitted {
        k := i;
      }
    }
    assert ss[..|ss|] == ss;
  }

  // ---------------------------------------------------------------------------
  // What the parts of a step keep
  // ---------------------------------------------------------------------------

  /** `f` does not look at when a sequence was admitted or at its prefill. */
  ghost predicate Steady(f: Sequence -> nat) {
    forall s: Sequence, a: nat, p: nat :: f(s.(admitted := a, prefillLeft := p)) == f(s)
  }

  lemma SteadyOwedAndIs(id: nat)
    ensures Steady(Owed) && Steady(Is(id)) && Steady(Kv)
  {
  }

  /** In flight: what the client got is what was generated, less than the whole output. */
  predicate Fine(subs: seq<Submission>, limit: nat -> nat, s: Sequence) {
    s.id < |subs| && s.output == Outputs(subs[s.id]) && s.delivered == s.generated < s.output && s.delivered <= limit(s.id)
  }

  /** Over: the client got the whole output, or all it took before it went. */
  predicate Over(subs: seq<Submission>, limit: nat -> nat, s: Sequence) {
    s.id < |subs| && s.output == Outputs(subs[s.id]) && s.delivered == Min(s.output, limit(s.id))
  }

  predicate AllFine(subs: seq<Submission>, limit: nat -> nat, ss: seq<Sequence>) {
    forall i :: 0 <= i < |ss| ==> Fine(subs, limit, ss[i])
  }

  predicate AllOver(subs: seq<Submission>, limit: nat -> nat, ss: seq<Sequence>) {
    forall i :: 0 <= i < |ss| ==> Over(subs, limit, ss[i])
  }

  /** Admission numbers in the batch are distinct and already given. */
  predicate Numbered(ss: seq<Sequence>, count: nat) {
    && (forall i :: 0 <= i < |ss| ==> ss[i].admitted <= count)
    && (forall i, j :: 0 <= i < j < |ss| ==> ss[i].admitted != ss[j].admitted)
  }

  lemma {:induction false} AdmittedKeeps(c: Contention, waiting: seq<Sequence>, running: seq<Sequence>, count: nat,
                                         subs: seq<Submission>, limit: nat -> nat)
    requires AllFine(subs, limit, waiting) && AllFine(subs, limit, running) && Numbered(running, count)
    requires !Overflows(c, running)
    ensures var (w, r, n) := Admitted(c, waiting, running, count);
      && AllFine(subs, limit, w) && AllFine(subs, limit, r) && Numbered(r, n) && !Overflows(c, r)
      && (c.maxBatch > 0 && (waiting != [] || running != []) ==> r != [])
    decreases |waiting|
  {
    if Room(c, waiting, running) {
      var s := waiting[0].(admitted := count + 1);
      SumAppend(Kv, running, [s]);
      SumOne(Kv, s);
      AdmittedKeeps(c, waiting[1..], running + [s], count + 1, subs, limit);
    }
  }

  lemma {:induction false} AdmittedSum(f: Sequence -> nat, c: Contention, waiting: seq<Sequence>, running: seq<Sequence>, count: nat)
    requires forall s: Sequence, a: nat :: f(s.(admitted := a)) == f(s)
    ensures var (w, r, n) := Admitted(c, waiting, running, count);
      Sum(f, w) + Sum(f, r) == Sum(f, waiting) + Sum(f, running)
    decreases |waiting|
  {
    if Room(c, waiting, running) {
      var s := waiting[0].(admitted := count + 1);
      SumAppend(f, running, [s]);
      SumOne(f, s);
      AdmittedSum(f, c, waiting[1..], running + [s], count + 1);
    }
  }

  lemma {:induction false} PrefilledAt(ss: seq<Sequence>, budget: nat, i: nat)
    requires i < |ss|
    ensures var p := Prefilled(ss, budget);
      p[i] == ss[i].(prefillLeft := p[i].prefillLeft) && p[i].prefillLeft <= ss[i].prefillLeft
    decreases |ss|
  {
    if i > 0 {
      PrefilledAt(ss[1..], budget - Min(ss[0].prefillLeft, budget), i - 1);
    }
  }

  lemma {:induction false} PrefilledSum(f: Sequence -> nat, ss: seq<Sequence>, budget: nat)
    requires Steady(f)
    ensures Sum(f, Prefilled(ss, budget)) == Sum(f, ss)
    decreases |ss|
  {
    if ss != [] {
      var take := Min(ss[0].prefillLeft, budget);
      var s := ss[0].(prefillLeft := ss[0].prefillLeft - take);
      assert f(s.(admitted := s.admitted, prefillLeft := s.prefillLeft)) == f(ss[0]);
      PrefilledSum(f, ss[1..], budget - take);
      assert Prefilled(ss, budget)[1..] == Prefilled(ss[1..], budget - take);
    }
  }

  /** Prefill does work whenever there is any and the budget allows it. */
  lemma {:induction false} PrefilledWork(ss: seq<Sequence>, budget: nat)
    ensures Sum(Work, Prefilled(ss, budget)) == Sum(Work, ss) - Min(Sum(Work, ss), budget)
    decreases |ss|
  {
    if ss != [] {
      var take := Min(ss[0].prefillLeft, budget);
      PrefilledWork(ss[1..], budget - take);
      assert Prefilled(ss, budget)[1..] == Prefilled(ss[1..], budget - take);
    }
  }

  lemma EmitOneKeeps(s: Sequence, subs: seq<Submission>, limit: nat -> nat)
    requires Fine(subs, limit, s)
    ensures var e := EmitOne(s, limit);
      && (e.generated < e.output ==> Fine(subs, limit, e)) && (e.generated >= e.output ==> Over(subs, limit, e) && Owed(e) == 0)
      && Owed(e) <= Owed(s) && (s.prefillLeft == 0 ==> Owed(e) < Owed(s)) && e.admitted == s.admitted && Work(e) == Work(s) && e.id == s.id
  {
  }

  lemma {:induction false} EmittedSums(ss: seq<Sequence>, subs: seq<Submission>, limit: nat -> nat, id: nat)
    requires AllFine(subs, limit, ss)
    ensures Sum(Owed, Emitted(ss, limit)) <= Sum(Owed, ss)
    ensures (exists i :: 0 <= i < |ss| && ss[i].prefillLeft == 0) ==> Sum(Owed, Emitted(ss, limit)) < Sum(Owed, ss)
    ensures Sum(Work, Emitted(ss, limit)) == Sum(Work, ss) && Sum(Is(id), Emitted(ss, limit)) == Sum(Is(id), ss)
  {
    if ss != [] {
      assert Emitted(ss, limit)[1..] == Emitted(ss[1..], limit);
      EmitOneKeeps(ss[0], subs, limit);
      EmittedSums(ss[1..], subs, limit, id);
      if exists i :: 0 <= i < |ss| && ss[i].prefillLeft == 0 {
        var i :| 0 <= i < |ss| && ss[i].prefillLeft == 0;
        if i > 0 {
          assert ss[1..][i - 1].prefillLeft == 0;
        }
      }
    }
  }

  lemma {:induction false} KeptSum(f: Sequence -> nat, ss: seq<Sequence>)
    ensures Sum(f, Kept(ss)) + Sum(f, Done(ss)) == Sum(f, ss)
  {
    if ss != [] {
      KeptSum(f, ss[1..]);
      SumAppend(f, [ss[0]], Kept(ss[1..]));
      SumAppend(f, [ss[0]], Done(ss[1..]));
      SumOne(f, ss[0]);
      assert [] + Kept(ss[1..]) == Kept(ss[1..]) && [] + Done(ss[1..]) == Done(ss[1..]);
    }
  }

  predicate Sorted(subs: seq<Submission>, limit: nat -> nat, s: Sequence) {
    if s.generated < s.output then Fine(subs, limit, s) else Over(subs, limit, s) && Owed(s) == 0
  }

  lemma EmittedSorted(ss: seq<Sequence>, subs: seq<Submission>, limit: nat -> nat)
    requires AllFine(subs, limit, ss)
    ensures forall i :: 0 <= i < |ss| ==> Sorted(subs, limit, Emitted(ss, limit)[i])
  {
    forall i | 0 <= i < |ss|
      ensures Sorted(subs, limit, Emitted(ss, limit)[i])
    {
      EmitOneKeeps(ss[i], subs, limit);
    }
  }

  /** Everything kept is in flight, everything done is over. */
  lemma {:induction false} KeptFine(e: seq<Sequence>, subs: seq<Submission>, limit: nat -> nat)
    requires forall i :: 0 <= i < |e| ==> Sorted(subs, limit, e[i])
    ensures AllFine(subs, limit, Kept(e)) && AllOver(subs, limit, Done(e)) && Sum(Owed, Done(e)) == 0
  {
    if e != [] {
      KeptFine(e[1..], subs, limit);
      assert Sorted(subs, limit, e[0]);
      SumAppend(Owed, [e[0]], Done(e[1..]));
      SumOne(Owed, e[0]);
      assert [] + Done(e[1..]) == Done(e[1..]);
    }
  }

  lemma {:induction false} KeptIn(e: seq<Sequence>, j: nat) returns (i: nat)
    requires j < |Kept(e)|
    ensures i < |e| && Kept(e)[j] == e[i]
  {
    var first := e[0].generated < e[0].output;
    if first && j == 0 {
      i := 0;
    } else {
      var x := KeptIn(e[1..], if first then j - 1 else j);
      i := x + 1;
    }
  }

  lemma {:induction false} KeptNumbered(e: seq<Sequence>, count: nat)
    requires Numbered(e, count)
    ensures Numbered(Kept(e), count)
  {
    if e != [] {
      var kept, rest := Kept(e), Kept(e[1..]);
      assert Numbered(e[1..], count);
      KeptNumbered(e[1..], count);
      if e[0].generated < e[0].output {
        forall j | 0 < j < |kept|
          ensures kept[0].admitted != kept[j].admitted
        {
          var x := KeptIn(e[1..], j - 1);
          assert kept[j] == rest[j - 1] == e[x + 1];
        }
      } else {
        assert kept == rest;
      }
    }
  }

  lemma EmittedNumbered(ss: seq<Sequence>, limit: nat -> nat, count: nat)
    requires Numbered(ss, count)
    ensures Numbered(Emitted(ss, limit), count)
  {
    assert forall i :: 0 <= i < |ss| ==> Emitted(ss, limit)[i].admitted == ss[i].admitted;
  }

  lemma PrefilledKeeps(ss: seq<Sequence>, budget: nat, subs: seq<Submission>, limit: nat -> nat, count: nat)
    requires AllFine(subs, limit, ss) && Numbered(ss, count)
    ensures AllFine(subs, limit, Prefilled(ss, budget)) && Numbered(Prefilled(ss, budget), count)
  {
    var p := Prefilled(ss, budget);
    forall i | 0 <= i < |ss|
      ensures p[i] == ss[i].(prefillLeft := p[i].prefillLeft)
    {
      PrefilledAt(ss, budget, i);
    }
  }

  // ---------------------------------------------------------------------------
  // Eviction
  // ---------------------------------------------------------------------------

  lemma SwapRemovedKeeps(ss: seq<Sequence>, k: nat, subs: seq<Submission>, limit: nat -> nat, count: nat)
    requires k < |ss| && AllFine(subs, limit, ss) && Numbered(ss, count)
    ensures AllFine(subs, limit, SwapRemoved(ss, k)) && Numbered(SwapRemoved(ss, k), count)
  {
  }

  lemma {:induction false} EvictedKeeps(c: Contention, running: seq<Sequence>, waiting: seq<Sequence>,
                                        subs: seq<Submission>, limit: nat -> nat, count: nat)
    requires AllFine(subs, limit, waiting) && AllFine(subs, limit, running) && Numbered(running, count)
    ensures var (r, w) := Evicted(c, running, waiting);
      && AllFine(subs, limit, w) && AllFine(subs, limit, r) && Numbered(r, count) && !Overflows(c, r)
      && (running != [] ==> r != [])
    decreases |running|
  {
    if Overflows(c, running) {
      var k := Newest(running);
      SwapRemovedKeeps(running, k, subs, limit, count);
      EvictedKeeps(c, SwapRemoved(running, k), [running[k].(prefillLeft := Kv(running[k]))] + waiting, subs, limit, count);
    }
  }

  lemma {:induction false} EvictedSum(f: Sequence -> nat, c: Contention, running: seq<Sequence>, waiting: seq<Sequence>)
    requires Steady(f)
    ensures var (r, w) := Evicted(c, running, waiting);
      Sum(f, r) + Sum(f, w) == Sum(f, running) + Sum(f, waiting)
    decreases |running|
  {
    if Overflows(c, running) {
      var k := Newest(running);
      var s := running[k].(prefillLeft := Kv(running[k]));
      SwapRemovedSum(f, running, k);
      assert f(s.(admitted := s.admitted, prefillLeft := s.prefillLeft)) == f(running[k]);
      assert ([s] + waiting)[1..] == waiting;
      EvictedSum(f, c, SwapRemoved(running, k), [s] + waiting);
    }
  }

  /** The oldest running sequence is never evicted. */
  lemma {:induction false} OldestStays(c: Contention, running: seq<Sequence>, waiting: seq<Sequence>, count: nat, oldest: Sequence)
    requires Numbered(running, count) && oldest in running && forall s :: s in running ==> oldest.admitted <= s.admitted
    ensures oldest in Evicted(c, running, waiting).0
    decreases |running|
  {
    if Overflows(c, running) {
      var k := Newest(running);
      var left := SwapRemoved(running, k);
      var i :| 0 <= i < |running| && running[i] == oldest;
      assert i != k by {
        var other := if k == 0 then 1 else 0;
        assert running[other] in running && running[k].admitted != running[other].admitted;
        assert running[other].admitted <= running[k].admitted;
      }
      assert left[if i == |running| - 1 then k else i] == oldest;
      forall s | s in left
        ensures oldest.admitted <= s.admitted
      {
        var j :| 0 <= j < |left| && left[j] == s;
        assert s == if j == k then running[|running| - 1] else running[j];
      }
      assert Numbered(left, count);
      OldestStays(c, left, [running[k].(prefillLeft := Kv(running[k]))] + waiting, count, oldest);
    }
  }

  // ---------------------------------------------------------------------------
  // A whole step
  // ---------------------------------------------------------------------------

  datatype Batch = Batch(waiting: seq<Sequence>, running: seq<Sequence>, count: nat, finished: seq<Sequence>)

  function Budget(c: Contention): nat {
    if c.chunk.Some? then c.chunk.value else U64_MAX
  }

  /** The batch after admission, prefill, emission, retention and eviction. */
  function Step(c: Contention, limit: nat -> nat, b: Batch): Batch {
    var (w, r, n) := Admitted(c, b.waiting, b.running, b.count);
    var e := Emitted(Prefilled(r, Budget(c)), limit);
    var (r', w') := Evicted(c, Kept(e), w);
    Batch(w', r', n, b.finished + Done(e))
  }

  function InFlight(f: Sequence -> nat, b: Batch): nat {
    Sum(f, b.waiting) + Sum(f, b.running)
  }

  predicate Sound(c: Contention, subs: seq<Submission>, limit: nat -> nat, b: Batch) {
    && AllFine(subs, limit, b.waiting) && AllFine(subs, limit, b.running) && AllOver(subs, limit, b.finished)
    && Numbered(b.running, b.count) && !Overflows(c, b.running)
  }

  lemma StepKeepsSound(c: Contention, subs: seq<Submission>, limit: nat -> nat, b: Batch)
    requires Sound(c, subs, limit, b)
    ensures Sound(c, subs, limit, Step(c, limit, b))
  {
    var (w, r, n) := Admitted(c, b.waiting, b.running, b.count);
    AdmittedKeeps(c, b.waiting, b.running, b.count, subs, limit);
    var p := Prefilled(r, Budget(c));
    PrefilledKeeps(r, Budget(c), subs, limit, n);
    EmittedSorted(p, subs, limit);
    EmittedNumbered(p, limit, n);
    KeptFine(Emitted(p, limit), subs, limit);
    KeptNumbered(Emitted(p, limit), n);
    EvictedKeeps(c, Kept(Emitted(p, limit)), w, subs, limit, n);
  }

  /** No sequence is lost or doubled. */
  lemma StepKeepsTally(c: Contention, subs: seq<Submission>, limit: nat -> nat, b: Batch, id: nat)
    requires Sound(c, subs, limit, b)
    ensures InFlight(Is(id), Step(c, limit, b)) + Sum(Is(id), Step(c, limit, b).finished) == InFlight(Is(id), b) + Sum(Is(id), b.finished)
  {
    var (w, r, n) := Admitted(c, b.waiting, b.running, b.count);
    SteadyOwedAndIs(id);
    AdmittedKeeps(c, b.waiting, b.running, b.count, subs, limit);
    AdmittedSum(Is(id), c, b.waiting, b.running, b.count);
    var p := Prefilled(r, Budget(c));
    PrefilledSum(Is(id), r, Budget(c));
    PrefilledKeeps(r, Budget(c), subs, limit, n);
    EmittedSums(p, subs, limit, id);
    var e := Emitted(p, limit);
    KeptSum(Is(id), e);
    EvictedSum(Is(id), c, Kept(e), w);
    SumAppend(Is(id), b.finished, Done(e));
  }

  predicate SomeDecodes(ss: seq<Sequence>) {
    exists i :: 0 <= i < |ss| && ss[i].prefillLeft == 0
  }

  lemma {:induction false} NothingDone(ss: seq<Sequence>)
    requires forall i :: 0 <= i < |ss| ==> ss[i].generated < ss[i].output
    ensures Kept(ss) == ss && Done(ss) == []
  {
    if ss != [] {
      NothingDone(ss[1..]);
      assert ss == [ss[0]] + ss[1..];
    }
  }

  /** Eviction happens only in a step that also emitted a token. */
  lemma EvictsOnlyAfterEmitting(c: Contention, subs: seq<Submission>, limit: nat -> nat, running: seq<Sequence>, count: nat)
    requires AllFine(subs, limit, running) && Numbered(running, count) && !Overflows(c, running)
    requires !SomeDecodes(Prefilled(running, Budget(c)))
    ensures var p := Prefilled(running, Budget(c));
      Kept(Emitted(p, limit)) == p && Done(Emitted(p, limit)) == [] && !Overflows(c, p)
  {
    var p := Prefilled(running, Budget(c));
    PrefilledKeeps(running, Budget(c), subs, limit, count);
    assert Emitted(p, limit) == p by {
      forall i | 0 <= i < |p|
        ensures EmitOne(p[i], limit) == p[i]
      {
        assert p[i].prefillLeft > 0;
      }
    }
    NothingDone(p);
    SteadyOwedAndIs(0);
    PrefilledSum(Kv, running, Budget(c));
  }

  /** Every step brings the end nearer: fewer tokens owed, or as many and less prefill. */
  lemma StepDecreases(c: Contention, subs: seq<Submission>, limit: nat -> nat, b: Batch)
    requires Sound(c, subs, limit, b) && c.maxBatch > 0 && Budget(c) > 0 && (b.waiting != [] || b.running != [])
    ensures var b' := Step(c, limit, b);
      InFlight(Owed, b') < InFlight(Owed, b) || (InFlight(Owed, b') == InFlight(Owed, b) && InFlight(Work, b') < InFlight(Work, b))
  {
    var (w, r, n) := Admitted(c, b.waiting, b.running, b.count);
    AdmittedKeeps(c, b.waiting, b.running, b.count, subs, limit);
    SteadyOwedAndIs(0);
    AdmittedSum(Owed, c, b.waiting, b.running, b.count);
    AdmittedSum(Work, c, b.waiting, b.running, b.count);
    if SomeDecodes(Prefilled(r, Budget(c))) {
      EmittingDecreases(c, subs, limit, w, r, n);
    } else {
      EvictsOnlyAfterEmitting(c, subs, limit, r, n);
      PrefillingDecreases(c, r);
      SteadyOwedAndIs(0);
      PrefilledSum(Owed, r, Budget(c));
    }
  }

  lemma EmittingDecreases(c: Contention, subs: seq<Submission>, limit: nat -> nat, w: seq<Sequence>, r: seq<Sequence>, n: nat)
    requires AllFine(subs, limit, r) && Numbered(r, n) && SomeDecodes(Prefilled(r, Budget(c)))
    ensures var (r', w') := Evicted(c, Kept(Emitted(Prefilled(r, Budget(c)), limit)), w);
      Sum(Owed, w') + Sum(Owed, r') < Sum(Owed, w) + Sum(Owed, r)
  {
    SteadyOwedAndIs(0);
    var p := Prefilled(r, Budget(c));
    PrefilledKeeps(r, Budget(c), subs, limit, n);
    PrefilledSum(Owed, r, Budget(c));
    EmittedSums(p, subs, limit, 0);
    var e := Emitted(p, limit);
    EmittedSorted(p, subs, limit);
    KeptFine(e, subs, limit);
    KeptSum(Owed, e);
    EvictedSum(Owed, c, Kept(e), w);
  }

  lemma PrefillingDecreases(c: Contention, r: seq<Sequence>)
    requires r != [] && Budget(c) > 0 && !SomeDecodes(Prefilled(r, Budget(c)))
    ensures Sum(Work, Prefilled(r, Budget(c))) < Sum(Work, r)
  {
    PrefilledWork(r, Budget(c));
    var p := Prefilled(r, Budget(c));
    PrefilledAt(r, Budget(c), 0);
    assert p[0].prefillLeft > 0;
  }

  /** Without room for one sequence, or with a zero chunk, nothing moves. */
  lemma NoRoomStalls(c: Contention, limit: nat -> nat, b: Batch)
    requires c.maxBatch == 0 && b.running == []
    ensures Step(c, limit, b) == b
  {
    assert b.finished + [] == b.finished;
  }

  lemma ZeroChunkStalls(c: Contention, subs: seq<Submission>, limit: nat -> nat, b: Batch)
    requires Sound(c, subs, limit, b) && c.chunk == Some(0) && !Room(c, b.waiting, b.running)
    requires forall i :: 0 <= i < |b.running| ==> b.running[i].prefillLeft > 0
    ensures Step(c, limit, b) == b
  {
    var p := Prefilled(b.running, 0);
    ZeroBudget(b.running);
    EvictsOnlyAfterEmitting(c, subs, limit, b.running, b.count);
    assert b.finished + [] == b.finished;
  }

  lemma {:induction false} ZeroBudget(ss: seq<Sequence>)
    ensures Prefilled(ss, 0) == ss
  {
    if ss != [] {
      ZeroBudget(ss[1..]);
      assert ss == [ss[0]] + ss[1..];
    }
  }

  // ---------------------------------------------------------------------------
  // The whole run
  // ---------------------------------------------------------------------------

  /** What submissions not yet taken will add. */
  function Pending(f: Sequence -> nat, subs: seq<Submission>, next: nat): nat
    requires next <= |subs|
    decreases |subs| - next
  {
    if next == |subs| then 0 else f(Accept(subs[next], next)) + Pending(f, subs, next + 1)
  }

  /** Each submission taken is somewhere, once. */
  ghost predicate EachOnce(b: Batch, next: nat) {
    forall id: nat :: InFlight(Is(id), b) + Sum(Is(id), b.finished) == if id < next then 1 else 0
  }

  method TakeOne(subs: seq<Submission>, limit: nat -> nat, c: Contention, b: Batch, next: nat) returns (b': Batch)
    requires next < |subs| && Sound(c, subs, limit, b) && EachOnce(b, next)
    ensures b' == b.(waiting := b.waiting + [Accept(subs[next], next)])
    ensures Sound(c, subs, limit, b') && EachOnce(b', next + 1)
    ensures InFlight(Owed, b') + Pending(Owed, subs, next + 1) == InFlight(Owed, b) + Pending(Owed, subs, next)
    ensures InFlight(Work, b') + Pending(Work, subs, next + 1) == InFlight(Work, b) + Pending(Work, subs, next)
  {
    var s := Accept(subs[next], next);
    b' := b.(waiting := b.waiting + [s]);
    SumAppend(Owed, b.waiting, [s]);
    SumOne(Owed, s);
    SumAppend(Work, b.waiting, [s]);
    SumOne(Work, s);
    forall id: nat
      ensures InFlight(Is(id), b') + Sum(Is(id), b'.finished) == if id < next + 1 then 1 else 0
    {
      SumAppend(Is(id), b.waiting, [s]);
      SumOne(Is(id), s);
    }
  }

  /** Submissions as they join the queue: at least one token to prefill and one to get. */
  function Arrived(subs: seq<Submission>, from: nat, to: nat): seq<Sequence>
    requires from <= to <= |subs|
  {
    seq(to - from, i requires 0 <= i < to - from =>
      Sequence(from + i, subs[from + i].prompt, Max(subs[from + i].prefill, 1), 0, Max(subs[from + i].output, 1), 0, 0))
  }

  /** Everything that has arrived; at least one submission if idle. */
  method TakeArrivals(subs: seq<Submission>, limit: nat -> nat, c: Contention, b0: Batch, next0: nat, ready: nat)
    returns (b: Batch, next: nat)
    requires next0 <= |subs| && Sound(c, subs, limit, b0) && EachOnce(b0, next0)
    requires b0.waiting != [] || b0.running != [] || next0 < |subs|
    ensures b == b0.(waiting := b.waiting) && next0 <= next <= |subs| && b.waiting == b0.waiting + Arrived(subs, next0, next)
    ensures next == Min(|subs|, Max(ready, if b0.running == [] && b0.waiting == [] then next0 + 1 else next0))
    ensures next <= |subs| && Sound(c, subs, limit, b) && EachOnce(b, next) && (b.waiting != [] || b.running != [])
    ensures InFlight(Owed, b) + Pending(Owed, subs, next) == InFlight(Owed, b0) + Pending(Owed, subs, next0)
    ensures InFlight(Work, b) + Pending(Work, subs, next) == InFlight(Work, b0) + Pending(Work, subs, next0)
  {
    hide Sound, Sum, Pending, EachOnce;
    b, next := b0, next0;
    assert b.waiting == b0.waiting + Arrived(subs, next0, next0);
    if b.running == [] && b.waiting == [] {
      b := TakeOne(subs, limit, c, b, next);
      next := next + 1;
    }
    while next < |subs| && next < ready
      invariant b == b0.(waiting := b.waiting) && next0 <= next <= |subs| && b.waiting == b0.waiting + Arrived(subs, next0, next)
      invariant next == (if b0.running == [] && b0.waiting == [] then next0 + 1 else next0) || next <= ready
      invariant next >= if b0.running == [] && b0.waiting == [] then next0 + 1 else next0
      invariant next <= |subs| && Sound(c, subs, limit, b) && EachOnce(b, next) && (b.waiting != [] || b.running != [])
      invariant InFlight(Owed, b) + Pending(Owed, subs, next) == InFlight(Owed, b0) + Pending(Owed, subs, next0)
      invariant InFlight(Work, b) + Pending(Work, subs, next) == InFlight(Work, b0) + Pending(Work, subs, next0)
    {
      b := TakeOne(subs, limit, c, b, next);
      next := next + 1;
    }
  }

  lemma StepKeepsEachOnce(c: Contention, subs: seq<Submission>, limit: nat -> nat, b: Batch, next: nat)
    requires Sound(c, subs, limit, b) && EachOnce(b, next)
    ensures EachOnce(Step(c, limit, b), next)
  {
    forall id: nat
      ensures InFlight(Is(id), Step(c, limit, b)) + Sum(Is(id), Step(c, limit, b).finished) == if id < next then 1 else 0
    {
      StepKeepsTally(c, subs, limit, b, id);
    }
  }

  /** The scheduler task. `ready(t)` is how many submissions have arrived by turn `t`; `limit`
      is how many tokens each client takes. Every submission ends up finished, once, its
      client having got the whole output or all it took. */
  method Run(c: Contention, subs: seq<Submission>, limit: nat -> nat, ready: nat -> nat)
    returns (finished: seq<Sequence>, preemptions: nat)
    requires c.maxBatch > 0 && c.chunk != Some(0)
    ensures AllOver(subs, limit, finished)
    ensures forall id: nat :: Sum(Is(id), finished) == if id < |subs| then 1 else 0
  {
    hide Step, Sound, EachOnce, InFlight, Pending, Sum, AllOver;
    var b := Batch([], [], 0, []);
    var next: nat, t: nat := 0, 0;
    preemptions := 0;
    RunStarts(c, subs, limit);
    while b.waiting != [] || b.running != [] || next < |subs|
      invariant next <= |subs| && Sound(c, subs, limit, b) && EachOnce(b, next)
      decreases InFlight(Owed, b) + Pending(Owed, subs, next), InFlight(Work, b) + Pending(Work, subs, next)
    {
      b, next := TakeArrivals(subs, limit, c, b, next, ready(t));
      StepKeepsSound(c, subs, limit, b);
      StepDecreases(c, subs, limit, b);
      StepKeepsEachOnce(c, subs, limit, b, next);
      var evictions;
      ghost var w, r, p, e;
      b, evictions, w, r, p, e := OneStep(c, limit, b);
      preemptions := preemptions + evictions;
      t := t + 1;
    }
    finished := b.finished;
    RunEnds(c, subs, limit, b, next);
  }

  lemma RunStarts(c: Contention, subs: seq<Submission>, limit: nat -> nat)
    ensures Sound(c, subs, limit, Batch([], [], 0, [])) && EachOnce(Batch([], [], 0, []), 0)
  {
  }

  lemma RunEnds(c: Contention, subs: seq<Submission>, limit: nat -> nat, b: Batch, next: nat)
    requires Sound(c, subs, limit, b) && EachOnce(b, next) && b.waiting == [] && b.running == [] && next == |subs|
    ensures AllOver(subs, limit, b.finished)
    ensures forall id: nat :: Sum(Is(id), b.finished) == if id < |subs| then 1 else 0
  {
  }

  /** What is over taken out of `ss`. */
  ghost predicate Parted(ss: seq<Sequence>, kept: seq<Sequence>, over: seq<Sequence>) {
    && |kept| + |over| == |ss|
    && (forall s :: s in kept <==> s in ss && s.generated < s.output)
    && (forall s :: s in over <==> s in ss && s.generated >= s.output)
  }

  lemma {:induction false} KeptParts(ss: seq<Sequence>)
    ensures Parted(ss, Kept(ss), Done(ss))
  {
    if ss != [] {
      KeptParts(ss[1..]);
      assert forall s :: s in ss <==> s == ss[0] || s in ss[1..];
    }
  }

  /** One step: admission of `r`, prefill to `p`, a token each to `e`, and eviction from what
      is left of it. */
  ghost predicate StepsBy(c: Contention, limit: nat -> nat, b: Batch, b': Batch, w: seq<Sequence>, r: seq<Sequence>, p: seq<Sequence>,
                          e: seq<Sequence>, kept: seq<Sequence>, over: seq<Sequence>)
  {
    && (exists n :: TakesIn(c, b.waiting, b.running, b.count, w, r, b'.count, n))
    && (if c.chunk.Some? then Spends(r, c.chunk.value, p) else Spends(r, U64_MAX, p))
    && EmitsEach(p, limit, e) && Parted(e, kept, over) && b'.finished == b.finished + over
    && exists gone :: Throws(c, kept, w, b'.running, b'.waiting, gone)
  }

  method OneStep(c: Contention, limit: nat -> nat, b: Batch)
    returns (b': Batch, evictions: nat, ghost w: seq<Sequence>, ghost r: seq<Sequence>, ghost p: seq<Sequence>, ghost e: seq<Sequence>)
    ensures b' == Step(c, limit, b)
    ensures exists kept, over :: StepsBy(c, limit, b, b', w, r, p, e, kept, over)
  {
    hide TakesIn, Spends, EmitsEach, Throws, Parted, Admitted, Prefilled, Emitted, Evicted;
    var queue, batch, n := Admit(c, b.waiting, b.running, b.count);
    var filled := Prefill(batch, Budget(c));
    var emitted := Emit(filled, limit);
    var r', w';
    r', w', evictions := Evict(c, Kept(emitted), queue);
    b' := Batch(w', r', n, b.finished + Done(emitted));
    w, r, p, e := queue, batch, filled, emitted;
    KeptParts(emitted);
    assert StepsBy(c, limit, b, b', w, r, p, e, Kept(emitted), Done(emitted));
  }

  /** A client that stays gets exactly the output it asked for. */
  lemma LiveClientGetsAll(subs: seq<Submission>, limit: nat -> nat, finished: seq<Sequence>, id: nat)
    requires AllOver(subs, limit, finished) && id < |subs| && Sum(Is(id), finished) == 1 && limit(id) >= Outputs(subs[id])
    ensures exists k :: 0 <= k < |finished| && finished[k].id == id && finished[k].delivered == Outputs(subs[id])
  {
    var k := FindId(finished, id);
    assert Over(subs, limit, finished[k]);
  }

  lemma {:induction false} FindId(ss: seq<Sequence>, id: nat) returns (k: nat)
    requires Sum(Is(id), ss) > 0
    ensures k < |ss| && ss[k].id == id
  {
    if ss[0].id == id {
      k := 0;
    } else {
      var j := FindId(ss[1..], id);
      k := j + 1;
    }
  }
}