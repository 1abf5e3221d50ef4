/**
 Leader election on one compare-and-swap lease (crates/pt-election).

 `MemoryLease`, `Elector` and `Leadership` are the objects of the source, each proved
 against a function on values. The functions split a tick at its await points (start,
 read, write, return), so the second half of the module can interleave the ticks and
 releases of any number of replicas with each other and with the clock.

 All instants are read on one clock. Replicas only ever compare their own instants, so
 clocks with different zeros but the same rate behave the same way.
 */
module Election {
  import opened Prelude

  type Id = string
  type Time = int

  datatype Record = Record(holder: Option<Id>, version: nat)

  datatype Config = Config(leaseDuration: Time, renewDeadline: Time, retryPeriod: Time)

  datatype ConfigError = EmptyIdentity | BadRetryPeriod | BadRenewDeadline | GapTooShort

  function Validate(c: Config, identity: Id, minGap: Time): Result<(), ConfigError> {
    if identity == "" then Err(EmptyIdentity)
    else if c.retryPeriod <= 0 || c.retryPeriod >= c.renewDeadline then Err(BadRetryPeriod)
    else if c.renewDeadline >= c.leaseDuration then Err(BadRenewDeadline)
    else if c.leaseDuration - c.renewDeadline < minGap then Err(GapTooShort)
    else Ok(())
  }

  /** What every validated configuration satisfies. */
  predicate Timed(c: Config) {
    0 < c.renewDeadline < c.leaseDuration
  }

  datatype Change = NoChange | Acquired(warmUp: bool) | Resumed | Lost

  // ---------------------------------------------------------------------------
  // One elector, as functions on values
  // ---------------------------------------------------------------------------

  /** Compare-and-swap: the new record and whether the write was taken. */
  function Cas(rec: Option<Record>, holder: Option<Id>, expected: Option<nat>): (Option<Record>, bool) {
    match (rec, expected)
    case (None, None) => (Some(Record(holder, 1)), true)
    case (Some(r), Some(e)) => if r.version == e then (Some(Record(holder, r.version + 1)), true) else (rec, false)
    case _ => (rec, false)
  }

  function Version(rec: Option<Record>): nat {
    if rec.Some? then rec.value.version else 0
  }

  /** `observed`: another holder's version and when it was first seen. */
  datatype ElectorState = ElectorState(observed: Option<(nat, Time)>, lastRenew: Option<Time>)

  function LeaderUntil(c: Config, s: ElectorState): Option<Time> {
    if s.lastRenew.Some? then Some(s.lastRenew.value + c.renewDeadline) else None
  }

  predicate IsLeader(c: Config, s: ElectorState, now: Time) {
    LeaderUntil(c, s).Some? && now < LeaderUntil(c, s).value
  }

  /** Why a tick writes. `was`: it led when the tick started. */
  datatype Kind = Create | Renew(was: bool) | TakeReleased | TakeWatched(was: bool)

  datatype Intent = Attempt(kind: Kind, expected: Option<nat>) | Stand(change: Change)

  function Observe(s: ElectorState, version: nat, t: Time): ElectorState {
    ElectorState(if s.observed.Some? && s.observed.value.0 == version then s.observed else Some((version, t)), None)
  }

  /** A tick stamped `t`, from its read of `rec` to its next write or its end. */
  function AfterRead(c: Config, me: Id, s: ElectorState, t: Time, rec: Option<Record>): (ElectorState, Intent) {
    var was := IsLeader(c, s, t);
    match rec
    case None => (s, Attempt(Create, None))
    case Some(r) =>
      if r.holder == Some(me) then (s, Attempt(Renew(was), Some(r.version)))
      else if r.holder == None then (s, Attempt(TakeReleased, Some(r.version)))
      else
        var s1 := Observe(s, r.version, t);
        if SaturatingSub(t, s1.observed.value.1) >= c.leaseDuration
        then (s1, Attempt(TakeWatched(was), Some(r.version)))
        else (s1, Stand(if was then Lost else NoChange))
  }

  /** A tick stamped `t`, once its write has returned. */
  function AfterWrite(s: ElectorState, t: Time, kind: Kind, ok: bool): (ElectorState, Change) {
    match kind
    case Create => if ok then (ElectorState(None, Some(t)), Acquired(false)) else (s, NoChange)
    case Renew(was) =>
      if ok then (s.(lastRenew := Some(t)), if was then NoChange else Resumed) else (s, NoChange)
    case TakeReleased => if ok then (ElectorState(None, Some(t)), Acquired(true)) else (s, NoChange)
    case TakeWatched(was) =>
      if ok then (ElectorState(None, Some(t)), Acquired(false)) else (s, if was then Lost else NoChange)
  }

  /** A tick nobody interleaves with: its read and its write see the same record. */
  function Ticked(c: Config, me: Id, s: ElectorState, t: Time, rec: Option<Record>)
    : (ElectorState, Option<Record>, Change)
  {
    var (s1, intent) := AfterRead(c, me, s, t, rec);
    match intent
    case Stand(change) => (s1, rec, change)
    case Attempt(kind, expected) =>
      var (rec', ok) := Cas(rec, Some(me), expected);
      var (s2, change) := AfterWrite(s1, t, kind, ok);
      (s2, rec', change)
  }

  // ---------------------------------------------------------------------------
  // What a tick comes to
  // ---------------------------------------------------------------------------

  /** Another replica is named by the record, and this one has not watched that version for a
      whole lease. */
  predicate Held(c: Config, me: Id, s: ElectorState, t: Time, rec: Option<Record>) {
    && rec.Some? && rec.value.holder.Some? && rec.value.holder.value != me
    && !(s.observed.Some? && s.observed.value.0 == rec.value.version && t - s.observed.value.1 >= c.leaseDuration)
    && c.leaseDuration > 0
  }

  /** A tick that nobody interleaves with writes its own name, one version on, unless the record
      is held; and a tick that wrote leads from its own start. */
  predicate Leads(c: Config, me: Id, s: ElectorState, t: Time, rec: Option<Record>, s': ElectorState, rec': Option<Record>) {
    if Held(c, me, s, t, rec) then
      rec' == rec && LeaderUntil(c, s').None?
    else
      rec' == Some(Record(Some(me), Version(rec) + 1)) && LeaderUntil(c, s') == Some(t + c.renewDeadline)
  }

  /** What it remembers of another's record: the version, and when it first saw it. */
  predicate Watches(c: Config, me: Id, s: ElectorState, t: Time, rec: Option<Record>, s': ElectorState) {
    if Held(c, me, s, t, rec) then
      s'.observed == Some((rec.value.version, if s.observed.Some? && s.observed.value.0 == rec.value.version then s.observed.value.1 else t))
    else
      s'.observed == if rec.Some? && rec.value.holder == Some(me) then s.observed else None
  }

  /** What it reports, by whether it led before and leads after, and whose record it found. */
  predicate Reports(c: Config, me: Id, s: ElectorState, t: Time, rec: Option<Record>, s': ElectorState, change: Change) {
    if !IsLeader(c, s', t) then change == (if IsLeader(c, s, t) then Lost else NoChange)
    else if rec.Some? && rec.value.holder == Some(me) then change == (if IsLeader(c, s, t) then NoChange else Resumed)
    else change == Acquired(rec.Some? && rec.value.holder.None?)
  }

  lemma TickedIs(c: Config, me: Id, s: ElectorState, t: Time, rec: Option<Record>)
    ensures var (s', rec', change) := Ticked(c, me, s, t, rec);
      && Leads(c, me, s, t, rec, s', rec') && Watches(c, me, s, t, rec, s')
      && (c.renewDeadline > 0 ==> Reports(c, me, s, t, rec, s', change))
  {
  }

  /** Ticks of one replica, with nobody else writing. */
  function TickAll(c: Config, me: Id, s: ElectorState, rec: Option<Record>, ts: seq<Time>): (ElectorState, Option<Record>) {
    if ts == [] then (s, rec)
    else
      var before := TickAll(c, me, s, rec, ts[..|ts| - 1]);
      var (s', rec', _) := Ticked(c, me, before.0, ts[|ts| - 1], before.1);
      (s', rec')
  }

  /** A holder that ticks in time leads without a break. */
  lemma {:induction false} RenewsInTime(c: Config, me: Id, s: ElectorState, rec: Option<Record>, ts: seq<Time>)
    requires Timed(c) && ts != [] && rec.Some? && rec.value.holder == Some(me)
    ensures var (s', rec') := TickAll(c, me, s, rec, ts);
      && rec' == Some(Record(Some(me), rec.value.version + |ts|))
      && forall now :: IsLeader(c, s', now) <==> now < ts[|ts| - 1] + c.renewDeadline
  {
    var n := |ts| - 1;
    if n > 0 {
      RenewsInTime(c, me, s, rec, ts[..n]);
    } else {
      assert ts[..0] == [];
    }
    var before := TickAll(c, me, s, rec, ts[..n]);
    TickedIs(c, me, before.0, ts[n], before.1);
  }

  /** A standby that ticks on takes over from a holder that has stopped: at its first tick a
      lease or more after the one that first saw the record, and at none before. */
  lemma {:induction false} TakesOver(c: Config, me: Id, s: ElectorState, rec: Option<Record>, ts: seq<Time>)
    requires Timed(c) && ts != [] && (forall i, j :: 0 <= i < j < |ts| ==> ts[i] <= ts[j])
    requires rec.Some? && rec.value.holder.Some? && rec.value.holder.value != me && s.observed.None?
    requires forall i :: 0 <= i < |ts| - 1 ==> ts[i] - ts[0] < c.leaseDuration
    ensures var (s', rec') := TickAll(c, me, s, rec, ts);
      if ts[|ts| - 1] - ts[0] < c.leaseDuration
      then rec' == rec && LeaderUntil(c, s').None? && s'.observed == Some((rec.value.version, ts[0]))
      else rec' == Some(Record(Some(me), rec.value.version + 1)) && LeaderUntil(c, s') == Some(ts[|ts| - 1] + c.renewDeadline)
  {
    var n := |ts| - 1;
    if n > 0 {
      TakesOver(c, me, s, rec, ts[..n]);
    } else {
      assert ts[..0] == [];
    }
    var before := TickAll(c, me, s, rec, ts[..n]);
    TickedIs(c, me, before.0, ts[n], before.1);
  }

  // ---------------------------------------------------------------------------
  // The source's objects
  // ---------------------------------------------------------------------------

  class MemoryLease {
    var record: Option<Record>

    constructor ()
      ensures record == None
    {
      record := None;
    }

    method Get() returns (r: Option<Record>)
      ensures r == record
    {
      r := record;
    }

    method Put(holder: Option<Id>, expected: Option<nat>) returns (ok: bool)
      modifies this
      ensures (record, ok) == Cas(old(record), holder, expected)
      ensures ok <==> (if old(record).Some? then expected == Some(old(record).value.version) else expected.None?)
      ensures record == if ok then Some(Record(holder, Version(old(record)) + 1)) else old(record)
    {
      var next: nat;
      match (record, expected) {
        case (None, None) => next := 1;
        case (Some(r), Some(e)) =>
          if r.version != e {
            return false;
          }
          next := r.version + 1;
        case _ => return false;
      }
      record := Some(Record(holder, next));
      ok := true;
    }
  }

  class Elector {
    const backend: MemoryLease
    const config: Config
    const identity: Id
    var observed: Option<(nat, Time)>
    var lastRenew: Option<Time>

    constructor (backend: MemoryLease, config: Config, identity: Id)
      ensures this.backend == backend && this.config == config && this.identity == identity
      ensures State() == ElectorState(None, None)
    {
      this.backend, this.config, this.identity := backend, config, identity;
      observed, lastRenew := None, None;
    }

    function State(): ElectorState
      reads this
    {
      ElectorState(observed, lastRenew)
    }

    method SetAcquired(now: Time)
      modifies this
      ensures State() == ElectorState(None, Some(now))
    {
      lastRenew := Some(now);
      observed := None;
    }

    /** `step`: one read, at most one write, and the branch on the record's holder. */
    method Step(now: Time) returns (change: Change)
      modifies this, backend
      ensures (State(), backend.record, change)
           == Ticked(config, identity, old(State()), now, old(backend.record))
      ensures Leads(config, identity, old(State()), now, old(backend.record), State(), backend.record)
      ensures Watches(config, identity, old(State()), now, old(backend.record), State())
      ensures config.renewDeadline > 0 ==> Reports(config, identity, old(State()), now, old(backend.record), State(), change)
    {
      TickedIs(config, identity, State(), now, backend.record);
      var was := IsLeader(config, State(), now);
      var rec := backend.Get();
      if rec == None {
        var ok := backend.Put(Some(identity), None);
        if ok {
          SetAcquired(now);
          return Acquired(false);
        }
        return NoChange;
      }
      var version := rec.value.version;
      if rec.value.holder == Some(identity) {
        var ok := backend.Put(Some(identity), Some(version));
        if ok {
          lastRenew := Some(now);
          if !was {
            return Resumed;
          }
        }
        return NoChange;
      }
      if rec.value.holder == None {
        var ok := backend.Put(Some(identity), Some(version));
        if ok {
          SetAcquired(now);
          return Acquired(true);
        }
        return NoChange;
      }
      lastRenew := None;
      if !(observed.Some? && observed.value.0 == version) {
        observed := Some((version, now));
      }
      if SaturatingSub(now, observed.value.1) >= config.leaseDuration {
        var ok := backend.Put(Some(identity), Some(version));
        if ok {
          SetAcquired(now);
          return Acquired(false);
        }
      }
      return if was then Lost else NoChange;
    }

    /** `tick`: `step`, and `Lost` whenever leadership at `now` went away. */
    method Tick(now: Time) returns (change: Change)
      requires Timed(config)
      modifies this, backend
      ensures (State(), backend.record, change)
           == Ticked(config, identity, old(State()), now, old(backend.record))
      ensures Leads(config, identity, old(State()), now, old(backend.record), State(), backend.record)
      ensures Watches(config, identity, old(State()), now, old(backend.record), State())
      ensures Reports(config, identity, old(State()), now, old(backend.record), State(), change)
      ensures old(IsLeader(config, State(), now)) && !IsLeader(config, State(), now) ==> change == Lost
    {
      var was := IsLeader(config, State(), now);
      change := Step(now);
      if change == NoChange && was && !IsLeader(config, State(), now) {
        change := Lost;
      }
    }

    /** Stops leading, then clears the holder if the record still names this replica. */
    method Release()
      modifies this, backend
      ensures State() == old(State()).(lastRenew := None)
      ensures backend.record ==
              if old(lastRenew).Some? && old(backend.record).Some? && old(backend.record).value.holder == Some(identity)
              then Some(Record(None, old(backend.record).value.version + 1))
              else old(backend.record)
    {
      if lastRenew == None {
        return;
      }
      lastRenew := None;
      var rec := backend.Get();
      if rec.Some? && rec.value.holder == Some(identity) {
        var _ := backend.Put(None, Some(rec.value.version));
      }
    }
  }

  /** `until == None` always serves; `Some(u)` serves before `u`, if any. */
  class Leadership {
    var until: Option<Option<Time>>

    constructor Always()
      ensures until == None
    {
      until := None;
    }

    constructor Elected()
      ensures until == Some(None)
    {
      until := Some(None);
    }

    method Set(u: Option<Time>)
      modifies this
      ensures until == if old(until).Some? then Some(u) else None
    {
      if until.Some? {
        until := Some(u);
      }
    }

    predicate Serving(now: Time)
      reads this
    {
      until == None || (until.value.Some? && now < until.value.value)
    }
  }

  // ---------------------------------------------------------------------------
  // Any number of replicas, interleaved
  // ---------------------------------------------------------------------------

  /** Where a replica is inside `tick` or `release`. */
  datatype Pc =
    | Idle
    | Reading(t: Time)
    | Writing(t: Time, kind: Kind, expected: Option<nat>)
    | Wrote(t: Time, kind: Kind, ok: bool)
    | Finished
    | ReleaseReading
    | ReleaseWriting(version: nat)

  /** `until` is what the shared `Leadership` serves by: it moves only when a tick ends. */
  datatype Replica = Replica(state: ElectorState, until: Option<Time>, pc: Pc)

  /** A write that was taken: entry `i` made version `i + 1`. `t` stamps its tick. */
  datatype Entry = Entry(writer: Id, holder: Option<Id>, at: Time, t: Time)

  /** `log` is history only: no step reads it. */
  datatype World = World(clock: Time, lease: Option<Record>, replicas: map<Id, Replica>, log: seq<Entry>)

  function Init(ids: set<Id>): World {
    World(0, None, map x | x in ids :: Replica(ElectorState(None, None), None, Idle), [])
  }

  datatype Step =
    | Advance(d: Time)
    | StartTick(x: Id, t: Time)
    | Read(x: Id)
    | Put(x: Id)
    | Return(x: Id)
    | Fail(x: Id)          // the backend refuses a read or a write: nothing was written
    | EndTick(x: Id)
    | StartRelease(x: Id)
    | ReleaseRead(x: Id)
    | ReleasePut(x: Id)

  /** When a step can happen. A tick's `now` is taken before the call, and its read takes
      effect at most `delta` after it; nothing bounds how late a write lands or returns. */
  predicate Enabled(delta: Time, w: World, s: Step) {
    match s
    case Advance(d) => d >= 0
    case StartTick(x, t) => x in w.replicas && w.replicas[x].pc.Idle? && t <= w.clock
    case Read(x) => x in w.replicas && w.replicas[x].pc.Reading? && w.clock - w.replicas[x].pc.t <= delta
    case Put(x) => x in w.replicas && w.replicas[x].pc.Writing?
    case Return(x) => x in w.replicas && w.replicas[x].pc.Wrote?
    case Fail(x) => x in w.replicas && var pc := w.replicas[x].pc;
      pc.Reading? || pc.Writing? || pc.ReleaseReading? || pc.ReleaseWriting?
    case EndTick(x) => x in w.replicas && w.replicas[x].pc.Finished?
    case StartRelease(x) => x in w.replicas && w.replicas[x].pc.Idle?
    case ReleaseRead(x) => x in w.replicas && w.replicas[x].pc.ReleaseReading?
    case ReleasePut(x) => x in w.replicas && w.replicas[x].pc.ReleaseWriting?
  }

  function WithReplica(w: World, x: Id, r: Replica): World {
    w.(replicas := w.replicas[x := r])
  }

  /** The compare-and-swap itself, at the moment it takes effect. */
  function Written(w: World, x: Id, holder: Option<Id>, expected: Option<nat>, t: Time, r: Replica): World {
    var (lease, ok) := Cas(w.lease, holder, expected);
    World(w.clock, lease, w.replicas[x := r], if ok then w.log + [Entry(x, holder, w.clock, t)] else w.log)
  }

  function Apply(c: Config, delta: Time, w: World, s: Step): World
    requires Enabled(delta, w, s)
  {
    match s
    case Advance(d) => w.(clock := w.clock + d)
    case StartTick(x, t) => WithReplica(w, x, w.replicas[x].(pc := Reading(t)))
    case Read(x) =>
      var r := w.replicas[x];
      var (s1, intent) := AfterRead(c, x, r.state, r.pc.t, w.lease);
      var pc := if intent.Stand? then Finished else Writing(r.pc.t, intent.kind, intent.expected);
      WithReplica(w, x, Replica(s1, r.until, pc))
    case Put(x) =>
      var r := w.replicas[x];
      var ok := Cas(w.lease, Some(x), r.pc.expected).1;
      Written(w, x, Some(x), r.pc.expected, r.pc.t, r.(pc := Wrote(r.pc.t, r.pc.kind, ok)))
    case Return(x) =>
      var r := w.replicas[x];
      WithReplica(w, x, Replica(AfterWrite(r.state, r.pc.t, r.pc.kind, r.pc.ok).0, r.until, Finished))
    case Fail(x) =>
      var r := w.replicas[x];
      WithReplica(w, x, r.(pc := if r.pc.Reading? || r.pc.Writing? then Finished else Idle))
    case EndTick(x) =>
      var r := w.replicas[x];
      WithReplica(w, x, Replica(r.state, LeaderUntil(c, r.state), Idle))
    case StartRelease(x) =>
      var r := w.replicas[x];
      WithReplica(w, x, Replica(r.state.(lastRenew := None), None, if r.state.lastRenew.Some? then ReleaseReading else Idle))
    case ReleaseRead(x) =>
      var r := w.replicas[x];
      WithReplica(w, x, r.(pc := if w.lease.Some? && w.lease.value.holder == Some(x) then ReleaseWriting(w.lease.value.version) else Idle))
    case ReleasePut(x) =>
      var r := w.replicas[x];
      Written(w, x, None, Some(r.pc.version), w.clock, r.(pc := Idle))
  }

  predicate Legal(c: Config, delta: Time, w: World, steps: seq<Step>)
    decreases |steps|
  {
    steps == [] || (Enabled(delta, w, steps[0]) && Legal(c, delta, Apply(c, delta, w, steps[0]), steps[1..]))
  }

  function Run(c: Config, delta: Time, w: World, steps: seq<Step>): World
    requires Legal(c, delta, w, steps)
    decreases |steps|
  {
    if steps == [] then w else Run(c, delta, Apply(c, delta, w, steps[0]), steps[1..])
  }

  /** Acts as leader: by its elector, or by the `Leadership` its API consults. */
  predicate Acts(c: Config, w: World, x: Id) {
    x in w.replicas &&
    (IsLeader(c, w.replicas[x].state, w.clock) || (w.replicas[x].until.Some? && w.clock < w.replicas[x].until.value))
  }

  ghost predicate Exclusive(c: Config, w: World) {
    forall x, y :: Acts(c, w, x) && Acts(c, w, y) ==> x == y
  }

  // ---------------------------------------------------------------------------
  // The invariant
  // ---------------------------------------------------------------------------

  /** `r` leads, serves, or will lead once its write returns, by a renewal stamped `t`. */
  predicate Claims(c: Config, r: Replica, t: Time) {
    r.state.lastRenew == Some(t) || r.until == Some(t + c.renewDeadline) || (r.pc.Wrote? && r.pc.ok && r.pc.t == t)
  }

  predicate LeaseIsLog(w: World) {
    && (w.lease.None? <==> w.log == [])
    && (w.lease.Some? ==> w.lease.value.version == |w.log| && w.lease.value.holder == w.log[|w.log| - 1].holder)
  }

  /** Only a replica writes its own name, and only the named replica clears it. */
  predicate EntrySane(log: seq<Entry>, clock: Time, i: nat)
    requires i < |log|
  {
    && log[i].t <= log[i].at <= clock
    && (log[i].holder == Some(log[i].writer) ||
        (log[i].holder == None && i > 0 && log[i - 1].holder == Some(log[i].writer)))
  }

  predicate LogSane(w: World) {
    forall i :: 0 <= i < |w.log| ==> EntrySane(w.log, w.clock, i)
  }

  /** A claim is no newer than the last write, and unless the record still names its
      replica it has run out. */
  predicate ClaimOk(c: Config, w: World, x: Id, t: Time) {
    |w.log| > 0 && var last := w.log[|w.log| - 1];
    t <= last.at && (t + c.renewDeadline <= w.clock || last.holder == Some(x))
  }

  predicate KindOk(c: Config, delta: Time, w: World, x: Id, t: Time, kind: Kind, expected: Option<nat>) {
    if kind.Create? then expected == None
    else
      expected.Some? && 1 <= expected.value <= |w.log| && var e := w.log[expected.value - 1];
      match kind
      case Renew(_) => e.holder == Some(x)
      case TakeReleased => e.holder == None
      case TakeWatched(_) => e.holder.Some? && e.holder != Some(x) && e.at + c.leaseDuration <= t + delta
      case Create => true
  }

  /** First saw version `expected` a full `leaseDuration` before `t`. */
  predicate Watched(c: Config, s: ElectorState, t: Time, expected: Option<nat>) {
    s.observed.Some? && expected == Some(s.observed.value.0) && SaturatingSub(t, s.observed.value.1) >= c.leaseDuration
  }

  ghost predicate ReplicaOk(c: Config, delta: Time, w: World, x: Id, r: Replica) {
    && (forall t :: Claims(c, r, t) ==> ClaimOk(c, w, x, t))
    && (r.state.observed.Some? ==>
          1 <= r.state.observed.value.0 <= |w.log| &&
          w.log[r.state.observed.value.0 - 1].at <= r.state.observed.value.1 + delta)
    && match r.pc
       case Reading(t) => t <= w.clock
       case Writing(t, kind, expected) =>
         && t <= w.clock && KindOk(c, delta, w, x, t, kind, expected)
         && (kind.TakeWatched? ==> Watched(c, r.state, t, expected))
       case ReleaseReading => r.state.lastRenew == None && r.until == None
       case ReleaseWriting(v) =>
         r.state.lastRenew == None && r.until == None && 1 <= v <= |w.log| && w.log[v - 1].holder == Some(x)
       case _ => true
  }

  ghost predicate Inv(c: Config, delta: Time, w: World) {
    && LeaseIsLog(w)
    && LogSane(w)
    && forall x :: x in w.replicas ==> ReplicaOk(c, delta, w, x, w.replicas[x])
  }

  /** No claim of a replica other than `x` outlives the clock. */
  ghost predicate OthersDone(c: Config, w: World, x: Id) {
    forall y, t :: y in w.replicas && y != x && Claims(c, w.replicas[y], t) ==> t + c.renewDeadline <= w.clock
  }

  lemma InitInv(c: Config, delta: Time, ids: set<Id>)
    ensures Inv(c, delta, Init(ids))
  {
  }

  lemma InvExclusive(c: Config, delta: Time, w: World)
    requires Inv(c, delta, w)
    ensures Exclusive(c, w)
  {
    forall x, y | Acts(c, w, x) && Acts(c, w, y)
      ensures x == y
    {
      var tx := ActingClaim(c, w, x);
      var ty := ActingClaim(c, w, y);
      assert ClaimOk(c, w, x, tx) && ClaimOk(c, w, y, ty);
    }
  }

  lemma ActingClaim(c: Config, w: World, x: Id) returns (t: Time)
    requires Acts(c, w, x)
    ensures Claims(c, w.replicas[x], t) && w.clock < t + c.renewDeadline
  {
    var r := w.replicas[x];
    t := if IsLeader(c, r.state, w.clock) then r.state.lastRenew.value else r.until.value - c.renewDeadline;
  }

  /** A write leaves every other replica's obligations intact once their claims are done. */
  lemma AppendKeepsOthers(c: Config, delta: Time, w: World, w': World, x: Id)
    requires Inv(c, delta, w) && OthersDone(c, w, x)
    requires w'.clock == w.clock && w.log < w'.log && |w'.log| == |w.log| + 1
    requires w'.log[|w.log|].at == w.clock
    requires w'.replicas.Keys == w.replicas.Keys
    requires forall y :: y in w.replicas && y != x ==> w'.replicas[y] == w.replicas[y]
    ensures forall y :: y in w'.replicas && y != x ==> ReplicaOk(c, delta, w', y, w'.replicas[y])
  {
    forall y | y in w'.replicas && y != x
      ensures ReplicaOk(c, delta, w', y, w'.replicas[y])
    {
      var r := w.replicas[y];
      assert ReplicaOk(c, delta, w, y, r);
      forall t | Claims(c, r, t)
        ensures ClaimOk(c, w', y, t)
      {
        assert ClaimOk(c, w, y, t) && EntrySane(w.log, w.clock, |w.log| - 1);
      }
    }
  }

  lemma AppendKeepsSane(w: World, w': World)
    requires LogSane(w) && w'.clock == w.clock && w.log < w'.log && |w'.log| == |w.log| + 1
    requires EntrySane(w'.log, w.clock, |w.log|)
    ensures LogSane(w')
  {
    forall i | 0 <= i < |w'.log|
      ensures EntrySane(w'.log, w'.clock, i)
    {
      if i < |w.log| {
        assert EntrySane(w.log, w.clock, i);
      }
    }
  }

  /** A write that is taken finds every other claim over: the heart of exclusion. */
  lemma TakenMeansOthersDone(c: Config, delta: Time, w: World, x: Id)
    requires Inv(c, delta, w) && x in w.replicas && w.replicas[x].pc.Writing?
    requires delta <= c.leaseDuration - c.renewDeadline
    requires Cas(w.lease, Some(x), w.replicas[x].pc.expected).1
    ensures OthersDone(c, w, x)
  {
    var pc := w.replicas[x].pc;
    assert ReplicaOk(c, delta, w, x, w.replicas[x]);
    forall y, t | y in w.replicas && y != x && Claims(c, w.replicas[y], t)
      ensures t + c.renewDeadline <= w.clock
    {
      assert ReplicaOk(c, delta, w, y, w.replicas[y]);
      assert ClaimOk(c, w, y, t);
    }
  }

  lemma PutKeepsInv(c: Config, delta: Time, w: World, x: Id)
    requires Inv(c, delta, w) && Enabled(delta, w, Put(x))
    requires delta <= c.leaseDuration - c.renewDeadline
    ensures Inv(c, delta, Apply(c, delta, w, Put(x)))
  {
    var w' := Apply(c, delta, w, Put(x));
    var r := w.replicas[x];
    assert ReplicaOk(c, delta, w, x, r);
    if Cas(w.lease, Some(x), r.pc.expected).1 {
      TakenMeansOthersDone(c, delta, w, x);
      AppendKeepsOthers(c, delta, w, w', x);
      AppendKeepsSane(w, w');
      forall t | Claims(c, w'.replicas[x], t)
        ensures ClaimOk(c, w', x, t)
      {
        if Claims(c, r, t) {
          assert ClaimOk(c, w, x, t) && EntrySane(w.log, w.clock, |w.log| - 1);
        }
      }
      assert ReplicaOk(c, delta, w', x, w'.replicas[x]);
    } else {
      SameLogKeepsInv(c, delta, w, w', x);
    }
  }

  lemma ReleasePutKeepsInv(c: Config, delta: Time, w: World, x: Id)
    requires Inv(c, delta, w) && Enabled(delta, w, ReleasePut(x))
    ensures Inv(c, delta, Apply(c, delta, w, ReleasePut(x)))
  {
    var w' := Apply(c, delta, w, ReleasePut(x));
    var r := w.replicas[x];
    assert ReplicaOk(c, delta, w, x, r);
    if Cas(w.lease, None, Some(r.pc.version)).1 {
      forall y, t | y in w.replicas && y != x && Claims(c, w.replicas[y], t)
        ensures t + c.renewDeadline <= w.clock
      {
        assert ReplicaOk(c, delta, w, y, w.replicas[y]);
        assert ClaimOk(c, w, y, t);
      }
      AppendKeepsOthers(c, delta, w, w', x);
      AppendKeepsSane(w, w');
      assert ReplicaOk(c, delta, w', x, w'.replicas[x]);
    } else {
      SameLogKeepsInv(c, delta, w, w', x);
    }
  }

  /** A step that changes one replica and neither the record nor the clock. */
  lemma SameLogKeepsInv(c: Config, delta: Time, w: World, w': World, x: Id)
    requires Inv(c, delta, w)
    requires w'.clock == w.clock && w'.lease == w.lease && w'.log == w.log
    requires w'.replicas.Keys == w.replicas.Keys
    requires forall y :: y in w.replicas && y != x ==> w'.replicas[y] == w.replicas[y]
    requires x in w.replicas
    requires forall t :: Claims(c, w'.replicas[x], t) ==> Claims(c, w.replicas[x], t)
    requires w'.replicas[x].state.observed == w.replicas[x].state.observed || w'.replicas[x].state.observed == None
    requires w'.replicas[x].pc.Idle? || w'.replicas[x].pc.Finished? || w'.replicas[x].pc.Wrote?
    ensures Inv(c, delta, w')
  {
    forall y | y in w'.replicas
      ensures ReplicaOk(c, delta, w', y, w'.replicas[y])
    {
      assert ReplicaOk(c, delta, w, y, w.replicas[y]);
    }
  }

  lemma AdvanceKeepsInv(c: Config, delta: Time, w: World, d: Time)
    requires Inv(c, delta, w) && d >= 0
    ensures Inv(c, delta, w.(clock := w.clock + d))
  {
    var w' := w.(clock := w.clock + d);
    assert forall i :: 0 <= i < |w.log| && EntrySane(w.log, w.clock, i) ==> EntrySane(w'.log, w'.clock, i);
    forall y | y in w'.replicas
      ensures ReplicaOk(c, delta, w', y, w'.replicas[y])
    {
      var r := w.replicas[y];
      assert ReplicaOk(c, delta, w, y, r);
      forall t | Claims(c, r, t)
        ensures ClaimOk(c, w', y, t)
      {
        assert ClaimOk(c, w, y, t);
      }
    }
  }

  /** The replica that reads keeps its promises. */
  lemma ReadKeepsReader(c: Config, delta: Time, w: World, x: Id)
    requires Inv(c, delta, w) && Enabled(delta, w, Read(x))
    ensures var w' := Apply(c, delta, w, Read(x)); ReplicaOk(c, delta, w', x, w'.replicas[x])
  {
    var w' := Apply(c, delta, w, Read(x));
    var r := w.replicas[x];
    assert w.log != [] ==> EntrySane(w.log, w.clock, |w.log| - 1);
    assert ReplicaOk(c, delta, w, x, r);
    forall t | Claims(c, w'.replicas[x], t)
      ensures ClaimOk(c, w', x, t)
    {
      assert Claims(c, r, t);
      assert ClaimOk(c, w, x, t);
    }
  }

  /** A replica's promises do not depend on the other replicas. */
  lemma SameRecordKeepsReplica(c: Config, delta: Time, w: World, w': World, y: Id, r: Replica)
    requires ReplicaOk(c, delta, w, y, r) && w'.clock == w.clock && w'.log == w.log
    ensures ReplicaOk(c, delta, w', y, r)
  {
    forall t | Claims(c, r, t)
      ensures ClaimOk(c, w', y, t)
    {
      assert ClaimOk(c, w, y, t);
    }
  }

  lemma ReadKeepsInv(c: Config, delta: Time, w: World, x: Id)
    requires Inv(c, delta, w) && Enabled(delta, w, Read(x))
    ensures Inv(c, delta, Apply(c, delta, w, Read(x)))
  {
    hide ReplicaOk, AfterRead;
    var w' := Apply(c, delta, w, Read(x));
    ReadKeepsReader(c, delta, w, x);
    forall y | y in w'.replicas
      ensures ReplicaOk(c, delta, w', y, w'.replicas[y])
    {
      if y != x {
        SameRecordKeepsReplica(c, delta, w, w', y, w.replicas[y]);
      }
    }
  }

  lemma StepKeepsInv(c: Config, delta: Time, w: World, s: Step)
    requires Inv(c, delta, w) && Enabled(delta, w, s)
    requires delta <= c.leaseDuration - c.renewDeadline
    ensures Inv(c, delta, Apply(c, delta, w, s))
  {
    var w' := Apply(c, delta, w, s);
    match s
    case Advance(d) => AdvanceKeepsInv(c, delta, w, d);
    case Read(x) => ReadKeepsInv(c, delta, w, x);
    case Put(x) => PutKeepsInv(c, delta, w, x);
    case ReleasePut(x) => ReleasePutKeepsInv(c, delta, w, x);
    case Return(x) => SameLogKeepsInv(c, delta, w, w', x);
    case Fail(x) => SameLogKeepsInv(c, delta, w, w', x);
    case EndTick(x) => SameLogKeepsInv(c, delta, w, w', x);
    case StartTick(x, t) => LocalKeepsInv(c, delta, w, w', x);
    case StartRelease(x) => LocalKeepsInv(c, delta, w, w', x);
    case ReleaseRead(x) => LocalKeepsInv(c, delta, w, w', x);
  }

  /** Like `SameLogKeepsInv`, for the steps whose new program counter carries a promise. */
  lemma LocalKeepsInv(c: Config, delta: Time, w: World, w': World, x: Id)
    requires Inv(c, delta, w)
    requires w'.clock == w.clock && w'.lease == w.lease && w'.log == w.log
    requires x in w.replicas && w'.replicas.Keys == w.replicas.Keys
    requires forall y :: y in w.replicas && y != x ==> w'.replicas[y] == w.replicas[y]
    requires forall t :: Claims(c, w'.replicas[x], t) ==> Claims(c, w.replicas[x], t)
    requires w'.replicas[x].state.observed == w.replicas[x].state.observed
    requires match w'.replicas[x].pc
             case Idle => true
             case Reading(t) => t <= w.clock
             case ReleaseReading => w'.replicas[x].state.lastRenew == None && w'.replicas[x].until == None
             case ReleaseWriting(v) =>
               && w.replicas[x].pc.ReleaseReading? && w'.replicas[x].state == w.replicas[x].state
               && w'.replicas[x].until == w.replicas[x].until
               && w.lease.Some? && w.lease.value == Record(Some(x), v)
             case _ => false
    ensures Inv(c, delta, w')
  {
    forall y | y in w'.replicas
      ensures ReplicaOk(c, delta, w', y, w'.replicas[y])
    {
      assert ReplicaOk(c, delta, w, y, w.replicas[y]);
    }
  }

  // ---------------------------------------------------------------------------
  // Whole runs
  // ---------------------------------------------------------------------------

  lemma {:induction false} RunKeepsInv(c: Config, delta: Time, w: World, steps: seq<Step>)
    requires Inv(c, delta, w) && Legal(c, delta, w, steps)
    requires delta <= c.leaseDuration - c.renewDeadline
    ensures Inv(c, delta, Run(c, delta, w, steps))
    decreases |steps|
  {
    if steps != [] {
      StepKeepsInv(c, delta, w, steps[0]);
      RunKeepsInv(c, delta, Apply(c, delta, w, steps[0]), steps[1..]);
    }
  }

  /** Every state some run from the start ends in. */
  ghost predicate Reachable(c: Config, delta: Time, ids: set<Id>, w: World) {
    exists steps :: Legal(c, delta, Init(ids), steps) && Run(c, delta, Init(ids), steps) == w
  }

  lemma ReachableInv(c: Config, delta: Time, ids: set<Id>, w: World)
    requires Reachable(c, delta, ids, w)
    requires delta <= c.leaseDuration - c.renewDeadline
    ensures Inv(c, delta, w)
  {
    var steps :| Legal(c, delta, Init(ids), steps) && Run(c, delta, Init(ids), steps) == w;
    InitInv(c, delta, ids);
    RunKeepsInv(c, delta, Init(ids), steps);
  }

  /** A renewal stamped `t` or later holds, and so will any tick under way. */
  predicate Holds(r: Replica, t: Time) {
    && r.state.lastRenew.Some? && r.state.lastRenew.value >= t
    && match r.pc
       case Reading(u) => u >= t
       case Writing(u, _, _) => u >= t
       case Wrote(u, _, _) => u >= t
       case _ => true
  }

  /** `x` gives up what it has: it reads another's name, or releases. Its ticks are not stamped
      before `t`. */
  predicate StaysOn(w: World, s: Step, x: Id, t: Time) {
    && (s == Read(x) ==> w.lease.Some? ==> w.lease.value.holder.None? || w.lease.value.holder.value == x)
    && s != StartRelease(x) && (s.StartTick? && s.x == x ==> s.t >= t)
  }

  predicate AllStayOn(c: Config, delta: Time, w: World, steps: seq<Step>, x: Id, t: Time)
    requires Legal(c, delta, w, steps)
    decreases |steps|
  {
    steps != [] ==> StaysOn(w, steps[0], x, t) && AllStayOn(c, delta, Apply(c, delta, w, steps[0]), steps[1..], x, t)
  }

  /** A write that was taken, once it returns, is a renewal from its tick's start. */
  lemma ReturnHolds(c: Config, delta: Time, w: World, x: Id)
    requires Enabled(delta, w, Return(x)) && w.replicas[x].pc.ok
    ensures var w' := Apply(c, delta, w, Return(x));
      Holds(w'.replicas[x], w.replicas[x].pc.t) && LeaderUntil(c, w'.replicas[x].state) == Some(w.replicas[x].pc.t + c.renewDeadline)
  {
  }

  lemma StepHolds(c: Config, delta: Time, w: World, s: Step, x: Id, t: Time)
    requires Enabled(delta, w, s) && x in w.replicas && Holds(w.replicas[x], t) && StaysOn(w, s, x, t)
    ensures var w' := Apply(c, delta, w, s); x in w'.replicas && Holds(w'.replicas[x], t)
  {
  }

  lemma {:induction false} RunHolds(c: Config, delta: Time, w: World, steps: seq<Step>, x: Id, t: Time)
    requires Legal(c, delta, w, steps) && x in w.replicas && Holds(w.replicas[x], t) && AllStayOn(c, delta, w, steps, x, t)
    ensures var w' := Run(c, delta, w, steps); x in w'.replicas && Holds(w'.replicas[x], t)
    decreases |steps|
  {
    if steps != [] {
      StepHolds(c, delta, w, steps[0], x, t);
      hide Holds, StaysOn;
      RunHolds(c, delta, Apply(c, delta, w, steps[0]), steps[1..], x, t);
    }
  }

  /** Once a write stamped `t` has returned, its replica leads until `t + renewDeadline`, whatever
      anyone else does, unless it reads another's name or releases. */
  lemma LeadsUntilTheDeadline(c: Config, delta: Time, w: World, x: Id, steps: seq<Step>)
    requires Enabled(delta, w, Return(x)) && w.replicas[x].pc.ok
    requires var w' := Apply(c, delta, w, Return(x)); Legal(c, delta, w', steps) && AllStayOn(c, delta, w', steps, x, w.replicas[x].pc.t)
    ensures var w' := Run(c, delta, Apply(c, delta, w, Return(x)), steps);
      w'.clock < w.replicas[x].pc.t + c.renewDeadline ==> Acts(c, w', x)
  {
    ReturnHolds(c, delta, w, x);
    RunHolds(c, delta, Apply(c, delta, w, Return(x)), steps, x, w.replicas[x].pc.t);
  }

  /** Two replicas never lead at once, in any run, exactly when reads take effect within
      `leaseDuration - renewDeadline` of their tick's `now`. */
  lemma ExclusionIffReadsAreTimely(c: Config, delta: Time, ids: set<Id>, a: Id, b: Id)
    requires Timed(c) && a in ids && b in ids && a != b
    ensures (forall w :: Reachable(c, delta, ids, w) ==> Exclusive(c, w))
            <==> delta <= c.leaseDuration - c.renewDeadline
  {
    if delta <= c.leaseDuration - c.renewDeadline {
      forall w | Reachable(c, delta, ids, w)
        ensures Exclusive(c, w)
      {
        ReachableInv(c, delta, ids, w);
        InvExclusive(c, delta, w);
      }
    } else {
      var w := LateReadBreaksExclusion(c, delta, ids, a, b);
    }
  }

  /** A chain of applied steps. */
  ghost predicate IsPath(c: Config, delta: Time, path: seq<World>, steps: seq<Step>) {
    && |path| == |steps| + 1
    && forall i :: 0 <= i < |steps| ==>
         Enabled(delta, path[i], steps[i]) && path[i + 1] == Apply(c, delta, path[i], steps[i])
  }

  lemma {:induction false} PathIsRun(c: Config, delta: Time, path: seq<World>, steps: seq<Step>)
    requires IsPath(c, delta, path, steps)
    ensures Legal(c, delta, path[0], steps)
    ensures Run(c, delta, path[0], steps) == path[|steps|]
    decreases |steps|
  {
    if steps != [] {
      var rest := path[1..];
      forall i | 0 <= i < |steps[1..]|
        ensures Enabled(delta, rest[i], steps[1..][i]) && rest[i + 1] == Apply(c, delta, rest[i], steps[1..][i])
      {
        assert steps[1..][i] == steps[i + 1] && rest[i] == path[i + 1];
      }
      PathIsRun(c, delta, rest, steps[1..]);
    }
  }

  /** `b` starts a tick, and `a` creates the record while that tick's read is late. */
  lemma LateRead(c: Config, delta: Time, ids: set<Id>, a: Id, b: Id, late: Time) returns (path: seq<World>, steps: seq<Step>)
    requires a in ids && b in ids && a != b && 0 < late <= delta && 0 < c.leaseDuration
    ensures IsPath(c, delta, path, steps) && |steps| == 6 && path[0] == Init(ids)
    ensures var w := path[6];
      && w.clock == late && w.lease == Some(Record(Some(a), 1)) && a in w.replicas && b in w.replicas
      && w.replicas[a] == Replica(ElectorState(None, Some(late)), None, Finished)
      && w.replicas[b] == Replica(ElectorState(None, None), None, Reading(0))
  {
    steps := [StartTick(b, 0), Advance(late), StartTick(a, late), Read(a), Put(a), Return(a)];
    var blank := ElectorState(None, None);
    var w1 := Apply(c, delta, Init(ids), StartTick(b, 0));
    var w2 := Apply(c, delta, w1, Advance(late));
    var w3 := Apply(c, delta, w2, StartTick(a, late));
    assert w3.replicas[a] == Replica(blank, None, Reading(late)) && w3.replicas[b] == Replica(blank, None, Reading(0));
    var w4 := Apply(c, delta, w3, Read(a));
    assert w4.replicas[a] == Replica(blank, None, Writing(late, Create, None)) && w4.replicas[b] == w3.replicas[b];
    var w5 := Apply(c, delta, w4, Put(a));
    assert w5.replicas[a] == Replica(blank, None, Wrote(late, Create, true)) && w5.replicas[b] == w3.replicas[b];
    var w6 := Apply(c, delta, w5, Return(a));
    path := [Init(ids), w1, w2, w3, w4, w5, w6];
  }

  /** `b` then dates what it sees from before `a` wrote it, */
  lemma EarlyWatch(c: Config, delta: Time, w: World, b: Id) returns (w1: World, w2: World, w3: World)
    requires Timed(c) && b in w.replicas && delta >= w.clock && 0 <= w.clock <= c.leaseDuration
    requires w.lease.Some? && w.lease.value.version == 1 && w.lease.value.holder.Some? && w.lease.value.holder.value != b
    requires w.replicas[b] == Replica(ElectorState(None, None), None, Reading(0))
    ensures Enabled(delta, w, Read(b)) && w1 == Apply(c, delta, w, Read(b))
    ensures Enabled(delta, w1, EndTick(b)) && w2 == Apply(c, delta, w1, EndTick(b))
    ensures Enabled(delta, w2, Advance(c.leaseDuration - w.clock)) && w3 == Apply(c, delta, w2, Advance(c.leaseDuration - w.clock))
    ensures w3 == w.(clock := c.leaseDuration, replicas := w.replicas[b := Replica(ElectorState(Some((1, 0)), None), None, Idle)])
  {
    w1 := Apply(c, delta, w, Read(b));
    w2 := Apply(c, delta, w1, EndTick(b));
    assert w2.replicas[b] == Replica(ElectorState(Some((1, 0)), None), None, Idle);
    w3 := Apply(c, delta, w2, Advance(c.leaseDuration - w.clock));
  }

  /** and takes over while `a` still leads. */
  lemma EarlyWrite(c: Config, delta: Time, w: World, a: Id, b: Id) returns (w1: World, w2: World, w3: World, w4: World)
    requires Timed(c) && a != b && a in w.replicas && b in w.replicas && delta >= 0
    requires w.clock == c.leaseDuration && w.lease == Some(Record(Some(a), 1))
    requires w.replicas[a] == Replica(ElectorState(None, Some(c.leaseDuration - c.renewDeadline + 1)), None, Finished)
    requires w.replicas[b] == Replica(ElectorState(Some((1, 0)), None), None, Idle)
    ensures Enabled(delta, w, StartTick(b, c.leaseDuration)) && w1 == Apply(c, delta, w, StartTick(b, c.leaseDuration))
    ensures Enabled(delta, w1, Read(b)) && w2 == Apply(c, delta, w1, Read(b))
    ensures Enabled(delta, w2, Put(b)) && w3 == Apply(c, delta, w2, Put(b))
    ensures Enabled(delta, w3, Return(b)) && w4 == Apply(c, delta, w3, Return(b))
    ensures Acts(c, w4, a) && Acts(c, w4, b)
  {
    w1 := Apply(c, delta, w, StartTick(b, c.leaseDuration));
    w2 := Apply(c, delta, w1, Read(b));
    assert w2.replicas[b].pc == Writing(c.leaseDuration, TakeWatched(false), Some(1));
    w3 := Apply(c, delta, w2, Put(b));
    assert w3.replicas[b].pc == Wrote(c.leaseDuration, TakeWatched(false), true) && w3.replicas[a] == w.replicas[a];
    w4 := Apply(c, delta, w3, Return(b));
  }

  lemma EarlyTakeover(c: Config, delta: Time, w: World, a: Id, b: Id) returns (path: seq<World>, steps: seq<Step>)
    requires Timed(c) && a != b && a in w.replicas && b in w.replicas && delta >= w.clock
    requires w.clock == c.leaseDuration - c.renewDeadline + 1 && w.lease == Some(Record(Some(a), 1))
    requires w.replicas[a] == Replica(ElectorState(None, Some(w.clock)), None, Finished)
    requires w.replicas[b] == Replica(ElectorState(None, None), None, Reading(0))
    ensures IsPath(c, delta, path, steps) && |steps| == 7 && path[0] == w
    ensures Acts(c, path[7], a) && Acts(c, path[7], b)
  {
    hide Apply, Enabled, Acts;
    var w1, w2, w3 := EarlyWatch(c, delta, w, b);
    var w4, w5, w6, w7 := EarlyWrite(c, delta, w3, a, b);
    path := [w, w1, w2, w3, w4, w5, w6, w7];
    steps := [Read(b), EndTick(b), Advance(c.leaseDuration - w.clock), StartTick(b, c.leaseDuration), Read(b), Put(b), Return(b)];
  }

  /** Past the bound, two replicas can lead at once. */
  lemma LateReadBreaksExclusion(c: Config, delta: Time, ids: set<Id>, a: Id, b: Id) returns (w: World)
    requires Timed(c) && a in ids && b in ids && a != b
    requires delta > c.leaseDuration - c.renewDeadline
    ensures Reachable(c, delta, ids, w) && Acts(c, w, a) && Acts(c, w, b)
  {
    var p, s := LateRead(c, delta, ids, a, b, c.leaseDuration - c.renewDeadline + 1);
    var q, u := EarlyTakeover(c, delta, p[6], a, b);
    var path, steps := p + q[1..], s + u;
    forall i | 0 <= i < |steps|
      ensures Enabled(delta, path[i], steps[i]) && path[i + 1] == Apply(c, delta, path[i], steps[i])
    {
      if i >= 6 {
        assert path[i] == q[i - 6] && steps[i] == u[i - 6] && path[i + 1] == q[i - 5];
      } else {
        assert path[i] == p[i] && steps[i] == s[i] && path[i + 1] == p[i + 1];
      }
    }
    PathIsRun(c, delta, path, steps);
    w := path[13];
  }

  /** A takeover from a dead leader: every claim anyone still has ran out at least
      `leaseDuration - renewDeadline - delta` before the new leader's tick began. */
  lemma TakeoverLeavesGap(c: Config, delta: Time, ids: set<Id>, w: World, x: Id, y: Id, t: Time)
    requires Reachable(c, delta, ids, w) && delta <= c.leaseDuration - c.renewDeadline
    requires Enabled(delta, w, Put(x)) && w.replicas[x].pc.kind.TakeWatched?
    requires Cas(w.lease, Some(x), w.replicas[x].pc.expected).1
    requires y in w.replicas && Claims(c, w.replicas[y], t)
    ensures t + c.renewDeadline + (c.leaseDuration - c.renewDeadline - delta) <= w.replicas[x].pc.t <= w.clock
  {
    ReachableInv(c, delta, ids, w);
    assert ReplicaOk(c, delta, w, x, w.replicas[x]) && ReplicaOk(c, delta, w, y, w.replicas[y]);
    assert ClaimOk(c, w, y, t);
  }

  /** With a validated configuration the gap covers `minGap`, less what a read can be late. */
  lemma ValidatedGap(c: Config, identity: Id, minGap: Time)
    requires Validate(c, identity, minGap).Ok? && minGap >= 0
    ensures Timed(c)
    ensures forall delta: Time, ids: set<Id>, w: World, x: Id, y: Id, t: Time ::
      delta <= c.leaseDuration - c.renewDeadline && Reachable(c, delta, ids, w) && Enabled(delta, w, Put(x)) && w.replicas[x].pc.kind.TakeWatched? &&
      Cas(w.lease, Some(x), w.replicas[x].pc.expected).1 && y in w.replicas && Claims(c, w.replicas[y], t)
      ==> t + c.renewDeadline + minGap - delta <= w.replicas[x].pc.t
  {
    forall delta: Time, ids: set<Id>, w: World, x: Id, y: Id, t: Time |
      delta <= c.leaseDuration - c.renewDeadline && Reachable(c, delta, ids, w) && Enabled(delta, w, Put(x)) && w.replicas[x].pc.kind.TakeWatched? &&
      Cas(w.lease, Some(x), w.replicas[x].pc.expected).1 && y in w.replicas && Claims(c, w.replicas[y], t)
      ensures t + c.renewDeadline + minGap - delta <= w.replicas[x].pc.t
    {
      TakeoverLeavesGap(c, delta, ids, w, x, y, t);
    }
  }

  // ---------------------------------------------------------------------------
  // What each reported change means
  // ---------------------------------------------------------------------------

  /** The change a taken write of this kind reports once it returns. */
  function Reported(kind: Kind): Change {
    AfterWrite(ElectorState(None, None), 0, kind, true).1
  }

  /** `Resumed`: the record's previous write was this replica's own, so nobody acquired in
      between. */
  lemma ResumedMeansNobodyActed(c: Config, delta: Time, ids: set<Id>, w: World, x: Id)
    requires Reachable(c, delta, ids, w) && delta <= c.leaseDuration - c.renewDeadline
    requires Enabled(delta, w, Put(x)) && Cas(w.lease, Some(x), w.replicas[x].pc.expected).1
    requires Reported(w.replicas[x].pc.kind) == Resumed
    ensures |w.log| > 0 && w.log[|w.log| - 1].writer == x && w.log[|w.log| - 1].holder == Some(x)
    ensures forall y :: Acts(c, w, y) ==> y == x
  {
    ReachableInv(c, delta, ids, w);
    assert ReplicaOk(c, delta, w, x, w.replicas[x]);
    assert w.log != [] ==> EntrySane(w.log, w.clock, |w.log| - 1);
    TakenMeansOthersDone(c, delta, w, x);
    OthersDoneOthersIdle(c, w, x);
  }

  /** `Acquired` with warm-up: the last write was its holder's own release, made while that
      replica no longer led, and nobody leads now. */
  lemma WarmUpMeansReleased(c: Config, delta: Time, ids: set<Id>, w: World, x: Id)
    requires Reachable(c, delta, ids, w) && delta <= c.leaseDuration - c.renewDeadline
    requires Enabled(delta, w, Put(x)) && Cas(w.lease, Some(x), w.replicas[x].pc.expected).1
    requires Reported(w.replicas[x].pc.kind) == Acquired(true)
    ensures |w.log| > 1 && w.log[|w.log| - 1].holder == None
    ensures w.log[|w.log| - 2].holder == Some(w.log[|w.log| - 1].writer)
    ensures forall y :: y != x ==> !Acts(c, w, y)
  {
    ReachableInv(c, delta, ids, w);
    assert ReplicaOk(c, delta, w, x, w.replicas[x]);
    assert w.log != [] ==> EntrySane(w.log, w.clock, |w.log| - 1);
    TakenMeansOthersDone(c, delta, w, x);
    OthersDoneOthersIdle(c, w, x);
  }

  /** The release behind such a record: only the record's holder clears it, after it has
      stopped leading, and at that moment nobody leads. */
  lemma ReleaseComesAfterLeading(c: Config, delta: Time, ids: set<Id>, w: World, x: Id)
    requires Reachable(c, delta, ids, w) && delta <= c.leaseDuration - c.renewDeadline
    requires Enabled(delta, w, ReleasePut(x)) && Cas(w.lease, None, Some(w.replicas[x].pc.version)).1
    ensures |w.log| > 0 && w.log[|w.log| - 1].holder == Some(x)
    ensures forall y :: !Acts(c, w, y)
  {
    ReachableInv(c, delta, ids, w);
    assert ReplicaOk(c, delta, w, x, w.replicas[x]);
    forall y
      ensures !Acts(c, w, y)
    {
      if y in w.replicas {
        assert ReplicaOk(c, delta, w, y, w.replicas[y]);
        NotNamedNotActing(c, w, y);
      }
    }
  }

  /** `Acquired` without warm-up: there was no record, or this replica watched another's
      unchanged for a full `leaseDuration`, so it had stood for that less one late read. */
  lemma ColdMeansCreatedOrWatched(c: Config, delta: Time, ids: set<Id>, w: World, x: Id)
    requires Reachable(c, delta, ids, w) && delta <= c.leaseDuration - c.renewDeadline
    requires Enabled(delta, w, Put(x)) && Cas(w.lease, Some(x), w.replicas[x].pc.expected).1
    requires Reported(w.replicas[x].pc.kind) == Acquired(false)
    ensures w.log == [] ||
            (w.log[|w.log| - 1].holder.Some? && w.log[|w.log| - 1].holder != Some(x)
             && Watched(c, w.replicas[x].state, w.replicas[x].pc.t, Some(|w.log|))
             && w.log[|w.log| - 1].at + c.leaseDuration - delta <= w.replicas[x].pc.t)
    ensures forall y :: y != x ==> !Acts(c, w, y)
  {
    ReachableInv(c, delta, ids, w);
    assert ReplicaOk(c, delta, w, x, w.replicas[x]);
    assert w.log != [] ==> EntrySane(w.log, w.clock, |w.log| - 1);
    TakenMeansOthersDone(c, delta, w, x);
    OthersDoneOthersIdle(c, w, x);
  }

  lemma NotNamedNotActing(c: Config, w: World, y: Id)
    requires y in w.replicas
    requires forall t :: Claims(c, w.replicas[y], t) ==> ClaimOk(c, w, y, t)
    requires |w.log| > 0 && w.log[|w.log| - 1].holder == Some(y) ==>
               w.replicas[y].state.lastRenew == None && w.replicas[y].until == None
    ensures !Acts(c, w, y)
  {
    if Acts(c, w, y) {
      var t := ActingClaim(c, w, y);
      assert false;
    }
  }

  lemma OthersDoneOthersIdle(c: Config, w: World, x: Id)
    requires OthersDone(c, w, x)
    ensures forall y :: Acts(c, w, y) ==> y == x
  {
    forall y | Acts(c, w, y)
      ensures y == x
    {
      var t := ActingClaim(c, w, y);
    }
  }
}
