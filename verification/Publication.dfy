/**
 Publishing entitlements: a change is committed and then the shared version bumped; a
 snapshot reads the version first and the data second; gateways take only newer snapshots
 (crates/pt-control-plane/src/service.rs, crates/pt-control-plane/src/store.rs and
 crates/pt-gateway/src/state.rs). Any number of instances, requests and gateways interleave.
 */
module Publication {
  import opened Prelude

  /** What a snapshot is built from, in two separate reads. */
  datatype Kind = Reservation | Incident

  datatype Change = Change(id: nat, kind: Kind)

  datatype Snap = Snap(version: nat, data: set<Change>)

  // ---------------------------------------------------------------------------
  // The steps of the source
  // ---------------------------------------------------------------------------

  function Bumped(version: nat, atLeast: nat): nat {
    Max(version + 1, atLeast)
  }

  function Merged(cur: nat, v: nat): nat {
    Max(cur, v)
  }

  class VersionStore {
    var version: nat

    constructor ()
      ensures version == 0
    {
      version := 0;
    }

    method BumpVersion(atLeast: nat) returns (v: nat)
      modifies this
      ensures version == v == Bumped(old(version), atLeast)
      ensures v > old(version) && v >= atLeast && (v == old(version) + 1 || v == atLeast)
    {
      version := Max(version + 1, atLeast);
      v := version;
    }

    method CurrentVersion() returns (v: nat)
      ensures v == version
    {
      v := version;
    }
  }

  /** One control-plane instance: the version it last saw. */
  class Publisher {
    const store: VersionStore
    var cur: nat

    constructor (store: VersionStore, clock: nat)
      ensures this.store == store && cur == Max(clock, 1)
    {
      this.store, cur := store, Max(clock, 1);
    }

    /** At startup, and after each committed change. */
    method Bump(now: nat) returns (v: nat)
      modifies this, store
      ensures store.version == v == Bumped(old(store.version), now) && cur == Merged(old(cur), v)
      ensures v > old(store.version) && v >= now && cur >= v && cur >= old(cur) && (cur == v || cur == old(cur))
    {
      v := store.BumpVersion(now);
      cur := Max(cur, v);
    }

    method SyncVersion() returns (v: nat)
      modifies this
      ensures cur == v == Merged(old(cur), store.version)
      ensures v >= store.version && v >= old(cur) && (v == store.version || v == old(cur))
    {
      v := store.CurrentVersion();
      if v > cur {
        cur := v;
      }
      v := cur;
    }
  }

  datatype Applied = Took | Stale(current: nat)

  /** A gateway's entitlements. */
  class Entitlements {
    var slot: Snap

    constructor ()
      ensures slot == Snap(0, {})
    {
      slot := Snap(0, {});
    }

    /** The check before building: a snapshot is turned away exactly when a swap would leave
        the slot as it is, and then whatever else is applied meanwhile. */
    method Check(snap: Snap) returns (r: Applied)
      ensures r.Stale? <==> Newer(slot, snap) == slot
      ensures r.Stale? <==> snap.version <= slot.version
      ensures r.Stale? ==> r.current == slot.version && forall later: Snap :: later.version >= slot.version ==> Newer(later, snap) == later
    {
      r := if snap.version <= slot.version then Stale(slot.version) else Took;
    }

    /** The re-check and swap once built, whatever was applied meanwhile. */
    method Swap(snap: Snap) returns (r: Applied)
      modifies this
      ensures slot == Newer(old(slot), snap) && slot.version >= old(slot).version
      ensures if old(slot).version < snap.version then slot == snap && r.Took? else slot == old(slot) && r == Stale(slot.version)
    {
      if slot.version >= snap.version {
        return Stale(slot.version);
      }
      slot := snap;
      r := Took;
    }
  }

  function Newer(slot: Snap, snap: Snap): Snap {
    if slot.version >= snap.version then slot else snap
  }

  // ---------------------------------------------------------------------------
  // All of them together
  // ---------------------------------------------------------------------------

  datatype Instance = Instance(cur: nat, ready: bool)

  /** A request: its change is committed, then the bump has returned. */
  datatype Writer = Committed(inst: nat, change: Change) | Returned(inst: nat, version: nat)

  /** A snapshot being read. */
  datatype Reader =
    | GotVersion(inst: nat, version: nat)
    | Synced(inst: nat)
    | Labelled(tag: nat)
    | GotReservations(tag: nat, data: set<Change>)

  datatype Gateway = Gateway(slot: Snap, building: seq<Snap>)

  /** `marks[v]` is what was committed when the bump to `v` took effect. */
  datatype World = World(
    version: nat, committed: set<Change>, marks: map<nat, set<Change>>, published: map<Change, nat>,
    instances: map<nat, Instance>, writers: map<nat, Writer>, readers: map<nat, Reader>,
    snapshots: set<Snap>, gateways: map<nat, Gateway>)

  datatype Step =
    | Start(inst: nat, clock: nat)
    | Init(inst: nat, now: nat)
    | Commit(w: nat, inst: nat, change: Change)
    | Bump(w: nat, now: nat)
    | BumpFails(w: nat)
    | Learn(w: nat)
    | ReadVersion(r: nat, inst: nat)
    | Merge(r: nat)
    | Label(r: nat)
    | ReadReservations(r: nat)
    | ReadIncidents(r: nat)
    | Join(g: nat)
    | Fetch(g: nat, snap: Snap)
    | Apply(g: nat, j: nat)

  function OfKind(changes: set<Change>, kind: Kind): set<Change> {
    set c | c in changes && c.kind == kind
  }

  predicate Enabled(w: World, s: Step) {
    match s
    case Start(i, _) => i !in w.instances
    case Init(i, now) => i in w.instances && !w.instances[i].ready
    case Commit(p, i, c) => p !in w.writers && i in w.instances && w.instances[i].ready && c !in w.committed
    case Bump(p, _) => p in w.writers && w.writers[p].Committed?
    case BumpFails(p) => p in w.writers && w.writers[p].Committed?
    case Learn(p) => p in w.writers && w.writers[p].Returned? && w.writers[p].inst in w.instances
    case ReadVersion(r, i) => r !in w.readers && i in w.instances && w.instances[i].ready
    case Merge(r) => r in w.readers && w.readers[r].GotVersion? && w.readers[r].inst in w.instances
    case Label(r) => r in w.readers && w.readers[r].Synced? && w.readers[r].inst in w.instances
    case ReadReservations(r) => r in w.readers && w.readers[r].Labelled?
    case ReadIncidents(r) => r in w.readers && w.readers[r].GotReservations?
    case Join(g) => g !in w.gateways
    case Fetch(g, snap) => g in w.gateways && snap in w.snapshots && snap.version > w.gateways[g].slot.version
    case Apply(g, j) => g in w.gateways && j < |w.gateways[g].building|
  }

  function Next(w: World, s: Step): World
    requires Enabled(w, s)
  {
    match s
    case Start(i, clock) => w.(instances := w.instances[i := Instance(Max(clock, 1), false)])
    case Init(i, now) =>
      var v := Bumped(w.version, Max(now, 1));
      w.(version := v, marks := w.marks[v := w.committed], instances := w.instances[i := Instance(Merged(w.instances[i].cur, v), true)])
    case Commit(p, i, c) => w.(committed := w.committed + {c}, writers := w.writers[p := Committed(i, c)])
    case Bump(p, now) =>
      var v := Bumped(w.version, now);
      w.(version := v, marks := w.marks[v := w.committed], published := w.published[w.writers[p].change := v],
         writers := w.writers[p := Returned(w.writers[p].inst, v)])
    case BumpFails(p) => w.(writers := w.writers - {p})
    case Learn(p) =>
      var (i, v) := (w.writers[p].inst, w.writers[p].version);
      w.(writers := w.writers - {p}, instances := w.instances[i := w.instances[i].(cur := Merged(w.instances[i].cur, v))])
    case ReadVersion(r, i) => w.(readers := w.readers[r := GotVersion(i, w.version)])
    case Merge(r) =>
      var (i, v) := (w.readers[r].inst, w.readers[r].version);
      w.(readers := w.readers[r := Synced(i)], instances := w.instances[i := w.instances[i].(cur := Merged(w.instances[i].cur, v))])
    case Label(r) => w.(readers := w.readers[r := Labelled(w.instances[w.readers[r].inst].cur)])
    case ReadReservations(r) =>
      w.(readers := w.readers[r := GotReservations(w.readers[r].tag, OfKind(w.committed, Reservation))])
    case ReadIncidents(r) =>
      w.(readers := w.readers - {r},
         snapshots := w.snapshots + {Snap(w.readers[r].tag, w.readers[r].data + OfKind(w.committed, Incident))})
    case Join(g) => w.(gateways := w.gateways[g := Gateway(Snap(0, {}), [])])
    case Fetch(g, snap) => w.(gateways := w.gateways[g := w.gateways[g].(building := w.gateways[g].building + [snap])])
    case Apply(g, j) =>
      w.(gateways := w.gateways[g := Gateway(Newer(w.gateways[g].slot, w.gateways[g].building[j]), w.gateways[g].building)])
  }

  const START := World(0, {}, map[], map[], map[], map[], map[], {}, map[])

  predicate Goes(w: World, s: Step, w': World) {
    Enabled(w, s) && w' == Next(w, s)
  }

  predicate Run(ws: seq<World>, steps: seq<Step>) {
    && |ws| == |steps| + 1 && ws[0] == START
    && forall i :: 0 <= i < |steps| ==> Goes(ws[i], steps[i], ws[i + 1])
  }

  /** An instance's start version is not ahead of the store after its first bump. */
  predicate StartsBehind(w: World, s: Step) {
    s.Init? && s.inst in w.instances ==> w.instances[s.inst].cur <= Bumped(w.version, Max(s.now, 1))
  }

  /** None of the run's instances starts ahead, from its `m`th step to its `n`th. */
  predicate AllStartBehind(ws: seq<World>, steps: seq<Step>, m: nat, n: nat)
    requires |ws| == |steps| + 1 && n <= |steps|
  {
    forall i :: m <= i < n ==> StartsBehind(ws[i], steps[i])
  }

  // ---------------------------------------------------------------------------
  // Nothing published is missed
  // ---------------------------------------------------------------------------

  /** `data` has everything of `kind` committed before any bump to at most `tag`. */
  predicate Complete(w: World, tag: nat, data: set<Change>, kind: Kind) {
    forall v :: v in w.marks && v <= tag ==> OfKind(w.marks[v], kind) <= data
  }

  predicate CompleteSnap(w: World, s: Snap) {
    s.version <= w.version && Complete(w, s.version, s.data, Reservation) && Complete(w, s.version, s.data, Incident)
  }

  predicate InstancesBehind(w: World) {
    forall i :: i in w.instances && w.instances[i].ready ==> w.instances[i].cur <= w.version
  }

  predicate MarksBehind(w: World) {
    && (forall v :: v in w.marks ==> 0 < v <= w.version && w.marks[v] <= w.committed)
    && (forall c :: c in w.published ==> w.published[c] in w.marks && c in w.marks[w.published[c]])
  }

  predicate WriterOk(w: World, p: Writer) {
    && p.inst in w.instances && w.instances[p.inst].ready
    && (p.Committed? ==> p.change in w.committed) && (p.Returned? ==> p.version <= w.version)
  }

  predicate ReaderOk(w: World, r: Reader) {
    match r
    case GotVersion(i, v) => i in w.instances && w.instances[i].ready && v <= w.version
    case Synced(i) => i in w.instances && w.instances[i].ready
    case Labelled(tag) => tag <= w.version
    case GotReservations(tag, data) => tag <= w.version && Complete(w, tag, data, Reservation)
  }

  predicate Sound(w: World) {
    && InstancesBehind(w) && MarksBehind(w)
    && (forall p :: p in w.writers ==> WriterOk(w, w.writers[p]))
    && (forall r :: r in w.readers ==> ReaderOk(w, w.readers[r]))
    && (forall s :: s in w.snapshots ==> CompleteSnap(w, s))
  }

  predicate GatewayOk(w: World, g: Gateway) {
    CompleteSnap(w, g.slot) && forall s :: s in g.building ==> CompleteSnap(w, s)
  }

  predicate GatewaysOk(w: World) {
    forall g :: g in w.gateways ==> GatewayOk(w, w.gateways[g])
  }

  /** `w'` may have bumped further and committed more than `w`, and forgotten nothing. */
  predicate Later(w: World, w': World) {
    && w.version <= w'.version && w.committed <= w'.committed
    && (forall v :: v in w.marks ==> v in w'.marks && w'.marks[v] == w.marks[v])
    && (forall v :: v in w'.marks && v !in w.marks ==> v > w.version)
  }

  /** What was complete stays complete: every later bump returns more than the label. */
  lemma StaysComplete(w: World, w': World, tag: nat, data: set<Change>, kind: Kind)
    requires Later(w, w') && tag <= w.version && Complete(w, tag, data, kind)
    ensures Complete(w', tag, data, kind)
  {
  }

  lemma SnapStays(w: World, w': World, s: Snap)
    requires Later(w, w') && CompleteSnap(w, s)
    ensures CompleteSnap(w', s)
  {
    StaysComplete(w, w', s.version, s.data, Reservation);
    StaysComplete(w, w', s.version, s.data, Incident);
  }

  /** Data read now is complete for every label up to the version. */
  lemma CommittedIsComplete(w: World, tag: nat, kind: Kind)
    requires MarksBehind(w)
    ensures Complete(w, tag, OfKind(w.committed, kind), kind)
  {
  }

  lemma StepIsLater(w: World, s: Step)
    requires Enabled(w, s) && MarksBehind(w)
    ensures Later(w, Next(w, s)) && MarksBehind(Next(w, s))
    requires s.Bump? ==> w.writers[s.w].change in w.committed
  {
  }

  /** Instances never run ahead of the shared version, if they do not start ahead. */
  lemma StepKeepsInstances(w: World, s: Step)
    requires Sound(w) && Enabled(w, s) && StartsBehind(w, s)
    ensures InstancesBehind(Next(w, s))
  {
  }

  lemma StepKeepsWriters(w: World, s: Step)
    requires Sound(w) && Enabled(w, s) && Later(w, Next(w, s))
    ensures forall p :: p in Next(w, s).writers ==> WriterOk(Next(w, s), Next(w, s).writers[p])
  {
    forall p | p in Next(w, s).writers
      ensures WriterOk(Next(w, s), Next(w, s).writers[p])
    {
      if p in w.writers {
        assert WriterOk(w, w.writers[p]);
      }
    }
  }

  lemma ReaderStays(w: World, w': World, r: Reader)
    requires ReaderOk(w, r) && Later(w, w')
    requires forall i :: i in w.instances && w.instances[i].ready ==> i in w'.instances && w'.instances[i].ready
    ensures ReaderOk(w', r)
  {
    if r.GotReservations? {
      StaysComplete(w, w', r.tag, r.data, Reservation);
    }
  }

  lemma StepKeepsReaders(w: World, s: Step)
    requires Sound(w) && Enabled(w, s) && Later(w, Next(w, s))
    ensures forall r :: r in Next(w, s).readers ==> ReaderOk(Next(w, s), Next(w, s).readers[r])
  {
    var w' := Next(w, s);
    forall r | r in w'.readers
      ensures ReaderOk(w', w'.readers[r])
    {
      if r in w.readers {
        assert ReaderOk(w, w.readers[r]);
        ReaderStays(w, w', w.readers[r]);
        if s.ReadReservations? && s.r == r {
          CommittedIsComplete(w, w.readers[r].tag, Reservation);
          StaysComplete(w, w', w.readers[r].tag, OfKind(w.committed, Reservation), Reservation);
        }
      }
    }
  }

  lemma StepKeepsSnapshots(w: World, s: Step)
    requires Sound(w) && Enabled(w, s) && Later(w, Next(w, s))
    ensures forall snap :: snap in Next(w, s).snapshots ==> CompleteSnap(Next(w, s), snap)
  {
    var w' := Next(w, s);
    forall snap | snap in w'.snapshots
      ensures CompleteSnap(w', snap)
    {
      if snap in w.snapshots {
        SnapStays(w, w', snap);
      } else {
        var r := w.readers[s.r];
        assert ReaderOk(w, r);
        CommittedIsComplete(w, r.tag, Incident);
      }
    }
  }

  lemma StepKeepsSound(w: World, s: Step)
    requires Sound(w) && Enabled(w, s) && StartsBehind(w, s)
    ensures Sound(Next(w, s)) && Later(w, Next(w, s))
  {
    if s.Bump? {
      assert WriterOk(w, w.writers[s.w]);
    }
    StepIsLater(w, s);
    StepKeepsInstances(w, s);
    StepKeepsWriters(w, s);
    StepKeepsReaders(w, s);
    StepKeepsSnapshots(w, s);
  }

  lemma StepKeepsGateways(w: World, s: Step)
    requires Sound(w) && GatewaysOk(w) && Enabled(w, s) && Later(w, Next(w, s)) && MarksBehind(Next(w, s))
    ensures GatewaysOk(Next(w, s))
  {
    var w' := Next(w, s);
    forall g | g in w'.gateways
      ensures GatewayOk(w', w'.gateways[g])
    {
      if g in w.gateways {
        var gw := w.gateways[g];
        assert GatewayOk(w, gw);
        SnapStays(w, w', gw.slot);
        forall snap | snap in gw.building
          ensures CompleteSnap(w', snap)
        {
          SnapStays(w, w', snap);
        }
        if s.Fetch? && s.g == g {
          SnapStays(w, w', s.snap);
        }
      } else {
        assert CompleteSnap(w', Snap(0, {}));
      }
    }
  }

  /** No gateway's version ever decreases. */
  lemma GatewayNeverGoesBack(w: World, s: Step, g: nat)
    requires Enabled(w, s) && g in w.gateways
    ensures g in Next(w, s).gateways && Next(w, s).gateways[g].slot.version >= w.gateways[g].slot.version
  {
  }

  lemma {:induction false} RunIsSound(ws: seq<World>, steps: seq<Step>, n: nat)
    requires Run(ws, steps) && n <= |steps| && AllStartBehind(ws, steps, 0, n)
    ensures Sound(ws[n]) && GatewaysOk(ws[n])
  {
    hide Next, Enabled, StartsBehind;
    if n > 0 {
      RunIsSound(ws, steps, n - 1);
      assert Goes(ws[n - 1], steps[n - 1], ws[n]);
      assert StartsBehind(ws[n - 1], steps[n - 1]);
      StepKeepsSound(ws[n - 1], steps[n - 1]);
      StepKeepsGateways(ws[n - 1], steps[n - 1]);
    }
  }

  /** Everything published with at most a snapshot's version is in the snapshot. */
  predicate MissesNothing(w: World, s: Snap) {
    && (forall c :: c in w.published && w.published[c] <= s.version ==> c in s.data)
    && (forall v :: v in w.marks && v <= s.version ==> w.marks[v] <= s.data)
  }

  predicate NothingMissed(w: World) {
    && (forall s :: s in w.snapshots ==> MissesNothing(w, s))
    && (forall g :: g in w.gateways ==> MissesNothing(w, w.gateways[g].slot))
  }

  lemma CompleteMissesNothing(w: World, s: Snap)
    requires MarksBehind(w) && CompleteSnap(w, s)
    ensures MissesNothing(w, s)
  {
    forall v | v in w.marks && v <= s.version
      ensures w.marks[v] <= s.data
    {
      forall c | c in w.marks[v]
        ensures c in s.data
      {
        assert c in OfKind(w.marks[v], c.kind);
        assert Complete(w, s.version, s.data, c.kind);
      }
    }
  }

  /** Safe publication: in every state of every run, no snapshot and no gateway misses a
      change published, or committed before a bump, at its version or below. */
  lemma SafePublication(ws: seq<World>, steps: seq<Step>, n: nat)
    requires Run(ws, steps) && n <= |steps| && AllStartBehind(ws, steps, 0, n)
    ensures NothingMissed(ws[n])
  {
    var w := ws[n];
    RunIsSound(ws, steps, n);
    forall s | s in w.snapshots
      ensures MissesNothing(w, s)
    {
      CompleteMissesNothing(w, s);
    }
    forall g | g in w.gateways
      ensures MissesNothing(w, w.gateways[g].slot)
    {
      assert GatewayOk(w, w.gateways[g]);
      CompleteMissesNothing(w, w.gateways[g].slot);
    }
  }

  /** A gateway at the shared version has every published change. */
  lemma GatewayAtSharedVersion(ws: seq<World>, steps: seq<Step>, n: nat, g: nat)
    requires Run(ws, steps) && n <= |steps| && AllStartBehind(ws, steps, 0, n)
    requires g in ws[n].gateways && ws[n].gateways[g].slot.version == ws[n].version
    ensures forall c :: c in ws[n].published ==> c in ws[n].gateways[g].slot.data
  {
    SafePublication(ws, steps, n);
    RunIsSound(ws, steps, n);
    assert MissesNothing(ws[n], ws[n].gateways[g].slot);
  }

  /** Over a whole run no gateway's version decreases. */
  lemma {:induction false} GatewayVersionsGrow(ws: seq<World>, steps: seq<Step>, m: nat, n: nat, g: nat)
    requires Run(ws, steps) && m <= n <= |steps| && g in ws[m].gateways
    ensures g in ws[n].gateways && ws[n].gateways[g].slot.version >= ws[m].gateways[g].slot.version
    decreases n
  {
    hide Next, Enabled;
    if m < n {
      GatewayVersionsGrow(ws, steps, m, n - 1, g);
      assert Goes(ws[n - 1], steps[n - 1], ws[n]);
      GatewayNeverGoesBack(ws[n - 1], steps[n - 1], g);
    }
  }

  // ---------------------------------------------------------------------------
  // Everything published arrives
  // ---------------------------------------------------------------------------

  /** A snapshot is being read whose label will be `v` or later, with all of `base` in it. */
  predicate ReadsFrom(w: World, r: nat, v: nat, base: set<Change>) {
    && r in w.readers && base <= w.committed
    && match w.readers[r]
       case GotVersion(i, u) => i in w.instances && u >= v
       case Synced(i) => i in w.instances && w.instances[i].cur >= v
       case Labelled(tag) => tag >= v
       case GotReservations(tag, data) => tag >= v && OfKind(base, Reservation) <= data
  }

  lemma StepReadsFrom(w: World, s: Step, r: nat, v: nat, base: set<Change>)
    requires Enabled(w, s) && ReadsFrom(w, r, v, base) && s != ReadIncidents(r)
    ensures ReadsFrom(Next(w, s), r, v, base)
  {
  }

  lemma {:induction false} RunReadsFrom(ws: seq<World>, steps: seq<Step>, m: nat, k: nat, r: nat, v: nat, base: set<Change>)
    requires Run(ws, steps) && m <= k <= |steps| && ReadsFrom(ws[m], r, v, base)
    requires forall j :: m <= j < k ==> steps[j] != ReadIncidents(r)
    ensures ReadsFrom(ws[k], r, v, base)
    decreases k
  {
    hide Next, Enabled, ReadsFrom;
    if m < k {
      RunReadsFrom(ws, steps, m, k - 1, r, v, base);
      assert Goes(ws[k - 1], steps[k - 1], ws[k]);
      StepReadsFrom(ws[k - 1], steps[k - 1], r, v, base);
    }
  }

  /** Every request's change is committed before its bump. */
  predicate CommittedFirst(w: World) {
    forall p :: p in w.writers && w.writers[p].Committed? ==> w.writers[p].change in w.committed
  }

  lemma {:induction false} RunMarks(ws: seq<World>, steps: seq<Step>, n: nat)
    requires Run(ws, steps) && n <= |steps|
    ensures MarksBehind(ws[n]) && CommittedFirst(ws[n])
  {
    if n > 0 {
      RunMarks(ws, steps, n - 1);
      assert Goes(ws[n - 1], steps[n - 1], ws[n]);
      StepIsLater(ws[n - 1], steps[n - 1]);
      StepCommitsFirst(ws[n - 1], steps[n - 1]);
    }
  }

  lemma StepCommitsFirst(w: World, s: Step)
    requires Enabled(w, s) && CommittedFirst(w)
    ensures CommittedFirst(Next(w, s))
  {
  }

  /** In every run, a snapshot is labelled with the version its reading began at or a later
      one, and has everything committed by then: so everything published by then, at a label
      no lower than any it was published with. */
  lemma SnapshotsAreFresh(ws: seq<World>, steps: seq<Step>, m: nat, k: nat, r: nat) returns (snap: Snap)
    requires Run(ws, steps) && m < k < |steps| && steps[m].ReadVersion? && steps[m].r == r && steps[k] == ReadIncidents(r)
    requires forall j :: m < j < k ==> steps[j] != ReadIncidents(r)
    ensures snap in ws[k + 1].snapshots && snap.version >= ws[m].version && ws[m].committed <= snap.data
    ensures forall c :: c in ws[m].published ==> ws[m].published[c] <= snap.version && c in snap.data
  {
    RunMarks(ws, steps, m);
    var v, base := ws[m].version, ws[m].committed;
    assert Goes(ws[m], steps[m], ws[m + 1]) && Goes(ws[k], steps[k], ws[k + 1]);
    RunReadsFrom(ws, steps, m + 1, k, r, v, base);
    var w := ws[k];
    assert w.readers[r].GotReservations?;
    snap := Snap(w.readers[r].tag, w.readers[r].data + OfKind(w.committed, Incident));
    forall c | c in base
      ensures c in snap.data
    {
      assert c.kind == Reservation ==> c in OfKind(base, Reservation);
      assert c.kind == Incident ==> c in OfKind(w.committed, Incident);
    }
  }

  /** And a gateway below it can fetch it and then has it. */
  lemma GatewayTakesNewer(w: World, g: nat, snap: Snap)
    requires g in w.gateways && snap in w.snapshots && w.gateways[g].slot.version < snap.version
    ensures Enabled(w, Fetch(g, snap))
    ensures var w1 := Next(w, Fetch(g, snap));
      var last := |w1.gateways[g].building| - 1;
      last >= 0 && Enabled(w1, Apply(g, last)) && Next(w1, Apply(g, last)).gateways[g].slot == snap
  {
  }

  // ---------------------------------------------------------------------------
  // An instance that starts ahead
  // ---------------------------------------------------------------------------

  /** `ws'` goes on from `ws`, and no instance starts ahead on the way. */
  predicate Continues(ws: seq<World>, steps: seq<Step>, ws': seq<World>, steps': seq<Step>) {
    Run(ws', steps') && ws <= ws' && steps <= steps' && AllStartBehind(ws', steps', |steps|, |steps'|)
  }

  /** However a run goes on, nothing is missed. */
  ghost predicate StaysSafe(ws: seq<World>, steps: seq<Step>) {
    forall ws', steps' :: Continues(ws, steps, ws', steps') ==> NothingMissed(ws'[|steps'|])
  }

  lemma Follow(ws0: seq<World>, steps0: seq<Step>, ws: seq<World>, steps: seq<Step>, s: Step, w: World)
    returns (ws': seq<World>, steps': seq<Step>)
    requires Continues(ws0, steps0, ws, steps) && Goes(ws[|steps|], s, w) && StartsBehind(ws[|steps|], s)
    ensures Continues(ws0, steps0, ws', steps') && |ws'| == |steps'| + 1 && ws'[|steps'|] == w
  {
    hide Goes, StartsBehind;
    ws', steps' := ws + [w], steps + [s];
    forall i | 0 <= i < |steps'|
      ensures Goes(ws'[i], steps'[i], ws'[i + 1]) && (|steps0| <= i ==> StartsBehind(ws'[i], steps'[i]))
    {
      if i < |steps| {
        assert ws'[i] == ws[i] && ws'[i + 1] == ws[i + 1] && steps'[i] == steps[i];
      }
    }
  }

  lemma FreshId(ids: set<nat>) returns (id: nat)
    ensures id !in ids
  {
    id := 0;
    var seen: set<nat> := {};
    while id in ids
      invariant seen <= ids && forall k: nat :: k in seen <==> k < id
      decreases ids - seen
    {
      seen, id := seen + {id}, id + 1;
    }
  }

  lemma FreshChange(changes: set<Change>) returns (c: Change)
    ensures c !in changes
  {
    var id := FreshId(set c | c in changes :: c.id);
    c := Change(id, Reservation);
  }

  function WithReader(w: World, id: nat, r: Reader): World {
    w.(readers := w.readers[id := r])
  }

  predicate Ahead(w: World, i: nat) {
    i in w.instances && w.instances[i].ready && w.instances[i].cur > w.version
  }

  /** An instance ahead of the store labels what it reads with its own version. */
  lemma AheadLabels(w: World, r: nat, i: nat)
    requires r !in w.readers && Ahead(w, i)
    ensures Goes(w, ReadVersion(r, i), WithReader(w, r, GotVersion(i, w.version)))
    ensures Goes(WithReader(w, r, GotVersion(i, w.version)), Merge(r), WithReader(w, r, Synced(i)))
    ensures Goes(WithReader(w, r, Synced(i)), Label(r), WithReader(w, r, Labelled(w.instances[i].cur)))
  {
    var w1 := WithReader(w, r, GotVersion(i, w.version));
    assert w.instances[i := w.instances[i]] == w.instances;
    assert w1.readers[r := Synced(i)] == w.readers[r := Synced(i)];
    var w2 := WithReader(w, r, Synced(i));
    assert w2.readers[r := Labelled(w.instances[i].cur)] == w.readers[r := Labelled(w.instances[i].cur)];
  }

  lemma AheadReads(w: World, r: nat, tag: nat)
    requires r !in w.readers
    ensures var data := OfKind(w.committed, Reservation);
      && Goes(WithReader(w, r, Labelled(tag)), ReadReservations(r), WithReader(w, r, GotReservations(tag, data)))
      && Goes(WithReader(w, r, GotReservations(tag, data)), ReadIncidents(r),
              w.(snapshots := w.snapshots + {Snap(tag, data + OfKind(w.committed, Incident))}))
  {
    var read := GotReservations(tag, OfKind(w.committed, Reservation));
    var w1 := WithReader(w, r, Labelled(tag));
    assert w1.readers[r := read] == w.readers[r := read];
    assert w.readers[r := read] - {r} == w.readers;
  }

  /** It then misses the next change published. */
  lemma AheadMisses(w: World, i: nat, p: nat, c: Change, snap: Snap) returns (w1: World, w2: World)
    requires i in w.instances && w.instances[i].ready && p !in w.writers && c !in w.committed
    requires snap in w.snapshots && snap.version > w.version && snap.data <= w.committed
    ensures Goes(w, Commit(p, i, c), w1) && Goes(w1, Bump(p, 0), w2) && !NothingMissed(w2)
  {
    w1 := Next(w, Commit(p, i, c));
    assert w1.writers[p] == Committed(i, c);
    w2 := Next(w1, Bump(p, 0));
    assert w2.published[c] == w.version + 1 && !MissesNothing(w2, snap);
  }

  /** So a run that an instance has come ahead in can go on to miss a change. */
  lemma AheadIsUnsafe(ws: seq<World>, steps: seq<Step>, i: nat)
    requires Run(ws, steps) && Ahead(ws[|steps|], i)
    ensures !StaysSafe(ws, steps)
  {
    var w := ws[|steps|];
    var r := FreshId(w.readers.Keys);
    var p := FreshId(w.writers.Keys);
    var c := FreshChange(w.committed);
    var cur, data := w.instances[i].cur, OfKind(w.committed, Reservation);
    var snap := Snap(cur, data + OfKind(w.committed, Incident));
    var read := w.(snapshots := w.snapshots + {snap});
    AheadLabels(w, r, i);
    AheadReads(w, r, cur);
    var written, bumped := AheadMisses(read, i, p, c, snap);
    assert Continues(ws, steps, ws, steps);
    hide Goes, Run, Continues, WithReader, NothingMissed, OfKind, Ahead;
    var us, ss := Follow(ws, steps, ws, steps, ReadVersion(r, i), WithReader(w, r, GotVersion(i, w.version)));
    us, ss := Follow(ws, steps, us, ss, Merge(r), WithReader(w, r, Synced(i)));
    us, ss := Follow(ws, steps, us, ss, Label(r), WithReader(w, r, Labelled(cur)));
    us, ss := Follow(ws, steps, us, ss, ReadReservations(r), WithReader(w, r, GotReservations(cur, data)));
    us, ss := Follow(ws, steps, us, ss, ReadIncidents(r), read);
    us, ss := Follow(ws, steps, us, ss, Commit(p, i, c), written);
    us, ss := Follow(ws, steps, us, ss, Bump(p, 0), bumped);
  }

  /** A first bump decides: if the instance started ahead, it stays ahead. */
  lemma StartedAhead(w: World, s: Step)
    requires Enabled(w, s) && !StartsBehind(w, s)
    ensures s.Init? && Ahead(Next(w, s), s.inst)
  {
  }

  /** In every run, no instance starts ahead of the store exactly when at no moment of it a
      change can still come to be missed. */
  lemma SafeIffStartsBehind(ws: seq<World>, steps: seq<Step>)
    requires Run(ws, steps)
    ensures AllStartBehind(ws, steps, 0, |steps|) <==> forall n: nat :: n <= |steps| ==> StaysSafe(ws[..n + 1], steps[..n])
  {
    hide Next, Enabled, NothingMissed, StartsBehind;
    if AllStartBehind(ws, steps, 0, |steps|) {
      forall n: nat, ws', steps' | n <= |steps| && Continues(ws[..n + 1], steps[..n], ws', steps')
        ensures NothingMissed(ws'[|steps'|])
      {
        assert forall i :: 0 <= i < n ==> ws'[i] == ws[..n + 1][i] == ws[i] && steps'[i] == steps[..n][i] == steps[i];
        SafePublication(ws', steps', |steps'|);
      }
    } else {
      var k :| 0 <= k < |steps| && !StartsBehind(ws[k], steps[k]);
      var ws', steps' := ws[..k + 2], steps[..k + 1];
      assert Goes(ws[k], steps[k], ws[k + 1]);
      StartedAhead(ws[k], steps[k]);
      assert ws' == ws[..(k + 1) + 1] && ws'[|steps'|] == ws[k + 1];
      AheadIsUnsafe(ws', steps', steps[k].inst);
    }
  }

  /** The clock an instance first bumps with is not behind the one it started with. */
  predicate ClockForward(w: World, s: Step) {
    s.Init? && s.inst in w.instances ==> Max(s.now, 1) >= w.instances[s.inst].cur
  }

  /** So clocks that do not go back between start and first bump are enough. */
  lemma ForwardClocksAreSafe(ws: seq<World>, steps: seq<Step>, n: nat)
    requires Run(ws, steps) && n <= |steps| && forall i :: 0 <= i < n ==> ClockForward(ws[i], steps[i])
    ensures NothingMissed(ws[n])
  {
    forall i | 0 <= i < n
      ensures StartsBehind(ws[i], steps[i])
    {
      assert ClockForward(ws[i], steps[i]);
    }
    SafePublication(ws, steps, n);
  }

  /** An instance that started at 10 and first bumped with its clock back at 1. */
  lemma ClockBackMisses() returns (ws: seq<World>, steps: seq<Step>)
    ensures Run(ws, steps) && steps == [Start(0, 10), Init(0, 1)] && !StaysSafe(ws, steps)
  {
    var w1 := Next(START, Start(0, 10));
    ws, steps := [START, w1, Next(w1, Init(0, 1))], [Start(0, 10), Init(0, 1)];
    AheadIsUnsafe(ws, steps, 0);
  }
}
