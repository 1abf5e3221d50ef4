# Provisioned throughput, in Dafny

A model of the cores of a provisioned-throughput platform, and proofs about every run of
them. Each core is a module; the imperative parts of the source are classes and loops proved
against functions, and the promises are lemmas about those functions.

| module | what it models |
|---|---|
| `Election` | leader election on one compare-and-swap lease: any number of replicas, reads and writes as separate steps, a bound on how late a read may take effect |
| `Capacity`, `Planner`, `MemoryPlanner` | what CUs cost, scheduled arrivals, best-fit placement, all-or-nothing counters, reconciliation |
| `SqlPlanner` | the planner over a database, proved to sell what the in-memory one sells |
| `Holdings`, `Moves`, `Changes`, `Growing`, `Releases`, `Terms`, `Dates`, `Outcomes`, `Service` | what a reservation holds, the operation log and its undo, which regions of a move go where and which pools they leave, what the end of a term does, when capacity has to be there, what each request is answered and makes of a reservation, and every operation that moves capacity |
| `Losses` | the ways a failed change leaves a counter too low, with concrete cases |
| `Publication` | commit, bump, version-then-data snapshots and gateways, interleaved |
| `Bucket`, `Burst`, `Limiter` | the admission limiter over the reals |
| `Scheduler` | the continuous-batching loop with recompute evictions |
| `PrefixCache`, `Rebalance`, `Failover`, `Billing`, `Sse` | the prefix index, the split rebalancer, failover headroom and weights, the billing timeline, the event splitter |
| `Sorting`, `Prelude` | the stable sort and small types |

`dafny verify dfyconfig.toml` checks everything.

## What the code does not promise

The model follows the code. Where the code's own promises are too strong, the project says
exactly when they hold.

- Two replicas can lead at once if a tick's read takes effect later than lease_duration -
  renew_deadline after its `now`, and only then.
- `available_from` is wrong for a pool in deficit when an arrival covers the request but not
  the deficit, and only then.
- Rebalancing drops its operation log when a move does not fit. Its counters can then be too
  *low*, not just too high: a region moved whole to another pool before a later region failed
  has left its old pool, where the saved reservation still holds it. This happens exactly
  where, on the counters before the move, a region's growth does not fit on its own pool and
  every growing region up to it fits somewhere; and never when at most one region grows.
- Undo can fail to put a release back: exactly when a pool does not serve the shape the undo
  is given, or was already oversold beyond everything that will ever arrive (as after a
  restart with less capacity configured). So a failed update, pool move or rebalancing save
  restores every counter exactly when no pool it had taken anything off was oversold. An
  update that fails after its shape was taken, because its save failed or because there is no
  next term for what it asks, is undone with the *new* shape, and needs besides that every
  pool the reservation was on serves that shape.
- A renewal whose scheduled change does not fit puts the old capacity back without logging
  it. That put-back fails silently exactly when a pool the reservation draws on is oversold.
  A counter then ends short, unless a tier was kept besides the split, fits, and nobody else
  is on the reservation's pools.
- DNS weight and failover activation add up to 1 except at the instant an incident with no
  return ramp ends while no other is open.
- The conditional SQL update can refuse an accepted placement only for a claim of no CUs on
  an oversold pool, which validation excludes.
- A snapshot can miss a published change once an instance's start version is ahead of the
  store after its first bump, as when its clock goes back between the two; and only then.
- A pending cancellation is billed past its term end once a later event closes a stretch
  still open there, as an increase made before the lifecycle loop caught up does; and only
  then.
- A limiter resize dated before the last refill earns the time between twice, at the next
  call and at any rate above zero. The same resize refills the burst ceiling's time again, so
  a window's draws can pass the extra rate over the time that passed.
- Dropping a burst policy forgives overdrawn credit, and what a burst request still running
  then uses above its estimate. The entitlement bound needs that much more, and nothing more.
- A rebalanced split is not always one that no move improves: the loop looks at the quietest
  region only, which may be too small to give a CU that a larger one could.

## Model

| member | source | states |
|---|---|---|
| Election.MemoryLease.Get | crates/pt-election/src/lib.rs:65-71 | reads the record and changes nothing |
| Election.MemoryLease.Put | crates/pt-election/src/lib.rs:73-87 | writes exactly when the expected version is the current one (or both are none), moving to the next version; otherwise nothing changes |
| Election.Elector.Step | crates/pt-election/src/lib.rs:192-241 | new elector state, new record and reported change are those of one read followed by at most one compare-and-swap; said outright: unless another holds the lease it writes its own name one version on and leads until `now` + renew_deadline exactly, otherwise it writes nothing, does not lead, and remembers the version and when it first saw it; and what it reports |
| Election.Elector.Tick | crates/pt-election/src/lib.rs:174-190 | as a step, and whenever leadership at `now` went away the change reported is `Lost` |
| Election.TickedIs | crates/pt-election/src/lib.rs:174-241 | what one tick does, from record and state alone: whether it writes, until when it then leads, what it remembers of another's record, and what it reports |
| Election.RenewsInTime | crates/pt-election/src/lib.rs:203-212 | over any ticks with nobody else writing, a holder writes once a tick, and leads exactly until renew_deadline after its last one |
| Election.TakesOver | crates/pt-election/src/lib.rs:213-239 | over any ticks with nobody else writing, a replica watching another's lease writes nothing and does not lead until a full lease_duration after its first sight of it, and then takes it |
| Election.Elector.SetAcquired | crates/pt-election/src/lib.rs:243-246 | leads from `now` and forgets what it observed |
| Election.Elector.Release | crates/pt-election/src/lib.rs:249-259 | stops leading first; clears the holder exactly when the record still names this replica |
| Election.Leadership.Set | crates/pt-election/src/lib.rs:284-289 | an elected gate follows the elector; one that always serves never changes |
| Election.StepKeepsInv | crates/pt-election/src/lib.rs:168-260 | every read, write, late return, release or clock advance keeps the invariant over leases, claims and watched records |
| Election.InvExclusive | crates/pt-election/src/lib.rs:164-170 | the invariant implies that no two replicas are leader at once |
| Election.ReachableInv | crates/pt-election/src/lib.rs:168-260 | the invariant holds in every state of every run of any number of replicas, if reads take effect within the bound |
| Election.ExclusionIffReadsAreTimely | crates/pt-election/src/lib.rs:168-260 | no run ever has two leaders if and only if reads take effect within lease_duration - renew_deadline of their `now` |
| Election.LateReadBreaksExclusion | crates/pt-election/src/lib.rs:174-241 | past that bound there is a run with two leaders |
| Election.TakeoverLeavesGap | crates/pt-election/src/lib.rs:221-234 | a takeover starts at least lease_duration - renew_deadline - delta after every claim anyone else still has ran out |
| Election.ValidatedGap | crates/pt-election/src/lib.rs:101-122 | a validated configuration makes that gap at least min_gap less the lateness of one read |
| Election.ResumedMeansNobodyActed | crates/pt-election/src/lib.rs:203-212 | `Resumed` means the record was last written by this replica itself, so nobody acquired since, and nobody else leads |
| Election.WarmUpMeansReleased | crates/pt-election/src/lib.rs:213-220 | `Acquired` with warm-up follows a release by the record's own holder, and nobody leads then |
| Election.ReleaseComesAfterLeading | crates/pt-election/src/lib.rs:249-259 | a release is written only by the holder named in the record, when nobody leads any more |
| Election.ColdMeansCreatedOrWatched | crates/pt-election/src/lib.rs:195-239 | `Acquired` without warm-up means no record existed, or another's was watched unchanged for a full lease_duration |
| Election.LeadsUntilTheDeadline | crates/pt-election/src/lib.rs:168-260 | in every run with any interleaving, a replica whose write at t was taken acts as leader at every moment before t + renew_deadline, unless meanwhile it reads another holder or releases |
| Capacity.FitsFromIsEarliest | crates/pt-control-plane/src/planner.rs:209-224 | the date found is the first moment after `at`, of all moments, when arrivals since `at` cover what is missing; none means never |
| Capacity.DatesAfterContents | crates/pt-control-plane/src/capacity.rs:142-155 | the dates are exactly the arrival dates after the given one, in order |
| Capacity.AddedByMonotone | crates/pt-control-plane/src/capacity.rs:131-139 | capacity that has arrived never goes away |
| Planner.PlaceByScan | crates/pt-control-plane/src/planner.rs:117-207 | the scan with its best-so-far loop computes the placement, in every branch and with every error |
| Planner.PlaceIsBestFit | crates/pt-control-plane/src/planner.rs:155-176 | the pool chosen is usable, leaves the least slack of all that fit, and no pool listed before it leaves as little |
| Planner.PlaceOkIffSomeFits | crates/pt-control-plane/src/planner.rs:131-176 | placement succeeds if and only if some usable pool has room at the start date |
| Planner.PlaceIs | crates/pt-control-plane/src/planner.rs:117-207 | from the pools alone: the claim goes to the first of those that would have least left, and takes cost times CUs; otherwise none has room, and the error is the one for the first reason there is, no such pool, none serving the shape (with the largest that is), no price, no room |
| Planner.RefusalReportsTheLargestFit | crates/pt-control-plane/src/planner.rs:177-206 | on refusal `available` is less than requested, and a claim of n CUs would be placed exactly when n is at most it |
| Planner.DateExactIffNoBlindSpot | crates/pt-control-plane/src/planner.rs:186-224 | a pool's date is the true earliest one if and only if no arrival brings enough by the saturated count but not by the real one; a pool not in deficit is always exact |
| Planner.RefusalDateIsEarliest | crates/pt-control-plane/src/planner.rs:186-206 | with no such pool, the refused claim would be placed at `available_from` and at no earlier moment after `at`; without a date, never |
| Planner.DateIsFirstPromise | crates/pt-control-plane/src/planner.rs:186-224 | the date is the first moment after `at` at which arrivals cover what some usable pool needs, its deficit not counted |
| Planner.RefusalDateExactIff | crates/pt-control-plane/src/planner.rs:186-206 | for a whole claim, `available_from`, or its absence, is right if and only if whenever arrivals cover what some usable pool needs, some usable pool has by then also got what it was short of; and it is never too late |
| Planner.DeficitMakesTheDateWrong | crates/pt-control-plane/src/planner.rs:186-224 | a concrete pool in deficit for which the claim is still refused at the date given |
| MemoryPlanner.Counters.Reserve | crates/pt-control-plane/src/planner.rs:428-466 | all claims are placed in order, each seeing what earlier ones took, or nothing changes and the first error is returned |
| MemoryPlanner.Counters.Release | crates/pt-control-plane/src/planner.rs:468-479 | each share's cost leaves its pool's counter, never below zero |
| MemoryPlanner.Counters.Restore | crates/pt-control-plane/src/planner.rs:520-539 | each counter rises by what live reservations hold in the pool, whatever its size |
| MemoryPlanner.Counters.JudgeDrift | crates/pt-control-plane/src/planner.rs:269-296 | one pool's memory and report; no other pool's memory changes |
| MemoryPlanner.Counters.Reconcile | crates/pt-control-plane/src/planner.rs:541-558 | every pool ends with the memory and the counter its own judgement says, and every drift is reported once, in order |
| MemoryPlanner.CorrectedOnlyOnRepeat | crates/pt-control-plane/src/planner.rs:269-296 | over any series of runs, a pool is corrected exactly when it drifts as on the run before and that run did not correct it |
| MemoryPlanner.ReserveAllAdds | crates/pt-control-plane/src/planner.rs:428-466 | a sale raises every counter by exactly what was placed on it, one share answering each claim |
| MemoryPlanner.ReserveAllIs | crates/pt-control-plane/src/planner.rs:428-466 | claims are placed one after another, each where it goes on the counters the ones before it left; the first that goes nowhere is the answer |
| MemoryPlanner.ReleaseAllRemoves | crates/pt-control-plane/src/planner.rs:468-479 | releasing what is held takes exactly that away |
| MemoryPlanner.ReleaseUndoesReserve | crates/pt-control-plane/src/planner.rs:428-479 | releasing what a sale placed restores the counters exactly |
| MemoryPlanner.TradingKeepsSound | crates/pt-control-plane/src/capacity.rs:91-139 | every sale and every return keeps each pool's sales within what had arrived by their own start dates |
| MemoryPlanner.NeverOversold | crates/pt-control-plane/src/capacity.rs:91-139 | after any run of sales and exact returns, at every moment the sales started by then fit the capacity each pool began with plus its arrivals, though each was checked only at its own start date |
| SqlPlanner.PlaceOnViews | crates/pt-control-plane/src/sql_planner.rs:128-171 | placing on one region's rows is placing on all pools |
| SqlPlanner.GuardRefusesIff | crates/pt-control-plane/src/sql_planner.rs:258-280 | the conditional update refuses an accepted placement if and only if it needs nothing and its pool is oversold; it needs nothing only for a claim of no CUs |
| SqlPlanner.SalesCommute | crates/pt-control-plane/src/sql_planner.rs:247-252 | neighbouring claims in different regions sell the same in either order |
| SqlPlanner.SortSells | crates/pt-control-plane/src/sql_planner.rs:247-252 | selling in stable region order succeeds exactly when selling in the given order does, to the same pools |
| SqlPlanner.SortReleases | crates/pt-control-plane/src/sql_planner.rs:296-312 | releasing in pool order leaves the same counters |
| SqlPlanner.SqlCounters.Reserve | crates/pt-control-plane/src/sql_planner.rs:239-294 | one transaction sells exactly what the in-memory planner would, same placements and same counters, or changes nothing; a refusal is that of a claim that finds no room on the counters the transaction had got to, and only a claim of no CUs on a pool oversold before it can be turned away by the guard |
| SqlPlanner.SqlCounters.Release | crates/pt-control-plane/src/sql_planner.rs:296-320 | the counters end as the in-memory planner's would |
| Failover.ComputeHeadroom | crates/pt-control-plane/src/failover.rs:48-69 | the accumulating loop and the sort compute the headroom |
| Failover.ComputeFootprint | crates/pt-control-plane/src/failover.rs:72-81 | the accumulating loop computes the footprint |
| Failover.HeadroomAt | crates/pt-control-plane/src/failover.rs:48-69 | headroom in a region is the largest share that fails over to it, never the sum |
| Failover.HeadroomSorted | crates/pt-control-plane/src/failover.rs:48-69 | headroom is listed in the order of region names |
| Failover.FootprintAt | crates/pt-control-plane/src/failover.rs:72-81 | a footprint holds in each region the share plus the headroom |
| Failover.GrowthAt | crates/pt-control-plane/src/failover.rs:84-97 | growth is the positive difference, region by region, each region once |
| Failover.TargetsAreHeld | crates/pt-control-plane/src/failover.rs:24-45 | every failover target is another region the reservation holds |
| Failover.TargetsAre | crates/pt-control-plane/src/failover.rs:24-45 | a region of a split fails over exactly to its configured pair if the split has a share there, and else to the largest other share, the first by name of equals |
| Failover.HeadroomIs | crates/pt-control-plane/src/failover.rs:48-69 | headroom in a region covers every share that fails over to it, and is one of them |
| Failover.ComputeRegionWeight | crates/pt-control-plane/src/failover.rs:260-284 | the loop computes the least weight, and names an incident that sets it exactly when it is below 1 |
| Failover.WeightRamps | crates/pt-control-plane/src/failover.rs:272-277 | an incident lets nothing through until it ends, and then traffic comes back evenly over the ramp |
| Failover.RegionWeightIs | crates/pt-control-plane/src/failover.rs:260-284 | a region's weight is the least any of its started incidents allows, and 1 with none |
| Failover.WeightIsInactive | crates/pt-entitlement/src/lib.rs:92-102 | a started incident's DNS weight and its activation add up to 1 |
| Failover.WeightPlusActivationIsOne | crates/pt-control-plane/src/failover.rs:260-284 | for every incident set, moment and region, weight plus largest activation is 1 if and only if no incident with no ramp ends exactly then while none is still open |
| Failover.ZeroRampEndLeavesAGap | crates/pt-control-plane/src/failover.rs:272-277 | a concrete instant where DNS sends nothing and the failover is already gone |
| Failover.FailoverCusBound | crates/pt-entitlement/src/lib.rs:61-73 | with one failed region, what is active is at most the largest share failing over here |
| Failover.EffectiveWithinFootprint | crates/pt-entitlement/src/lib.rs:55-73 | while only one region has incidents, what a reservation may use anywhere is at most what the planner holds for it there |
| Failover.TargetTakesOver | crates/pt-entitlement/src/lib.rs:55-73 | while only one region has incidents, what its target may use beyond its own share is exactly the failed share times the traffic that region has lost, and other regions use their own |
| Holdings.OnPoolsCost | crates/pt-control-plane/src/service.rs:2020-2031 | a pool holds a region's share if the region is placed on it, and else nothing |
| Holdings.HeldCoversFailover | crates/pt-entitlement/src/lib.rs:55-73 | while only one region has incidents, a reservation whose stored headroom is what its split needs (every operation keeps it so) may use no more anywhere than the planner holds for it |
| Holdings.RecordedOnPools | crates/pt-control-plane/src/service.rs:216-227 | shares placed, recorded and read back are the same shares on the same pools |
| Holdings.TidyKeepsPooled | crates/pt-control-plane/src/service.rs:230-233 | forgetting placements of regions no longer held loses nothing held |
| Holdings.ReReserve | crates/pt-control-plane/src/service.rs:2145-2152 | reserving a release back at `Timestamp::MAX`, naming its pools, restores the counters exactly |
| Holdings.UndoReleaseIff | crates/pt-control-plane/src/service.rs:2145-2152 | that re-reserve succeeds, and then restores exactly, if and only if every pool serves the shape given and was within its final size |
| Holdings.UndoOneIsExact | crates/pt-control-plane/src/service.rs:2145-2152 | undoing one planner call returns to the counters before it |
| Holdings.UndoPassesBack | crates/pt-control-plane/src/service.rs:2145-2160 | undoing a log in reverse passes back through the exact earlier counters, call by call |
| Moves.ReserveKeepsWithin | crates/pt-control-plane/src/planner.rs:428-466 | a sale leaves every pool it draws on within its final size and no pool oversold that was not |
| Moves.UndoIff | crates/pt-control-plane/src/service.rs:2145-2160 | undoing a log, with a shape that the pools it released from serve, restores every counter if and only if the log lowered no oversold one; and an oversold one that it lowered stays lower |
| Moves.LogWithinIff | crates/pt-control-plane/src/service.rs:2145-2160 | a log released from no oversold pool if and only if it left every oversold counter as it was |
| Moves.HalfwayStep | crates/pt-control-plane/src/service.rs:2069-2091 | a region moved to its target leaves every counter what the half-moved reservation holds |
| Moves.MoveEnds | crates/pt-control-plane/src/service.rs:2092-2097 | growth reserved and shrinkage released, every counter has exchanged the old holding for the target |
| Changes.ShapeChecked | crates/pt-control-plane/src/planner.rs:481-501 | a shape accepted for what is held is served by every pool held on |
| Changes.StoreCostIsExpected | crates/pt-control-plane/src/planner.rs:299-310 | what the store's live reservations hold in a pool is what reconciliation expects |
| Changes.NoDriftWhenConserved | crates/pt-control-plane/src/planner.rs:541-558 | with every counter exact a reconciliation run reports nothing |
| Changes.ConservedExchange | crates/pt-control-plane/src/service.rs:714-725 | saving a reservation whose counters were exchanged keeps every counter exact |
| Growing.MoveGoesThroughIff | crates/pt-control-plane/src/service.rs:2066-2091 | a move goes through if and only if every growing region fits on the counters before the move, in place or whole on another pool: regions do not get in each other's way |
| Growing.MovedOffIff | crates/pt-control-plane/src/service.rs:2069-2091 | a held region ends a move off its pool if and only if, on the counters before it, its growth does not fit there and every growing region up to it fits somewhere |
| Outcomes.GrowsIff | crates/pt-control-plane/src/service.rs:2066-2143 | a held region grows if and only if its pool has room for the growth, or could serve it and some pool of the region has room for all of it; a new region if some pool has room |
| Growing.ServedBefore | crates/pt-control-plane/src/service.rs:2069-2091 | after a move at a shape went through and all pools serve that shape, every pool the reservation was on before served it too |
| Growing.UnservedIsLost | crates/pt-control-plane/src/service.rs:2145-2152 | a reservation that was on a pool not serving a shape, and no longer is: an undo given that shape leaves that pool short of it |
| Releases.StoppedLowers | crates/pt-control-plane/src/service.rs:2066-2091 | a move that stops lowers, of the oversold counters, exactly those of pools it took a whole region off, which is said on the counters before it |
| Releases.ThroughLowers | crates/pt-control-plane/src/service.rs:2066-2097 | a move that goes through lowers, of the oversold counters, exactly those of pools a region leaves or shrinks on |
| Releases.RelocationLowers | crates/pt-control-plane/src/service.rs:1949-2003 | a region moved to another pool lowers, of the oversold counters, that of its own old pool only |
| Releases.HoldingLowers | crates/pt-control-plane/src/service.rs:763-891 | what an update took off pools, whether it went through or not: the union over rebalancing, tier and split, said on the counters before it |
| Releases.ReplanAccepted | crates/pt-control-plane/src/service.rs:809-939 | before the term, a request for a split that fits afresh and a shape is not refused |
| Releases.SparedIffSafe | crates/pt-control-plane/src/service.rs:2145-2160 | a change lowered no oversold counter if and only if no pool it took something off is oversold |
| Terms.PutBack | crates/pt-control-plane/src/service.rs:1847-1858 | putting back what a renewal released goes through if and only if no pool the reservation draws on is oversold, and then restores the counters; otherwise none of it is back |
| Terms.LostForGood | crates/pt-control-plane/src/service.rs:1847-1858 | what is released from an oversold pool no later step gets back |
| Terms.TurnsReach | crates/pt-control-plane/src/service.rs:1762-1804 | after all turns nothing is due: a reservation that renews is in the term that `now` falls in, and one that does not has ended |
| Terms.TurnsStayWithin | crates/pt-control-plane/src/service.rs:1762-1804 | turns oversell no pool, and once they have released anything never get back what an oversold pool had |
| Terms.QuietTurns | crates/pt-control-plane/src/service.rs:1904-1928 | renewals with nothing to change leave every counter alone |
| Terms.LostTurns | crates/pt-control-plane/src/service.rs:1827-1858 | turns of a reservation drawing on an oversold pool, where the change kept first does not fit, end with a counter below what the reservations hold; unless a tier kept as well then fits and nobody else is on its pools, and then with every counter exact |
| Dates.ReserveRaises | crates/pt-control-plane/src/service.rs:534-543 | a sale leaves every pool it raises within its size on the day the capacity is first used |
| Dates.MovedToRaises | crates/pt-control-plane/src/service.rs:2066-2097 | so does a move, from the later of term start and now |
| Dates.UpdateRaises | crates/pt-control-plane/src/service.rs:727-939 | and an update that is not refused: from the term's start before it, and from the later of that and now after |
| Dates.SwapOutRaises | crates/pt-control-plane/src/service.rs:1827-1895 | and a renewal's change: from the start of the next term |
| Outcomes.UpdatedIs | crates/pt-control-plane/src/service.rs:727-939 | every field of an updated reservation from the request and the old one: what is taken at once, and which tier and split are kept for the next term |
| Outcomes.LacksTermIff | crates/pt-control-plane/src/service.rs:902-909 | there is no next term for a request if and only if the reservation is to end and stays so, and another tier or a split that does not only grow is asked for |
| Outcomes.RefusedSplit | crates/pt-control-plane/src/service.rs:809-891 | a request for another split is refused if and only if sales are paused, or it is taken at once and does not fit, afresh from the term's start or grown from now; and with which error |
| Outcomes.RefusedOther | crates/pt-control-plane/src/service.rs:788-900 | another tier is refused only before the term, if it does not fit on the pools held from the term's start; another shape if some share has no pool that serves it; automatic renewal never |
| Outcomes.RenewedIs | crates/pt-control-plane/src/service.rs:1827-1928 | every field of a renewed reservation: the split kept if it fits when the next term starts, then the tier, nothing kept any more, and the next term |
| Service.Service.Relocate | crates/pt-control-plane/src/service.rs:2103-2143 | reserve first, then release: the region's old holding is exchanged for `total` on the new pool, which serves; on refusal nothing changed |
| Service.Service.GrowRegion | crates/pt-control-plane/src/service.rs:2069-2091 | one region grows on its own pool, or moves whole when that has no room, or nothing changes |
| Service.Service.GrowAll | crates/pt-control-plane/src/service.rs:2066-2091 | regions grow in turn until one does not fit; how far it got is stated pool by pool |
| Service.Service.MoveCapacity | crates/pt-control-plane/src/service.rs:2060-2097 | on success every counter has exchanged the old holding for the target; on failure exactly the regions before the failing one have moved |
| Service.Service.Undo | crates/pt-control-plane/src/service.rs:2145-2160 | the log is undone last call first, going on past a re-reserve that fails |
| Service.Service.CheckShape | crates/pt-control-plane/src/planner.rs:481-501 | passes exactly when every claim has a pool that serves the shape |
| Service.Service.RestoreCapacity | crates/pt-control-plane/src/service.rs:322-332 | from empty counters and stored reservations, every counter becomes exact |
| Service.Service.ApplyRebalance | crates/pt-control-plane/src/service.rs:763-782 | switching rebalancing off exchanges the moved split for the contract's, on pools that serve; the reservation is otherwise as the request leaves it |
| Service.Service.ApplyTier | crates/pt-control-plane/src/service.rs:788-807 | before the term the new tier is held at once on the same pools; after, it is kept for the next term, or a kept one is withdrawn |
| Service.Service.ApplyRegions | crates/pt-control-plane/src/service.rs:809-891 | before the term a new split is taken afresh, after it an increase at once; anything else is kept for the next term, and nothing is sold while sales are paused |
| Service.Service.ApplyShape | crates/pt-control-plane/src/service.rs:893-900 | a new shape is taken only if every pool held on serves it |
| Service.Service.ApplyUpdate | crates/pt-control-plane/src/service.rs:727-939 | every step keeps the counters what the reservation holds so far, with a log whose releases the old shape serves; on success the reservation is what the request asks, placements aside; if the pools it held all serve the new shape, so are the releases; what it answers and which oversold counters are lower by then is said beforehand |
| Service.Service.RollBack | crates/pt-control-plane/src/service.rs:2145-2160 | with a shape that serves the log, a failed change is undone to the very counters before it if and only if no pool it took something off was oversold; otherwise a counter of the reservation stays lower |
| Service.Service.Create | crates/pt-control-plane/src/service.rs:513-620 | sold if and only if sales are open, the footprint's claims fit when the term starts, and it is saved; which error otherwise. Success adds exactly the reservation asked for, placed as the planner says, with every counter exact and every pool it raised within its size at the term's start; failure leaves store and counters as they were |
| Service.Service.Update | crates/pt-control-plane/src/service.rs:661-725 | success saves every field as the request and the old reservation say, pending changes included, keeps every counter exact, and leaves every pool it raised within its size when the capacity is first used. Which refusal it answers, or that there is no next term for it, is said beforehand, and otherwise it fails only if its save does. A failed one that got to the planner restores every counter if and only if no pool it took anything off was oversold and, unless it was refused, every pool the reservation was on serves the new shape; otherwise a counter of the reservation is lower than before |
| Service.Service.Delete | crates/pt-control-plane/src/service.rs:941-985 | before the term it is cancelled and gives everything back, after it is left to end without renewal; one over or to end already is left alone; every counter stays exact |
| Service.Service.Persist | crates/pt-control-plane/src/service.rs:988-999 | saving a reservation whose counters were exchanged forgets stale placements and keeps every counter exact |
| Service.Service.MoveToPool | crates/pt-control-plane/src/service.rs:1949-2003 | answered from the state before: invalid for a reservation that is over, a region not held or a pool there is not; nothing to do if it is there; refused as the planner refuses the region's share on that pool from the later of term start and now; not saved; or done: the region is on the named pool with the same size, the others where they were, every counter exact. A failed save restores every counter if and only if the region's old pool is not oversold, and otherwise leaves it lower |
| Service.Service.RenewSwap | crates/pt-control-plane/src/service.rs:1827-1895 | counters and shares are those of `SwapOut`: a scheduled change is taken and logged exactly when it fits with the old holding released, and otherwise the old holding is put back, exactly if no pool it draws on is oversold |
| Service.Service.RenewRegions | crates/pt-control-plane/src/service.rs:1829-1867 | the split kept for the next term is taken afresh if it fits, and otherwise the reservation is as it was; whether the put-back went through |
| Service.Service.RenewTier | crates/pt-control-plane/src/service.rs:1868-1902 | the tier kept for the next term is taken on the same pools if it fits, and otherwise stays |
| Service.Service.Renew | crates/pt-control-plane/src/service.rs:1827-1928 | reservation and counters are those of `Renewed`: the split, then the tier, each if it fits, then the next term; counters exact if no put-back failed, which is said beforehand by `RenewSafe` |
| Service.Service.Turns | crates/pt-control-plane/src/service.rs:1762-1804 | reservation and counters are those of `AllTurns`: a due reservation is started, renewed into the term that `now` falls in, or ended; whether any put-back fails is said beforehand by `TurnsSafe` |
| Service.Service.Lifecycle | crates/pt-control-plane/src/service.rs:1753-1825 | a saved turn stores what `AllTurns` says; every counter is exact if and only if the reservation draws on no oversold pool, or the change kept for it fits, or the tier kept with it rescues it, and otherwise a counter is short; where none is, every pool raised is within its size when the next term starts; an unsaved turn restores the counters if and only if the reservation draws on no oversold pool or nothing was due to change |
| Service.Service.Rebalance | crates/pt-control-plane/src/service.rs:1532-1582 | answered from the state before: left alone if it does not let itself be moved, has one region, is not in a term or is split like that; refused if and only if some growing region fits nowhere; not saved; or moved, with split and headroom as given. Success keeps every counter exact; a failed save restores them if and only if no pool the move took anything off was oversold, and otherwise leaves one lower; a move that does not fit is left exactly where it stopped |
| Losses.StoppedTooLowIff | crates/pt-control-plane/src/service.rs:1541-1554 | after a rebalancing move that stopped, a counter is below what its reservations hold if and only if the reservation holds capacity there and, on the counters before the move, its growth does not fit on that pool while every growing region up to it fits somewhere |
| Losses.StopsIff | crates/pt-control-plane/src/service.rs:1541-1554 | such a move stops if and only if some growing region fits nowhere on the counters before it |
| Losses.StoppedAtTheFirst | crates/pt-control-plane/src/service.rs:1541-1554 | when at most one region grows, a rebalancing move that stops has changed nothing |
| Losses.DroppedLogLosesCapacity | crates/pt-control-plane/src/service.rs:1541-1554 | a concrete demand, the split it moves a contract to, and the move to it, after which a pool's counter is short of what the unchanged reservation holds there |
| Losses.FailedSaveLosesCapacity | crates/pt-control-plane/src/service.rs:661-725 | a family of update requests, to another region with a larger shape or from an oversold pool, whose failed save leaves a counter short of the unchanged reservation |
| Losses.RenewalLosesCapacity | crates/pt-control-plane/src/service.rs:1827-1867 | a concrete renewal on a pool that has shrunk, whose change does not fit, after which the counter is short of the renewed reservation |
| Publication.VersionStore.BumpVersion | crates/pt-control-plane/src/store.rs:414-418 | the version strictly increases and reaches at least the given one |
| Publication.Publisher.Bump | crates/pt-control-plane/src/service.rs:346-354 | the store strictly increases, to at least the clock; the instance is then at least there and never behind where it was |
| Publication.Publisher.SyncVersion | crates/pt-control-plane/src/service.rs:282-292 | the instance is at least at the store's version and at least where it was, and returns that version |
| Publication.Entitlements.Check | crates/pt-gateway/src/state.rs:495-500 | a snapshot is turned away before it is built if and only if a swap would leave the slot as it is, and then it would be at any later slot too |
| Publication.Entitlements.Swap | crates/pt-gateway/src/state.rs:510-519 | whatever was applied meanwhile, only a newer snapshot replaces the slot, and the version never decreases |
| Publication.StepKeepsSound | crates/pt-control-plane/src/service.rs:282-376 | every interleaved step keeps: no instance ahead of the store, and every label, read and snapshot complete for its version |
| Publication.RunIsSound | crates/pt-control-plane/src/service.rs:282-376 | that holds in every state of every run in which no instance starts ahead of the store |
| Publication.SafePublication | crates/pt-control-plane/src/service.rs:359-376 | in every such run no snapshot and no gateway misses a change published, or committed before any bump, at its version or below |
| Publication.GatewayAtSharedVersion | crates/pt-gateway/src/state.rs:477-520 | a gateway at the shared version has every published change |
| Publication.GatewayVersionsGrow | crates/pt-gateway/src/state.rs:477-520 | over every run no gateway's version decreases |
| Publication.SnapshotsAreFresh | crates/pt-control-plane/src/service.rs:282-376 | in every run, a snapshot's version is at least the store's when its read began, and it holds every change committed before that |
| Publication.GatewayTakesNewer | crates/pt-gateway/src/state.rs:477-520 | a gateway behind a snapshot there is can fetch it, and applying it then puts that very snapshot in the slot |
| Publication.ClockBackMisses | crates/pt-control-plane/src/service.rs:255-278 | a run in which a clock went back before the first bump, and which can go on to miss a published change |
| Publication.SafeIffStartsBehind | crates/pt-control-plane/src/service.rs:255-376 | in every run, each instance's start version is at most the store's after its first bump if and only if at no moment of the run can a published change still come to be missed |
| Publication.ForwardClocksAreSafe | crates/pt-control-plane/src/service.rs:255-376 | clocks that do not go back between start and first bump are enough |
| Bucket.DebtBucket.Refill | crates/pt-admission/src/bucket.rs:50-57 | level, clock and overflow after refilling to `now` |
| Bucket.DebtBucket.Wait | crates/pt-admission/src/bucket.rs:69-82 | the wait reported, capped at 60 s |
| Bucket.RefillEarns | crates/pt-admission/src/bucket.rs:50-57 | refilling earns exactly rate times the time elapsed, part level and part overflow |
| Bucket.WaitIsEnough | crates/pt-admission/src/bucket.rs:69-82 | below the cap, after the wait the request is admitted, if the bucket can hold anything |
| Bucket.WaitIsNeeded | crates/pt-admission/src/bucket.rs:69-82 | waiting less, by what the epsilon takes to refill, is not enough |
| Bucket.NeverAdmits | crates/pt-admission/src/bucket.rs:64-66 | a bucket with no capacity, or no rate and no balance, never admits |
| Burst.BurstBank.Rescale | crates/pt-admission/src/burst.rs:39-44 | credit and ceiling level carry over, clamped to the new limits |
| Burst.BurstBank.Draws | crates/pt-admission/src/burst.rs:51-59 | whether a draw is allowed, by credit, reserve and ceiling |
| Burst.WindowBalance | crates/pt-admission/src/burst.rs:21-64 | over any window the ceiling's level and what was drawn are covered by its level at the start and the extra rate over the time refilled |
| Burst.WindowFloor | crates/pt-admission/src/burst.rs:51-64 | if anything was drawn the ceiling ends no lower than the largest request past the smallest capacity |
| Burst.BurstCeiling | crates/pt-admission/src/burst.rs:21-64 | over any window, resizes included, what is drawn is at most the extra rate over the time the ceiling is refilled for, plus the ceiling's capacity at its start, plus the excess of the largest request over the smallest capacity |
| Burst.ExtraOnceIff | crates/pt-admission/src/burst.rs:21-64 | over any window, that is the extra rate's integral over the time that passed if and only if no step refills, at a rate above zero, time the ceiling had already been given; and never less |
| Burst.BurstCeilingInTime | crates/pt-admission/src/burst.rs:21-64 | with no resize dated before a moment already refilled to, the bound is on the time that really passed |
| Burst.DueAtMost | crates/pt-admission/src/burst.rs:21-64 | and that integral is at most the largest extra rate times the time from the window's start to its end |
| Burst.BackdatedRescaleBreaksTheCeiling | crates/pt-admission/src/burst.rs:39-44 | a concrete window of one second with a resize dated back by it, in which three WU are drawn of an extra rate of one and a ceiling of one |
| Limiter.ReservationLimiter.TryAdmit | crates/pt-admission/src/limiter.rs:188-247 | state and decision of one attempt: bucket, burst, queue, spillover, reject, in that order, and each exactly when what comes before has no room |
| Limiter.ReservationLimiter.AtBoundary | crates/pt-admission/src/limiter.rs:211-246 | queue only before the deadline and within the depth; the reason given otherwise |
| Limiter.ReservationLimiter.Reconfigure | crates/pt-admission/src/limiter.rs:156-180 | level and credit carry over, clamped; an unchanged configuration changes nothing |
| Limiter.ReservationLimiter.SettleTicket | crates/pt-admission/src/limiter.rs:250-264 | bucket or bank, whichever the request drew on, is refilled to `now` and then takes back or pays the difference, up to its limit |
| Limiter.ReservationLimiter.DropSlot | crates/pt-admission/src/limiter.rs:72-77 | a dropped slot gives its depth back |
| Limiter.AdmitBound | crates/pt-admission/src/limiter.rs:188-247 | an attempt never raises consumption plus level plus credit by more than was earned |
| Limiter.ResizeBound | crates/pt-admission/src/limiter.rs:156-180 | nor does a resize, but for overdrawn credit that it drops with the burst policy |
| Limiter.EntitlementBound | crates/pt-admission/src/limiter.rs:100-264 | in every run, provisioned plus burst WU is at most the rate over the time refilled plus the initial capacity plus what was forgiven, less level and credit; and the queue's depth is its slots' sum |
| Limiter.ExactBalance | crates/pt-admission/src/limiter.rs:100-264 | in every run, provisioned and burst WU, level, credit and what overflowed a limit add up to exactly what was earned, forgiven and there at first: nothing is lost or made otherwise |
| Limiter.SettledIs | crates/pt-admission/src/limiter.rs:250-264 | what a settlement refunds or takes, to the WU, and what it loses at the limit |
| Limiter.AdmittedIs | crates/pt-admission/src/limiter.rs:188-247 | which answer an attempt gets and with what reason, from level, credit, reserve, queue and times alone |
| Limiter.ReserveIsKept | crates/pt-admission/src/limiter.rs:196-210 | a burst draw never overdraws the bank, and one that is not a continuation leaves the reserve in it |
| Limiter.QueueWithinDepth | crates/pt-admission/src/limiter.rs:216-237 | at a fixed setting the queue never holds more than its depth, in every run |
| Limiter.ResizeCarries | crates/pt-admission/src/limiter.rs:156-180 | what a resize carries over, and what it cuts off |
| Limiter.ResizeBanks | crates/pt-admission/src/limiter.rs:156-180 | and of the bank |
| Limiter.ForgivenIff | crates/pt-admission/src/limiter.rs:156-264 | nothing is forgiven if and only if no resize drops the burst policy while its credit is overdrawn, and no burst request is settled above its estimate once its bank is gone |
| Limiter.KeptPolicyBound | crates/pt-admission/src/limiter.rs:156-264 | in every run that keeps the burst policy nothing is forgiven |
| Limiter.DroppedPolicyForgives | crates/pt-admission/src/limiter.rs:171-175 | concrete runs, a burst request settled at twice its estimate before the policy is dropped or after, in which thirty WU are used of an entitlement to twenty and nothing is owed |
| Limiter.EarnedOnceIff | crates/pt-admission/src/limiter.rs:156-264 | in every run, what was earned is the rate's integral over the time that passed if and only if no call refills, at a rate above zero, time the bucket had already been given; and never less |
| Limiter.ForwardEarnsOnce | crates/pt-admission/src/limiter.rs:100-264 | with no resize dated before a moment already refilled to, that never happens, and the bound is on the time that really passed |
| Limiter.BackdatingIff | crates/pt-admission/src/limiter.rs:156-180 | after a resize to a rate above zero, every later call earns just the time that passed if and only if the resize was not dated back |
| Limiter.BackdatedResizeEarnsTwice | crates/pt-admission/src/limiter.rs:156-180 | a concrete run with a resize dated back by ten seconds in which thirty WU are admitted against an entitlement of twenty |
| Limiter.BucketClockIsNotEnough | crates/pt-admission/src/limiter.rs:156-180 | comparing a resize with the bucket's own clock is not enough: after one dated back to a rate of zero, a resize later than that clock still earns time twice |
| Limiter.QueueDepthIsOutstanding | crates/pt-admission/src/limiter.rs:72-77 | `queued_wu` is always what the outstanding slots hold |
| Limiter.FixedConfigBound | crates/pt-admission/src/limiter.rs:100-264 | at a fixed configuration with no settlement above its estimate, it is at most rate times time, plus capacity, plus the debt bound or the largest estimate's excess |
| Limiter.QueuedBeforeDeadline | crates/pt-admission/src/limiter.rs:216-237 | a queued request is before its deadline and waits between 1 and 50 ms |
| Limiter.LeavesTheQueue | crates/pt-admission/src/limiter.rs:211-237 | a caller that waits out each slot is queued at most deadline_ms times, whatever others do |
| Scheduler.Admit | crates/pt-mock-engine/src/contention.rs:144-157 | the loop admits a prefix of the queue, each next one because the batch has a place and the cache has room for it or the batch is empty, and stops only when it is not so; admission numbers go on by one |
| Scheduler.Prefill | crates/pt-mock-engine/src/contention.rs:163-174 | the loop spends the step's prefill budget in batch order: a sequence gets all it needs or what is left, and one gets nothing only when nothing is left |
| Scheduler.Emit | crates/pt-mock-engine/src/contention.rs:180-190 | every sequence with no prefill left gets a token, or is dropped if its client is gone; all others stay as they are |
| Scheduler.Evict | crates/pt-mock-engine/src/contention.rs:192-206 | the loop evicts the most recently admitted to the head of the queue, oldest first, to recompute all they had, and no more than had to |
| Scheduler.AdmittedIs | crates/pt-mock-engine/src/contention.rs:144-157 | admission, from queue, batch and limits alone |
| Scheduler.PrefilledIs | crates/pt-mock-engine/src/contention.rs:163-174 | prefill, sequence by sequence |
| Scheduler.EvictedIs | crates/pt-mock-engine/src/contention.rs:192-206 | eviction: who goes, in what order, and that none had to stay or go otherwise |
| Scheduler.OneStep | crates/pt-mock-engine/src/contention.rs:144-207 | one pass of the loop is these four, one after another, and what finished is apart from what stays |
| Scheduler.TakeArrivals | crates/pt-mock-engine/src/contention.rs:132-142 | arrivals join the queue in order, none twice; the loop waits for one only when it has nothing to do |
| Scheduler.StepKeepsTally | crates/pt-mock-engine/src/contention.rs:130-207 | a step neither loses nor doubles a sequence |
| Scheduler.EvictsOnlyAfterEmitting | crates/pt-mock-engine/src/contention.rs:180-206 | a step that emits nothing evicts nothing |
| Scheduler.StepDecreases | crates/pt-mock-engine/src/contention.rs:130-207 | every step leaves fewer tokens owed, or as many and less prefill |
| Scheduler.OldestStays | crates/pt-mock-engine/src/contention.rs:192-206 | the oldest running sequence is never evicted |
| Scheduler.Run | crates/pt-mock-engine/src/contention.rs:116-208 | the scheduler terminates with every submission finished exactly once, its client having got the whole output or all it took |
| Scheduler.LiveClientGetsAll | crates/pt-mock-engine/src/contention.rs:116-208 | a client that stays gets exactly the output it asked for |
| Scheduler.NoRoomStalls | crates/pt-mock-engine/src/contention.rs:146-160 | with a batch of none nothing ever moves |
| Scheduler.ZeroChunkStalls | crates/pt-mock-engine/src/contention.rs:163-174 | with a zero chunk a batch in prefill never moves |
| PrefixCache.Index.Record | crates/pt-admission/src/prefix.rs:181-200 | after any calls the index is the longest suffix of the whole write history with at most 2 capacity writes and capacity keys, each key at its last write; the keys of the last `capacity` writes are always in it |
| PrefixCache.Index.DropFront | crates/pt-admission/src/prefix.rs:192-199 | one eviction drops the oldest write, and its key exactly when that was its last |
| PrefixCache.NeverDry | crates/pt-admission/src/prefix.rs:192-196 | the eviction loop always has a write to drop |
| PrefixCache.KeepsTheLatest | crates/pt-admission/src/prefix.rs:192-199 | eviction never reaches the last `capacity` writes |
| PrefixCache.SeenCounts | crates/pt-admission/src/prefix.rs:112-121 | the keys indexed are exactly those of the suffix |
| PrefixCache.Index.IsFresh | crates/pt-admission/src/prefix.rs:146-150 | fresh means last written within the time to live and not evicted since |
| Rebalance.FindReceiver | crates/pt-control-plane/src/rebalance.rs:52-60 | the busiest region that may grow, the last on a tie |
| Rebalance.FindDonor | crates/pt-control-plane/src/rebalance.rs:63-72 | the quietest other region that may shrink, the first on a tie |
| Rebalance.BusyNeverDonates | crates/pt-control-plane/src/rebalance.rs:63-80 | a region that has received a CU is never the next donor |
| Rebalance.BusyStays | crates/pt-control-plane/src/rebalance.rs:49-84 | that stays so through every later move |
| Rebalance.TargetSplit | crates/pt-control-plane/src/rebalance.rs:36-86 | total CUs are kept, every region has at least 1 and is within max_shift of its contract, the highest load is never raised, no receiver later donates, and it stops when its own next move does not gain or the shift is used up |
| Rebalance.OneTarget | crates/pt-control-plane/src/rebalance.rs:36-86 | demand and contract determine the split |
| Rebalance.NoneGainsIff | crates/pt-control-plane/src/rebalance.rs:49-80 | no move at all gains if and only if none to the busiest region that may grow does |
| Rebalance.BestIff | crates/pt-control-plane/src/rebalance.rs:49-80 | no move at all gains if and only if every region that may shrink, not just the quietest, would one CU lighter come within the least gain of the busiest that may grow; and then the loop has no next move |
| Rebalance.SettledIsBest | crates/pt-control-plane/src/rebalance.rs:49-80 | where the quietest region is also the quietest one CU lighter, the loop has no next move if and only if no move at all gains |
| Rebalance.StopsShort | crates/pt-control-plane/src/rebalance.rs:63-80 | a concrete contract and demand where the loop stops at once though a move would gain |
| Rebalance.TargetIsWhole | crates/pt-control-plane/src/rebalance.rs:36-86 | the result is a split the service accepts |
| Billing.RateTimeline | crates/pt-control-plane/src/billing.rs:144-239 | the loop over sorted events computes the timeline |
| Billing.TimelineOrdered | crates/pt-control-plane/src/billing.rs:144-239 | segments are in order, apart and not empty, and none runs past `until` |
| Billing.Truncation | crates/pt-control-plane/src/billing.rs:144-239 | the timeline to an earlier moment is the later one cut short there if and only if it is not so that a cancelled term ran out before that moment, a stretch is open there, and an event up to the later moment closes it |
| Billing.CreatedOnceIsFirst | crates/pt-control-plane/src/service.rs:555-572 | with one `Created` event, first and none earlier, `Created` never comes while billing, as truncation asks |
| Billing.RateIsCharged | crates/pt-control-plane/src/billing.rs:144-239 | the rate billed at an instant is the one the events up to it leave in force, and none after a cancelled term, if and only if it is not so that a cancelled term ran out by then, a stretch is still open, and a later event closes it |
| Billing.LatestIs | crates/pt-control-plane/src/billing.rs:172-220 | what `Latest` takes is what the last event that says anything says |
| Billing.ChargedIs | crates/pt-control-plane/src/billing.rs:172-220 | what events leave in force: billing as last started or stopped, the tier last named, the CUs last named plus what was added since, and the price last given, or the list price of that tier and those CUs where the event gave none |
| Billing.ChargeAtIs | crates/pt-control-plane/src/billing.rs:144-239 | so the rate of an account at an instant, from its events up to then |
| Billing.MonthsSplit | crates/pt-control-plane/src/billing.rs:242-278 | consecutive months bill every instant in its own month only, at the timeline's rate, if and only if a cancelled term is not billed past its end in the first of them; and their times add up if and only if that is so |
| Billing.MonthIsFrozen | crates/pt-control-plane/src/billing.rs:242-278 | where the first activation says its CUs and tier, events at or after a month's end, and whatever they changed, leave its lines alone if and only if the stretch open by then, if any, is billed in the month to the same moment before and after |
| Billing.PastTheTermEnd | crates/pt-control-plane/src/billing.rs:222-238 | a concrete cancelled reservation, increased after its term ran out and before that was noticed, that is then billed for the time between |
| Sse.FirstEnd | crates/pt-gateway/src/sse.rs:126-133 | the end found is the first place where two LFs or two CRLFs end; none means there is none |
| Sse.FindEndStable | crates/pt-gateway/src/sse.rs:126-133 | more bytes never change an end already found |
| Sse.EventsAreTheStream | crates/pt-gateway/src/sse.rs:60-70 | the events and what is left are the stream, byte for byte |
| Sse.EventsAreSingle | crates/pt-gateway/src/sse.rs:126-133 | each event runs up to its first blank line and no further, and what is left has none |
| Sse.EventsResume | crates/pt-gateway/src/sse.rs:60-70 | reading on from what was left finds the same events as reading the whole |
| Sse.SseInspector.Push | crates/pt-gateway/src/sse.rs:60-70 | forwards the complete events not stripped and keeps the rest, which holds no complete event; usage is the last one these events report, and every event with content is counted and timed |
| Sse.SseInspector.Finish | crates/pt-gateway/src/sse.rs:73-75 | flushes what is left |
| Sse.ChunksAreTheWhole | crates/pt-gateway/src/sse.rs:60-75 | however a stream is cut, what is kept, forwarded and observed is that of the whole |
| Sse.ChunkingDoesNotMatter | crates/pt-gateway/src/sse.rs:60-75 | two cuttings of one stream forward the same bytes and see the same usage and content count |
| Sse.SeenOfTheStream | crates/pt-gateway/src/sse.rs:78-119 | however a stream is cut: the usage kept is the last one reported, every event with content is counted once, and the first and last are timed by the push they came with |
| Sse.ForwardedOfTheStream | crates/pt-gateway/src/sse.rs:60-119 | however a stream is cut, the client gets all its events in order but, with stripping on, exactly those that report usage and nothing else |
| Sse.UnchangedWithoutStripping | crates/pt-gateway/src/sse.rs:60-75 | with stripping off the client gets exactly what the engine sent |

## Left out

- HTTP, TLS, signing, Kubernetes leases, SQL text, DNS, file caches: input and output; a SQL transaction is one atomic step and a verified snapshot is given.
- Floating point: WU, rates, loads, weights and times are reals, so a wait that rounds to zero nanoseconds, and rounded money amounts, are not modelled.
- 64-bit and 32-bit overflow of micro-replicas, CUs, tokens and versions, except the u32 cap on `available`.
- Lost or ambiguous lease writes, a replica that reuses an identity, and clocks that run at different rates.
- Interleaved service operations: each create, update, delete, lifecycle turn, pool move and rebalancing step is taken on its own, as the claim is made; a lost race is a save that fails.
- Names, tenants, idempotency keys, API keys, prices, endpoints, events' text, and sales holds beyond whether sales are open.
- Calendar arithmetic: the end of the next term is a parameter, later than its start.
- The SQL planner's `restore` and `reconcile`, and its handling of pools no longer configured.
- Region status from heartbeats, per-reservation DNS targets, and automatic incident detection.
- Quota leases, routing, hit-rate learning and output estimation.
- What one server-sent event says: parsing is a parameter.
- Invoices beyond a reservation's fee lines: spillover, credits, totals.
- Scheduler.Run: requires a batch of at least one and a chunk of at least one, because with none the loop never ends (Scheduler.NoRoomStalls, Scheduler.ZeroChunkStalls).
- Bucket.WaitIsEnough: requires a capacity above zero, because a bucket without one never admits (Bucket.NeverAdmits).
