# Quota proxy: a verified model

The repository is a proxy in front of a Proxmox VE API that admits or refuses writes by per-user
quota. This project models its hard core in Dafny and proves one central claim and what it rests on:
**whatever the concurrent requests of any number of users do, and whatever anyone destroys or shrinks
behind the proxy's back, the recomputed usage of a pool never passes the larger of its initial usage
and its owner's base limit, as long as no settle ends before its own write is applied, what is applied
is what its delta bounds, and nobody takes anything off a guest between the read of its config and the
verdict on the write**; a storage that the quota does not list never grows. All three conditions are needed. A settle
takes anyone's edit of the guest for its own write, and then a pool can overshoot without any timeout
(`EarlySettle`); for almost every action there are inputs on which the delta falls short
(`Counterexamples`); and a delta computed on an out-of-date config, with usage read afterwards, admits too
much (`StaleRead`). Without them, in every run, usage exceeds the limit by at most what the writes given
up on count for and what the others overshot by; if creates, clones and restores that are applied as
checked are all that is requested, that is the total positive delta of the writes whose settle timed out
(`Creations`).

`dafny verify dfyconfig.toml` checks everything.

## Layers

| module | what it holds |
|---|---|
| `Wrappers`, `MapSums`, `GoStrings` | options; sums over finite maps that do not depend on an order; the parts of Go's `strings` and `strconv` that the parsers use |
| `Accounting` | disk specs, sizes, and `Foot`, the plain footprint of one guest in one dimension |
| `Engine` | the accounting scan with its listing cache, over an upstream that may change between reads |
| `Deltas`, `Landing` | the increase each write is checked for; what the write does once applied; how the two compare |
| `Quota` | validation of the quota file; the store and its hot reload as a state machine |
| `Admission` | limits, the verdict, decisions, the settle loops, the lock registry |
| `Deciding` | `decide` run with the program's loops, proved equal to the functions used elsewhere |
| `Tasks`, `Protocol` | guests, writes on their way, and the step system of requests, locks and upstream |
| `Safety` | the invariant over all runs: bounded degradation and quota safety |
| `Boxes`, `EarlySettle`, `StaleRead` | concrete containers and the steps of two users' tools on them; the run in which a neutral edit ends a settle early and the pool overshoots; the runs in which a config read before the usage is out of date at the verdict |
| `Creations` | runs of creates, clones and restores, and lost creations in any run: bounded degradation as the sum of deltas |
| `Serial` | mutual exclusion, current decisions, and the refinement of the serial system |
| `Reading` | the scan made inside the protocol, also while lost writes land: why the usage a decision sees is too low by no more than those count for |
| `Progress` | no stuck state, bounded steps per request, every answer releases the lock |
| `Classify` | the path classifier, its round trip and its insensitivity to envelope and trailing slash |
| `Mediation`, `Counters` | the handler effect by effect; complete mediation; the counters under any interleaving |
| `Alarm` | the reconciliation alarm as a second statement of the limits |
| `DiskSpecs`, `Machines`, `Charges` | printing and parsing disk specs; guests and requests as a person would describe them, what accounting makes of their printed configs and what the printed requests are charged |
| `EndToEnd` | calls on printed paths: decided on what the endpoint means, forwarded exactly if the record leaves room |
| `Refinement` | what a request does in a run of the step system is what the handler does for it |
| `Counterexamples` | inputs on which a delta or a comparison falls short |

Usage is read one dimension at a time (`Dim`: cores, memory, instances, bytes on one storage), so a
statement about `PoolUsage(s, pool, d)` covers every dimension and every storage at once.

## What the run-level theorems assume

- Enforcing, failing closed, and users who are not admins.
- One valid quota file during the run; for the ceiling to be the base limit, node overrides that only
  narrow. `NarrowsExactly` shows what narrowing means for the verdict, and `OverrideWidens` that the
  code does not enforce it: the comment in `internal/quota/quota.go` says that an override narrows,
  the code replaces the limit.
- Storage listings can be read (an unreadable one counts as empty), node names contain no slash, sizes
  and listing entries are non-negative, entries only shrink, integers do not overflow, and no guest
  migrates during a scan.
- A landing is atomic, and may leave the guest as anything of the same pool; a status of 300 or more
  means nothing was applied; new guests have fresh ids. The upstream works on one write per guest at a
  time, on guests of the user's own pool. A write whose delta is not positive has been applied when its
  response returns, since it is not waited for.
- Others may at any time destroy any guest, and replace any guest by one of the same pool that weighs no
  more under any non-negative listings, also while a write on it is pending. That includes the user's own
  requests that take no lock, such as `unlink`.
- The config and the other things a decision looks up are read in one step, the usage scan comes after
  it, and then the verdict: three points in time, between which anyone may do anything. `Reading` derives
  what the protocol asks of the scan from the contract of `UserUsage`, whatever lands meanwhile. The
  upstream takes an allowed write up at the verdict, or later if it cannot work on the guest at that
  moment; that is when the write is admitted, below.
- The upstream makes a new drive at the size that the order states, also where it gives a count beside it
  ("st:100,size=1G"), as the delta charges it.

A settle that ends, on a poll or by timeout, while its own write is still pending has lost it. Bounded
degradation holds for all these runs. Quota safety and serial equivalence are for runs in which no write
is lost (`NothingLost`), every write is admitted on a guest that weighs no less than when its decision
read it (`ReadsHold`), and what is applied is what its delta bounds (`AsChecked`): creates and edits
whose attached volumes and overwriting orders are covered by the drives written over, resizes of sized
drives (or relative ones), moves of sized drives (or weightless ones) whose leftover weighs no more than
the drive did, rollbacks that bring back no heavier unsized volumes, clones and restores that copy what
states its size; each on the guest decided on, or on one whose settings others lowered one by one and
whose drives they dropped (`Lighter`). `Landing` proves for each action that this is exactly where the
delta is a bound, and how far every other landing departs.

## Properties that turned out false

Each has a lemma with inputs on which it fails and the exact condition under which it holds.

| claim | fails on | holds exactly when |
|---|---|---|
| a settle that ends on an observation saw its own write applied | `EarlySettleOvershoots`, `StaleSettleEndsEarly` | `ObservedIsLanded`, and over runs `ObservationsSuffice`: nobody touches a guest from the read of a decision until its write is applied (one way) |
| usage stays within the limit whenever nothing times out and deltas are bounds | `EarlySettleOvershoots` | `QuotaSafety`: no settle ends before its own write is applied (one way) |
| usage stays within the limit whenever no write is lost and deltas are bounds | `StaleReadOvershoots` | `QuotaSafety`: nobody takes anything off a guest between the config read and the admission (one way); `StaleReadsBound`: otherwise by no more than was taken off there |
| a guest made smaller is still within its reserve after the pending write | `RebalancingEscapes` | `DecidedDeltaCovers`: every setting was lowered (one way) |
| a write whose landing its delta bounds counts for its increase only, when its settle gave up on it | `ScanMissesRewrite` | `FirmOverIsLeast`: exactly what more it counts for; nothing in the cases of `FirmWhen` and `NewGuestIsFirm` |
| a create's delta bounds the new guest | `AttachingEscapes` | `CreateDeltaSound`, `CreatedLiterally` |
| an edit's delta bounds its growth | `OverwritingEscapes`, `AttachingEscapes` | `ConfigDeltaSound`, `MergeDeltaSound` |
| a resize delta bounds the growth | `UnsizedResizeEscapes` | `ResizeDeltaSound` |
| a move delta bounds the growth | `MoveInPlaceEscapes`, `UnsizedMoveEscapes` | `MoveDeltaSound` |
| a rollback delta bounds the growth | `UnsizedRollbackEscapes` | `RollbackDeltaSound` |
| a restore delta bounds a redirected restore | `RedirectedRestoreEscapes` | `RestoreRedirected` |
| overrides narrow | `OverrideWidens` | `NarrowsExactly` |
| two listings never share a cache slot | `SlashCollides` | `CacheKeyCollision` |
| the config comparison sees every change | `EmptyEntryUnseen` | `SameConfigExact` |
| a reload never loses an update | `SameTimeLosesTheUpdate` | `UpdateLostExactly`: no earlier version has the last one's modification time with a good version of other contents from then on, or a broken one that leaves such a config in place (distinct times suffice) |
| the GiB round-ups coincide | `RoundUpsDiffer` | `RoundUpsCoincide` |
| the alarm agrees with admission | `EmptyEntryAlarms` | `AlarmAgrees` |

## Model

| member | source | states |
|---|---|---|
| Safety.QuotaSafety | internal/admission/admission.go:123-179 | In every state of every run in which no settle ends before its own write is applied, what is applied is what its delta bounds, and nobody takes anything off a guest between a decision's config read and the admission of its write, any interleaving of any requests and of an environment that otherwise destroys and shrinks guests, also those being worked on, keeps a pool's usage, in every dimension and storage, within its ceiling |
| Safety.BoundedDegradation | internal/admission/admission.go:172-177 | In every state of every run, whatever writes do when applied, whenever settles end and however old what a decision read, usage plus all increases pending or granted stays within the ceiling, plus what lost writes count for (their increases, what others took off their guests, the most they may overshoot by as listings shrink), plus what the other writes overshot by over the guests they were admitted on |
| Safety.StaleReadsBound | internal/admission/admission.go:237-320 | Where no settle ends early and what is applied is what its delta bounds, usage exceeds the ceiling by at most what others took off guests between config reads and admissions |
| Safety.OvershotIsStale | internal/admission/admission.go:237-320 | Where what is applied is what its delta bounds, all it overshoots by is what was taken off its guests between config reads and admissions |
| Safety.ObservationsSuffice | internal/admission/admission.go:373-413 | If nobody touches a guest from the config read of a decision until its write is applied, no settle that ends on an observation ends too early: only timeouts lose writes |
| EarlySettle.EarlySettleOvershoots | internal/admission/admission.go:390-401 | A run in which every decision is taken on the true usage and the guest as it is, nothing times out and nobody raises anything: an edit that changes no pool's usage ends the settle of the pending write at the next step, the next write is admitted, and the pool ends above its ceiling |
| StaleRead.StaleReadOvershoots | internal/admission/admission.go:237-253 | A run in which no write is lost, what is applied is what was checked and every scan returns the true usage: a config read at two cores, lowered to one before the scan, lets the pool of three end at four |
| StaleRead.StaleSettleEndsEarly | internal/admission/admission.go:388-401 | A run in which nobody touches a guest with a pending write and nothing times out, yet a settle ends early: the config it compares with was out of date at the verdict |
| Creations.CreationsDegrade | internal/admission/admission.go:172-177 | In runs of creates, clones and restores, with anyone destroying and shrinking, applied as their deltas bound them, usage plus all increases pending or granted is at most the ceiling plus the total positive delta of the writes whose settle ended before they were applied |
| Creations.LostDeltasBound | internal/admission/admission.go:172-177 | The same in runs of any writes decided on what still holds, as long as every lost write makes a guest |
| Creations.LostCreationsCount | internal/admission/admission.go:287-305 | What lost creations count for is exactly the sum of their positive deltas, whenever they are applied and whatever shrinks meanwhile |
| Creations.CreationsSeenAreApplied | internal/admission/admission.go:375-386 | In runs of creates, clones and restores a settle that ends on an observation never ends early: only timeouts lose writes |
| Safety.CeilingOfUser | internal/admission/admission.go:322-371 | The ceiling of a user's pool is the larger of initial usage and base limit; without a limit it is the initial usage |
| Safety.BudgetKept | internal/admission/admission.go:157-178 | Every step of the protocol, by requests, upstream or anyone else, keeps usage plus pending and granted increases within the ceiling and the allowance for lost and overshooting writes |
| Safety.DecisionFits | internal/admission/admission.go:309-320 | An allowed verdict, on usage that misses at most what lost writes added, leaves each increase within the owner's base limit on the true usage with all that is pending, but for what the lost writes count for, however old the config it was computed on |
| Safety.BudgetDecided | internal/admission/admission.go:309-320 | A verdict keeps the budget: what it allows is counted from then on, whether the upstream takes it up at once or later |
| Safety.NothingGranted | internal/admission/admission.go:154-158 | While a request holds its lock undecided, nothing allowed earlier still waits to be taken up in its pool |
| Safety.PendingWithinLapsed | internal/admission/admission.go:154-178 | Where every pending write of a pool is lost, they may add at most what the lost ones count for, request by request |
| Safety.HolderAlone | internal/admission/admission.go:154-158 | While a request holds its lock undecided, every write still pending on its pool is a lost one |
| Safety.LandingReserves | internal/admission/admission.go:287-305 | A landing, on a guest as it is by then, turns what was reserved for the write, on the guest it was admitted on, into usage and adds what it overshoots by, guest by guest and pool by pool |
| Safety.StepReserves | internal/admission/admission.go:154-179 | Only the start of a write and landings let a guest id reserve more in a pool, whatever the listings: failures, destructions and shrinks do not |
| Safety.StepTotal | internal/admission/admission.go:154-179 | No step but the start of a write lets usage and pending increases grow by more than the allowance for lost and overshooting writes grows |
| Safety.NothingOvershot | internal/admission/admission.go:287-305 | In runs in which what is applied is what its delta bounds, and deltas are computed on what still holds, nothing overshoots |
| Safety.TrueUsageSuffices | internal/usage/engine.go:95-123 | A decision on the true usage, or more, sees enough whatever writes were lost |
| Protocol.LockKept | internal/admission/admission.go:157-178 | Every step keeps the correspondence between held locks and requests in their critical section |
| Protocol.TasksKept | internal/admission/admission.go:157-178 | Every step, verdicts on an out-of-date config included, keeps what is known of pending and lost writes: whose they are, that their delta covers them on the guest decided on, that their guest is as it was admitted on, or weighs no more, or is gone |
| Protocol.ViewsKept | internal/admission/admission.go:237-272 | Every step keeps what is known of what a request has read: answers that were true where they were read, of non-negative sizes, for the guest that its delta is computed on |
| Protocol.NewTaskOk | internal/admission/admission.go:209-272 | The write that an allowed decision starts, at the verdict or later, and however old its config read, is covered by the delta that was checked, on the guest decided on |
| Protocol.ObservedIsLanded | internal/admission/admission.go:373-413 | A settle that ends on an observation saw the request's own write, no longer pending, or else, on a guest being changed, somebody else's change of it |
| Protocol.StaysUndisturbed | internal/admission/admission.go:388-401 | As long as nobody touches a guest that a write is pending on, and writes are admitted on guests as they were decided on, every such guest is as it was decided on |
| Protocol.LandedStaysLanded | internal/admission/admission.go:373-413 | Once a request's write is no longer pending it never is again |
| Protocol.RunShape | internal/admission/admission.go:123-179 | Locks and pending writes are in order in every state of every run |
| Tasks.DecidedDeltaCovers | internal/admission/admission.go:209-272 | For all actions together: a delta computed from truthful reads covers every landing, also under listings that changed since and on a guest that others made lighter since |
| Tasks.LighterFoot | internal/usage/usage.go:62-90 | A guest whose settings were lowered one by one and drives dropped weighs no more, in any dimension and under any non-negative listings |
| Tasks.TakenOffLater | internal/usage/engine.go:111-120 | What is taken off a guest, by any replacement that weighs no more under all listings, weighs no more under smaller listings: footprints are linear in the listings |
| Tasks.FirmOverIsLeast | internal/usage/engine.go:106-137 | What a lost write may overshoot by is the least bound under all smaller listings |
| Tasks.FirmWhen | internal/usage/engine.go:106-137 | It is nothing when the delta bounds the landing under all smaller listings as well and was computed on what still held |
| Tasks.OvershootIsStale | internal/admission/admission.go:237-320 | A write whose landing its delta bounds overshoots by no more than what was taken off its guest between config read and admission |
| Tasks.EditCovers | internal/admission/delta.go:50-61 | An edit decided on one guest and applied to a lighter one ends within the guest decided on plus the delta, or at nothing |
| Serial.MutualExclusion | internal/admission/admission.go:154-158 | At most one request per pool is between lock and unlock |
| Serial.DecisionIsCurrent | internal/admission/admission.go:154-178 | With no write lost, a verdict is taken where all earlier admitted writes of the pool have landed or failed, and, given that state's usage, admits exactly the deltas that fit there |
| Serial.SerialEquivalence | internal/admission/admission.go:5-11 | Every step of a run in which no write is lost and deltas are computed on what still holds, if what it applies is what its delta bounds, is, on guests and volumes, nothing, a shrinking, or one write that a request of the run decided, fitting the state with its guest as admitted on, and applied to a guest as decided on or lighter |
| Serial.SerialStepSafe | internal/admission/admission.go:5-11 | A step of the serial system leaves a pool within its usage before, with the guest written to as it was admitted on, or within its owner's limit |
| Serial.InterferenceOnlyShrinks | internal/admission/admission.go:154-158 | While a request holds its lock undecided, and no write is lost, no step of anyone raises its pool's usage |
| Serial.OneTaskPerPool | internal/admission/admission.go:154-178 | With no write lost, at most one write of a pool is pending |
| Serial.RunFits | internal/admission/admission.go:322-350 | With no write lost, every pending or granted write would pass the check again, on its guest as it was admitted on, in every later state until it lands, however old its config read |
| Reading.ScanWhileHolding | internal/usage/engine.go:95-123 | The cached, many-read scan of a request that holds its lock, during which lost writes may land in any way and others destroy and shrink, returns at least the pool's usage where the decision is then taken, but for what lost writes count for and no longer have pending |
| Reading.ServedTotal | internal/usage/engine.go:95-123 | The total over the listed members is the sum over the guests of the pool |
| Reading.ServedUsageSuffices | internal/usage/engine.go:95-123 | So a decision on that total, or more, where the pool is as the state has it, works with usage read as the protocol asks |
| Reading.ScanWhereItShrinks | internal/usage/engine.go:95-123 | Where the upstream only destroys and shrinks during the scan, its result is such a total |
| Reading.ReserveDuring | internal/admission/admission.go:154-158 | During the scan a guest id comes to reserve no more in the pool, under the listings at its end, than a lost write that lands on it overshoots by |
| Reading.PoolCovered | internal/usage/engine.go:95-123 | Over a whole scan, usage and pending increases at its end are at most the guests as seen plus what the lost writes count for |
| Reading.WorkDuring | internal/admission/admission.go:154-158 | During the scan no new write to the pool starts: those pending later are some of those pending earlier |
| Reading.ObservedIsPolled | internal/admission/admission.go:373-413 | What ends a settle in the step system is what its polls see: the id among the pool's guests, or a config that is not the same |
| Progress.Progress | internal/admission/admission.go:157-178 | For every unanswered request of every reachable state some step of it or of its lock's holder is enabled and moves that one on |
| Progress.StepsPerRequest | internal/admission/admission.go:123-179 | A request takes at most seven steps in any run |
| Progress.StepMoves | internal/admission/admission.go:123-179 | A step moves its own request strictly closer to its answer and no other request at all |
| Progress.LockReleasedWithAnswer | internal/admission/admission.go:157-159 | A lock is taken only when free and is free again exactly when its holder has been answered |
| Progress.CrowdsForm | internal/admission/admission.go:123-158 | Any number of requests of any users can be under way at once, in any order of arrival, from any state |
| Progress.AnyoneIsNext | internal/admission/admission.go:154-158 | A waiting request can take its user's lock exactly when no other request of that user is between lock and unlock, whichever arrived first |
| Refinement.HandlerRefined | internal/admission/admission.go:154-178 | In every run, whatever others do meanwhile, an answered request has had exactly the effects of the handler's critical section, in order, for the decision on what it read and the status it was answered with |
| Refinement.RunIsTrace | internal/admission/admission.go:123-179 | With the audit before it, that is the handler's whole trace of the corresponding call |
| Admission.CheckQuota | internal/admission/admission.go:322-371 | For every order of the storages, admits exactly what the record allows, field by field: within what the node's override states, or the base where it states nothing, and per storage within the GiB that the list in force gives it; names a dimension that does not fit |
| Admission.RecordDecides | internal/admission/admission.go:322-371 | The limits that the theorems use say the same as the record's own fields |
| Admission.CeilGiBAdjoint | internal/admission/admission.go:433-438 | Rounding up to GiB is the adjoint of multiplying by 2^30 on non-negative limits |
| Admission.FitsMonotone | internal/admission/admission.go:322-350 | Lower usage, a lower delta or higher limits never turn acceptance into refusal |
| Admission.NarrowsExactly | internal/admission/admission.go:352-371 | Overrides are pointwise no larger than the base exactly when no node accepts what the base refuses |
| Admission.DecideClosed | internal/admission/admission.go:209-320 | Failing closed, allowed exactly when the delta is known and raises nothing or fits the usage read; at most one error, and then a denial |
| Admission.DecideOpen | internal/admission/admission.go:274-285 | Failing open differs from failing closed exactly on the one accounting error, which it allows |
| Admission.DecisionSettles | internal/admission/admission.go:287-305 | Failing closed, an allowed write on a guest is waited for exactly if its delta raises something, by pool membership or by config |
| Admission.SameConfigExact | internal/admission/admission.go:403-413 | The comparison detects exactly the changes for every later config if and only if no entry of the earlier one is empty |
| Admission.PollUntil | internal/admission/admission.go:375-401 | Stops at the first poll that sees the change or at the deadline, after at most ceil(timeout / 250 ms) polls |
| Admission.WaitMember | internal/admission/admission.go:375-386 | Ends early exactly on the first poll that lists the guest: no earlier one did, and without an early end none did before the deadline; never waits for id zero |
| Admission.WaitConfigChanged | internal/admission/admission.go:390-401 | Ends early exactly on the first poll that reads a config that is not the same; otherwise no poll before the deadline saw one; never waits for id zero |
| Admission.Locks.Get | internal/admission/admission.go:446-463 | Returns the user's mutex, the same at every call and nobody else's |
| Deciding.RunDecide | internal/admission/admission.go:209-320 | The loops of the program compute the decision that the theorems speak about, settle included |
| Deciding.ComputeDelta | internal/admission/admission.go:209-272 | The delta of each action, and none when a read it needs failed |
| Landing.CreateDeltaExact | internal/admission/delta.go:34-48 | A guest created in full weighs exactly its delta, in every dimension and storage, exactly when the existing volumes the request attaches weigh nothing |
| Landing.CreateDeltaSound | internal/admission/delta.go:34-48 | A create delta bounds the new guest exactly when the existing volumes the request attaches weigh nothing |
| Landing.CreateResidual | internal/admission/delta.go:34-48 | How far any created guest departs from its delta: attached volumes, less what was not made in full |
| Landing.CreatedLiterally | internal/admission/delta.go:34-48 | For a guest with literally the parameters, whatever they are, the delta is a bound exactly when per storage they weigh no more than their orders |
| Landing.ConfigDeltaExact | internal/admission/delta.go:50-61 | An edit carried out in full changes the footprint by exactly its delta exactly when, per storage, attached volumes and overwriting orders equal the drives written over |
| Landing.ConfigDeltaSound | internal/admission/delta.go:50-61 | An edit's delta bounds its growth exactly when, per storage, the volumes it attaches and what it orders over existing drives are covered by what those drives held |
| Landing.EditResidual | internal/admission/delta.go:50-61 | How far any landed edit departs from its delta, in every dimension |
| Landing.MergeDeltaSound | internal/admission/delta.go:224-233 | For the literal merge of any parameters at all, the delta is a bound exactly when per storage they weigh no more than the fresh orders and the drives written over |
| Landing.CoresAndMemoryExact | internal/admission/delta.go:50-57 | Core and memory deltas equal merged minus current for every edit, defaults and both kinds included |
| Landing.MergeLands | internal/admission/delta.go:224-233 | Merging literally parameters that order nothing by count, attached volumes included, is such a landing, and in full |
| Landing.EditsTelescope | internal/admission/delta.go:50-61 | Any sequence of landed edits: the final footprint is the first plus the deltas plus what each edit departed from its own |
| Landing.DeltasTelescope | internal/admission/delta.go:50-61 | The deltas of any sequence of edits sum to final minus first cores and memory, and bytes where drives written are new and made in full |
| Landing.RewrittenBytes | internal/admission/delta.go:167-183 | What writing drives does to one storage: what it held, without the drives written over, plus what was written |
| Landing.ResizeDeltaSound | internal/admission/delta.go:64-84 | A resize delta bounds the growth exactly for sized drives, relative requests, or targets no larger than the present weight |
| Landing.ResizeResidual | internal/admission/delta.go:64-84 | A resize that grows a sized drive, or is relative, changes the footprint by exactly its delta; how far every other one departs |
| Landing.MoveDeltaSound | internal/admission/delta.go:131-151 | A move delta, of a sized or an unsized drive, bounds the growth exactly when: between storages, the drive states its size or weighs nothing on the target, and what is left weighs no more than the drive did; within one storage, the moved drive and what is left together weigh no more than the drive did |
| Landing.MoveResidual | internal/admission/delta.go:131-151 | How far any landed move departs from its delta: an unsized drive on the target, and what is left on the source less what the drive weighed there |
| Landing.RollbackDeltaSound | internal/admission/delta.go:113-129 | A rollback delta bounds the growth exactly when unsized volumes brought back are made up for |
| Landing.RollbackResidual | internal/admission/delta.go:113-129 | A rollback is charged its increase in cores and memory, and on a storage departs by what resurfaces |
| Landing.CloneDeltaSound | internal/admission/delta.go:98-111 | A clone's footprint is at most its delta, redirected to one storage or not |
| Landing.CloneDeltaExact | internal/admission/delta.go:98-111 | A clone that copies every counted drive weighs exactly its delta |
| Landing.StoragesExchange | internal/admission/delta.go:103-109 | Summing the totals per storage is summing over the drives |
| Landing.RestoreDeltaSound | internal/usage/engine.go:53-61 | A restore to the archive's own storages is bounded by the archive's stated usage |
| Landing.RestoreDeltaExact | internal/usage/engine.go:53-61 | A restore that brings back every counted drive weighs exactly its delta |
| Landing.RestoreRedirected | internal/admission/admission.go:212-223 | A restore redirected to one storage is bounded exactly when the archive states nothing elsewhere |
| Deltas.ParseCreateDisk | internal/admission/delta.go:187-215 | The loop computes what a create-time spec orders, which `DiskSpecs.ParsePrintedOrder` and `Charges.CreateCharges` state for printed ones |
| Deltas.ParsersAgree | internal/admission/delta.go:187-215 | The two parsers agree on storage and CD-ROM flag always, and on bytes exactly when a size is stated or there is no count |
| Deltas.AddDiskParams | internal/admission/delta.go:167-183 | For every order of the parameters, adds exactly the new drives' orders per storage |
| Deltas.TotalBytes | internal/admission/delta.go:103-109 | Sums all storages in any order |
| Deltas.IncreasedDisks | internal/admission/delta.go:123-127 | Keeps exactly the positive differences |
| Engine.UserUsage | internal/usage/engine.go:95-123 | On a fixed upstream succeeds exactly when members and configs can be read and returns the plain sum over the member list; where listings only shrink, at least the sum over the guests listed at the start as each was seen; if the pool only shrinks, at least the true usage at the end; no listing is fetched twice |
| Engine.GuestUsage | internal/usage/engine.go:35-41 | One guest's footprint with its own cache, exactly when there is such a config and it can be read |
| Engine.PoolMemberSet | internal/usage/engine.go:78-90 | The ids of the qemu and lxc members of a pool, exactly when the member list can be read |
| Engine.UnreadableIsEmpty | internal/usage/engine.go:125-137 | A listing that cannot be read counts as empty, and no other one is affected |
| Engine.Scan.VolumeSize | internal/usage/engine.go:125-137 | The size in a listing of some earlier read, fetched on a miss only |
| Engine.CacheKeyCollision | internal/usage/engine.go:125-127 | Exactly which pairs of listings share a cache slot |
| Engine.CacheKeyInjective | internal/usage/engine.go:125-127 | Slash-free node names never do |
| Engine.FootMono | internal/usage/engine.go:111-120 | Footprints are monotone in the listings |
| Engine.SeenCoversTotal | internal/usage/engine.go:95-123 | On a shrinking upstream, what a scan saw of the members at its start is at least the pool's usage at its end |
| Engine.ListedOnce | internal/usage/engine.go:95-123 | With members listed once each, the sum over the list in any order is the sum over the members |
| Accounting.GuestResources | internal/usage/usage.go:62-90 | For every order of the config, sized drives are summed per storage and unsized ones collected; what its drives are is stated by `Machines.DiskKeysExactly` and `Machines.PrintedFoot` |
| Accounting.TallyDrives | internal/usage/usage.go:75-88 | The loop's totals and references weigh what the drives weigh under any listings |
| Accounting.ParseDisk | internal/usage/usage.go:95-120 | Parses a disk spec; the last readable size wins |
| Accounting.ConfigUsage | internal/usage/usage.go:36-43 | Per storage, exactly the bytes that the drives state themselves |
| Accounting.BytesSplit | internal/usage/usage.go:75-88 | A guest's bytes on a storage are its stated ones plus its looked-up ones |
| DiskSpecs.ParsePrintedSpec | internal/usage/usage.go:95-120 | Printing storage, volume, size and options and parsing gives them back: the last readable size wins over any before it |
| DiskSpecs.ParseSizePrinted | internal/usage/usage.go:140-165 | A printed whole number with its suffix reads as its bytes |
| DiskSpecs.ParsePrintedOrder | internal/admission/delta.go:187-215 | Round trip of a create-time order: "storage:NN" with plain options in any order is that storage, NN times 1024^3 bytes, and no CD-ROM |
| DiskSpecs.OrderCanLand | internal/admission/delta.go:187-215 | Every order for a named storage can be carried out to the byte |
| Machines.DiskKeysExactly | internal/usage/usage.go:122-138 | The disk keys are rootfs, efidisk0, tpmstate0 and the six bus names followed by digits, and nothing else |
| Machines.NumberedKey | internal/usage/usage.go:122-138 | Every bus name with a printed number is one |
| Machines.PrintedDrive | internal/usage/usage.go:95-120 | A printed drive weighs its size, or what its volume is listed at, on its own storage; CD-ROMs and empty drives weigh nothing |
| Machines.PrintedFoot | internal/usage/usage.go:62-90 | The footprint of a printed guest is what its description says: sockets times cores or cores, memory or its default, one instance, and per storage the sum of its drives |
| Machines.ScanMachines | internal/usage/engine.go:95-137 | The scan of a pool of described guests succeeds exactly if the member list and their configs can be read, and sums up what they take up |
| Charges.CreateCharges | internal/admission/delta.go:34-48 | A printed create request is charged the cores and memory it states or gets by default, one instance, and per storage 2^30 bytes for each GiB ordered and the sizes spelled out |
| Charges.EditCharges | internal/admission/delta.go:50-61 | A printed edit of a printed guest is charged what it changes of its cores and memory, and the drives under keys that the guest does not have |
| Charges.ResizeCharges | internal/admission/delta.go:64-84 | A relative resize is charged its size, an absolute one what it grows a sized drive by, on the drive's storage and nowhere else |
| Charges.MoveCharges | internal/admission/delta.go:131-151 | A move is charged the drive's stated size on another storage, whether `disk` or `volume` names the drive |
| Charges.AllocCharges | internal/admission/delta.go:153-163 | A raw volume is charged its printed size on its storage |
| Charges.RollbackCharges | internal/admission/delta.go:113-129 | A rollback between printed configs is charged what the snapshot states more, dimension by dimension |
| Charges.RestoreCharges | internal/usage/engine.go:53-61 | A restore is charged what the archived config states |
| Charges.CloneCharges | internal/admission/delta.go:98-111 | A clone is charged what its source takes up, where the drives are or all of them on the storage it names |
| Quota.Validate | internal/quota/quota.go:63-92 | Accepts exactly the valid files for every order of users, which are those that give no reason to reject them, and what it reports is true |
| Quota.ValidExactly | internal/quota/quota.go:63-92 | A file is valid exactly when none of the reasons to reject it applies |
| Quota.LocksArePoolLocks | internal/quota/quota.go:61-81 | Under one valid file, different users account different pools |
| Quota.Store.Tick | internal/quota/quota.go:168-193 | One poll of the watcher: the store changes to exactly what the read gave, and stays valid |
| Quota.Store.Get | internal/quota/quota.go:134-139 | The user's valid record, exactly for the users of the file |
| Quota.Read | internal/quota/quota.go:116-130 | A config exactly from a readable, valid file, with the time of the earlier stat; the zero time when either read fails |
| Quota.ReloadNeverLosesAnUpdate | internal/quota/quota.go:161-196 | In every run of watcher and editors the config held is valid, and, over file histories that cannot lose the last update, is the present file whenever the recorded time is the present one |
| Quota.UpdateLostExactly | internal/quota/quota.go:105-130 | For every file history with a good last version: a store opened during it, on reads that edits may split, can end up idle with that version's time and another config exactly when an earlier version has the same time, and from then on a good version of other contents comes before the last, or a broken one that leaves an older such config in place |
| Quota.SameTimeLosesTheUpdate | internal/quota/quota.go:174-179 | A new version with an old modification time is never seen |
| Quota.ReloadCatchesUp | internal/quota/quota.go:174-192 | Undisturbed, one reload brings the store up to date |
| Classify.ClassifyPath | internal/classify/classify.go:46-137 | Classifying the printed path of any intercepted endpoint recovers action, envelope and every name |
| Classify.OnlyEndpoints | internal/classify/classify.go:46-137 | Nothing else is intercepted: every mediated route is that of an endpoint its path begins with |
| Classify.EnvelopesAgree | internal/classify/classify.go:205-214 | The json and extjs prefixes lead to the same route for every remainder string |
| Classify.TrailingSlash | internal/classify/classify.go:205-222 | A trailing slash changes neither envelope nor route |
| Classify.EndpointTails | internal/classify/classify.go:46-137 | Whatever follows the segments of an endpoint other than a guest creation, it stays that endpoint's |
| Classify.ReadsExactly | internal/classify/classify.go:46-57 | A request is a read exactly if its method is GET, HEAD or OPTIONS in letters of any case |
| Classify.HarmlessExactly | internal/classify/classify.go:139-196 | A write is passed through exactly if it is one of the harmless ones, printed segment by segment: self-service, backups, destroying a guest, operating one, deleting stored content |
| Classify.HarmlessPath | internal/classify/classify.go:139-222 | The printed path of a harmless write is passed through under either prefix |
| Classify.UnknownExactly | internal/classify/classify.go:139-150 | A write is unknown exactly if it is neither intercepted nor harmless |
| Mediation.CompleteMediation | internal/admission/admission.go:123-205 | Enforcing with default deny, a non-admin's write is forwarded exactly if allowlisted, a storage upload, or admitted by a decision for a user with a record; which write that decides is `EndToEnd.DecidedAnywhere` |
| Mediation.AdmittedFits | internal/admission/admission.go:123-179 | Failing closed, what is admitted raises nothing or fits |
| Mediation.RelevantActions | internal/classify/classify.go:46-196 | A route is mediated exactly if enforceable or an upload; pass-through only from the allowlist |
| Mediation.TraceBalanced | internal/admission/admission.go:123-195 | Every request is answered exactly once; audited once and then allowed, denied or bypassed once; at most one accounting error |
| Mediation.TraceLocksInOrder | internal/admission/admission.go:157-178 | The registry's mutex is never held with a user lock, and every path out of the critical section ends in the unlock |
| Mediation.CriticalSection | internal/admission/admission.go:154-178 | For every call: decision, counting, forwarding, wait and a denial by decision all happen between taking and releasing that user's lock, which no other lock effect interrupts; the verdict comes before what follows from it, the forwarding before the wait; nobody else's lock is touched |
| Mediation.Enforcer.Handle | internal/admission/admission.go:123-195 | The handler's effects and counters are exactly the trace of the request, whose order `CriticalSection` and whose content `EndToEnd` state |
| EndToEnd.DecidedOn | internal/admission/admission.go:123-320 | A call on the printed path of any of the seven kinds of endpoint, with a printed id, is decided on the write that the endpoint means; it is forwarded exactly if that write's own charge raises nothing or the record allows it (or something could not be read and the proxy fails open), denied otherwise, and waited for exactly if accepted below status 300 and raising, for the right guest |
| EndToEnd.DecidedAnywhere | internal/admission/admission.go:123-320 | The same for every path that needs a decision: it begins with an endpoint's segments and is decided as a call on it, an unreadable id being zero |
| EndToEnd.UndecidedOn | internal/admission/admission.go:135-153 | Other calls on endpoints: admins and everyone while not enforcing pass, uploads pass, pools are nobody's to change, and no record means denial |
| EndToEnd.PassedOn | internal/admission/admission.go:123-133 | Reads and harmless writes are forwarded and nothing else happens |
| EndToEnd.CreatesWithin | internal/admission/admission.go:123-371 | A printed request for a new guest is forwarded exactly if the record leaves room, on the usage read, for its cores, memory, one instance, and per storage for the GiB and sizes it asks for |
| EndToEnd.GrowsWithin | internal/admission/admission.go:123-371 | A printed request to grow a drive is forwarded exactly if the record leaves room for the size on the drive's storage |
| EndToEnd.RestoresExactly | internal/audit/audit.go:193-202 | A creation is a restore exactly with an archive, or with restore set to 1 or to true in letters of any case |
| Counters.CountersBalance | internal/admission/admission.go:79-86 | In every quiescent state of every interleaving, audited is allowed plus denied plus bypassed, and errors are within the answers they led to |
| Alarm.OverQuota | cmd/uq-proxy/main.go:257-269 | The search loop decides whether some base dimension is exceeded |
| Alarm.AlarmAgrees | cmd/uq-proxy/main.go:257-269 | Starting quiet and without an override, the alarm stays quiet after an increase exactly if admission accepts it and lists its storages |
| Alarm.AlarmAgreesOnPositive | cmd/uq-proxy/main.go:257-269 | With positive disk entries acceptance alone decides |
| Alarm.RoundUpsCoincide | internal/usage/usage.go:24-30 | The truncating round-up equals the admission one exactly above -2 GiB |
| Counterexamples.OverwritingEscapes | internal/admission/delta.go:172-176 | A larger drive written over a smaller one has delta zero |
| Counterexamples.AttachingEscapes | internal/admission/delta.go:209-214 | Attaching an existing volume, to a guest or a new one, has delta zero and adds the whole volume |
| Counterexamples.UnsizedResizeEscapes | internal/admission/delta.go:80-82 | An absolute resize of an unsized drive has delta zero |
| Counterexamples.MoveInPlaceEscapes | internal/admission/delta.go:144-146 | A move within a storage that keeps the old volume has delta zero |
| Counterexamples.UnsizedMoveEscapes | internal/admission/delta.go:147-149 | Moving a drive that states no size to another storage has delta zero and fills the target |
| Counterexamples.UnsizedRollbackEscapes | internal/admission/delta.go:113-129 | A rollback to an unsized volume has delta zero |
| Counterexamples.RedirectedRestoreEscapes | internal/admission/admission.go:212-223 | A redirected restore has delta zero on the storage it fills |
| Counterexamples.OverrideWidens | internal/admission/admission.go:352-371 | An override above the base admits more than the base |
| Counterexamples.RebalancingEscapes | internal/admission/delta.go:50-57 | A guest made smaller by rebalancing sockets and cores outgrows its reserve when the pending edit lands |
| Counterexamples.ScanMissesRewrite | internal/usage/engine.go:106-137 | An edit that replaces an unsized drive by a sized one is as checked, has delta zero and overshoots nothing, but a config read before it and a listing read after it miss the drive: it counts for all of it |
| Counterexamples.EmptyEntryAlarms | cmd/uq-proxy/main.go:257-269 | An increase with an empty entry for an unlisted storage is admitted and raises the alarm |
| Counterexamples.RoundUpsDiffer | internal/usage/usage.go:24-30 | One byte below the range where they agree the round-ups differ |
| Counterexamples.SlashCollides | internal/usage/engine.go:125-127 | Two listings that share a cache slot |
| Counterexamples.EmptyEntryUnseen | internal/admission/admission.go:403-413 | Two different configs that compare as the same |

## Left out

- ParseSize: does not model the floating-point fallback; sizes are whole numbers with a binary suffix.
- Classify: letters other than ASCII ones keep their case in `ToUpper`, since request methods are ASCII tokens; the method and path are kept beside the route instead of in one flat record.
- Charges.CreateCharges: a drive spelled out with size zero, and an attached volume whose name reads as a count, are described by `Deltas.ParsersAgree` only.
- Progress: says which step can be taken, not that the scheduler takes it; fairness is not modelled.
- Integer width: all quantities are mathematical integers; wrap-around of 64-bit sums and products is not modelled.
- Concurrency inside one process is modelled as interleaved atomic steps; the Go memory model and mutex implementation are not.
- Quota store: the fields are updated one tick at a time in `Quota.Store`; the interleaving with file edits is a value-level state machine (`Watcher`) with the same outcome function.
- Protocol and Tasks are value-level state machines: the upstream they describe is not code of this repository.
- Raw storage allocation and uploads are classified, checked and forwarded, but not part of the runs: the program does not count them either.
- Clone `snapname` and volumes cloned without a stated size: only current configs and sized drives are copied.
- A `delete` parameter in a config edit, and guests that migrate during a scan.
- Reverse proxying, TLS, websockets, access log, admin listener, flags, shutdown, metrics text and deny envelopes: I/O and presentation.
- HTTP client, JSON, YAML and form decoding, and identity extraction: parameters, decoded files and user ids are inputs.
- The users listing and the admin list of the store: plain copies.
