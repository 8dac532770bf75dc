# Reconcile decisions of the city controller, modelled and proved

A city controller keeps agent sessions running: every tick it reads what work is ready, decides which
sessions should exist, and repairs what older builds or crashes left behind. This project models those
decisions in Dafny, one module per component, and proves what they promise over all inputs, all runs and
all iteration orders. Loops and objects that change state are methods and classes proved against a
specification function; the theorems are about the specification.

| module | component |
|---|---|
| RouteRepair, Rotation, Arithmetic | the bounded, rotating sweep that realigns control beads with the dispatcher of their own store |
| ImportLanding, ManifestMigration | the doctor's migration of retired pack references to pinned imports, write by write |
| PoolSlots, CreateBudget, PoolRealize, Decimal | slot identity and claiming, the fair create budget, and the plan / create / finalize pipeline |
| DependencyFloors | the walk that offers floors to dependencies |
| ReadyCache, DemandCount, ContinuationClaims | the demand snapshot: cached reads, counting, continuation candidates |
| ReloadProtocol | config mutation against runtime reload |
| RecoveryThrottle | provider health checks: one at a time, with a cooldown between recoveries |
| Paths, WorktreeReaper | the worktree reaper and its liveness gate |
| CityRegistry | the published snapshot of the city maps |
| AdoptionBarrier | giving every running session a bead |

Conventions. Strings are taken as already trimmed. Iteration over a Go map is an arbitrary order, so a
theorem about it holds for every order. What a store, git, the file system, the clock or a lock answers is
a parameter. Integers are unbounded except where the width matters: the sweep cursor and the registry
generation are counted modulo 2^64 and printed slots are bounded by the 64-bit range.

## Where the code does less than it says

Each of these has a lemma with an input that shows it and one that gives the exact condition.

- The sweep's bound of ⌈n/5⌉ passes can fail when the 64-bit cursor wraps (`WrapCanDelayARow`, `NoStarvationIff`).
- `ensureBundledImportBinding` uses "" for "none yet", so a binding that is itself named "" makes the result
  depend on map order and can hide a pin conflict (`EmptyBindingExample`, `OrderIndependence`, `SinglePinKept`).
- `Fix` lands packs in pack.toml under names free there, but composition lets city.toml override the same name,
  so a stripped include can be lost although the comments promise otherwise (`ShadowedPackIsLost`, `FixKeepsCityIff`).
- A mutation in a controller without a city path leaves a pending mutation without a revision, after which every
  reload counts as stale (`MutationWithoutPathBlocks`, `ReloadPossibleIff`, `BlockedForever`).
- The batched borrow scan keeps one candidate per normalized path and stops at a bead's first matching key
  (`TwoKeysProtectOne`, `TwinUnprotected`, `BatchedVetoIff`).
- A city still initializing displaces a running city of the same name from lookup by name (`DisplacedNameExample`, `ReachableByNameIff`).
- A passed adoption barrier is said to mean that all running sessions have beads, but it trusts its bead listing, and
  one that still shows a bead closed meanwhile leaves that session without (`StaleListingExample`, `PassedMeansCovered`).
- The adoption dry run counts a repeated name each time, and a name whose open bead the listing missed
  (`RepeatedNameExample`, `MissedBeadExample`, `DryRunPredictsIff`).
- A session suffix with a leading zero is cut by its printed length, "worker-03" to "worker-" (`LeadingZeroExample`, `BaseNameIff`).
- `isStrictlyUnderDir` refuses a child directory whose name merely starts with two dots (`TwoDotChildExample`, `StrictlyUnderIff`).

## Model

| member | source | states |
|---|---|---|
| `RouteRepair.NoStarvationIff` | cmd/gc/build_desired_state.go:4774-4829 | ⌈n/5⌉ passes bring each of n rows among the first five visited if and only if the cursor reaches the last pass without wrapping or 2^64 mod n is at most 5⌈n/5⌉ - n; with all rows wanting a write, exactly then is each attempted |
| `RouteRepair.NoStarvation` | cmd/gc/build_desired_state.go:4774-4829 | under that condition any ⌈n/5⌉ passes of a city or more, with passes of other cities interleaved at will, give every row that needs one a write attempt, whichever rows fail forever |
| `RouteRepair.NoStarvationAcrossWrap` | cmd/gc/build_desired_state.go:4786-4829 | wherever the 64-bit cursor stands, 2⌈n/5⌉ - 1 passes suffice |
| `RouteRepair.WrapCanDelayARow` | cmd/gc/build_desired_state.go:4823-4828 | an input: in two scheduled passes over ten rows from cursor 2^64 - 1 row 0 is not served, nor attempted when all rows want a write |
| `RouteRepair.ServedIff` | cmd/gc/build_desired_state.go:4786-4828 | a row is served by a run exactly when some position of its own domain's cursor in that run puts it among the first five; other domains do not matter |
| `RouteRepair.CoverageIff` | cmd/gc/build_desired_state.go:4823-4828 | every row is early in one of ⌈n/5⌉ passes from a cursor if and only if that condition holds of it |
| `RouteRepair.EarlyRowsAttempted` | cmd/gc/build_desired_state.go:4922-4950 | a row among the first five visited that wants a write gets an attempt, whatever earlier rows did with theirs |
| `RouteRepair.PassIsDemandSafe` | cmd/gc/build_desired_state.go:4869-4984 | after a pass a scoped control row has no route or its own scope's, other rows are untouched, a marker is dropped or a route introduced only after a durable write; a row whose attempt its store accepts ends with the route of its scope's dispatcher and no marker, without a write a wrong route is hidden and all else stays |
| `RouteRepair.IssuedBounded` | cmd/gc/build_desired_state.go:4922-4950 | at most five durable updates per pass |
| `RouteRepair.IssuedUpdatesAreLocal` | cmd/gc/build_desired_state.go:4869-4950 | every update issued concerns a row with a wrong route or a marker, in a present store, and carries exactly what the row lacks: its own scope's route, the cleared marker |
| `RouteRepair.AttemptsAreIssued` | cmd/gc/build_desired_state.go:4922-4950 | and every attempt on a present store issues one |
| `RouteRepair.EarlyRowsRepaired` | cmd/gc/build_desired_state.go:4922-4966 | a scoped control row among the first five visited whose store takes the write ends with its scope's dispatcher and no marker |
| `RouteRepair.RigContexts` | cmd/gc/build_desired_state.go:4993-4999 | a rig reference is due to that rig's dispatcher, a city reference or none to the city's |
| `RouteRepair.Sweep.Desired` | cmd/gc/build_desired_state.go:4895-4913 | the memoized lookup equals the configured route of the scope |
| `RouteRepair.Sweep.RepairBead` | cmd/gc/build_desired_state.go:4869-4976 | one visit: the row as specified and settled, the budget and the updates issued; every other row stays |
| `RouteRepair.SuppressRoutes` | cmd/gc/build_desired_state.go:4978-4984 | misaligned inputs: exactly the control rows lose their route |
| `RouteRepair.SweepRows` | cmd/gc/build_desired_state.go:4821-4828 | the in-place rotating loop ends in the closed-form snapshot with the closed-form updates |
| `RouteRepair.Scheduler.RepairRoutes` | cmd/gc/build_desired_state.go:4804-4829 | all three outcomes of a pass, with the cursor of its own domain advanced only by a real sweep |
| `Rotation.VisitedOnce` | cmd/gc/build_desired_state.go:4823-4828 | the rotation visits every row exactly once |
| `Rotation.OffsetAdvances` | cmd/gc/build_desired_state.go:4823-4828 | advancing the start brings a row nearer by just that much |
| `ManifestMigration.FixKeepsCityIff` | cmd/gc/builtin_include_doctor_check.go:495-576 | the whole of Fix keeps every route of the city scope (removed wave-1 includes aside) if and only if each stripped include is provided for by the manifests as they were: by city.toml itself, by a default binding of pack.toml that city.toml does not override, or by a landing whose name, computed beforehand, city.toml leaves free |
| `ManifestMigration.FixKeepsCityInAnyOrderIff` | cmd/gc/builtin_include_doctor_check.go:495-576 | the same condition without any iteration order in it, unless pack.toml has a binding named "" |
| `ManifestMigration.FixKeepsCity` | cmd/gc/builtin_include_doctor_check.go:495-576 | a simpler check: it is kept, in every order, if city.toml binds no name a landing could come up with and overrides no default binding of a stripped pack |
| `ManifestMigration.NamesLandAsTold` | cmd/gc/builtin_include_doctor_check.go:514-557 | which landings add a binding, under which names, and what stays of the old ones, told from pack.toml and the names before any of them |
| `ManifestMigration.ShadowedPackIsLost` | cmd/gc/builtin_include_doctor_check.go:501-576 | the failing family: an include whose pack name city.toml binds to something else is stripped and its pack is no longer composed |
| `ManifestMigration.FixKeepsRigs` | cmd/gc/builtin_include_doctor_check.go:495-576 | default rig and every rig mean exactly the same in every state a crash can leave |
| `ManifestMigration.CrashAfterPackWrite` | cmd/gc/builtin_include_doctor_check.go:495-576 | between the two writes the city composes at least what it did |
| `ManifestMigration.FixStates` | cmd/gc/builtin_include_doctor_check.go:495-576 | the disks a crash can leave: unchanged, then only pack.toml written, then only city.toml changed beside it |
| `ManifestMigration.PackLanded` | cmd/gc/builtin_include_doctor_check.go:514-557 | the pack.toml write keeps every binding's route and provides one for each missing pack and each include to be stripped |
| `ManifestMigration.PackHolds` | cmd/gc/builtin_include_doctor_check.go:514-557 | in every order: pack.toml then holds a pinned default binding of every missing pack with a canonical source and of every stripped include's, every binding added belongs to one of these, and old bindings change at most their version |
| `ManifestMigration.NamesToLandIff` | cmd/gc/builtin_include_doctor_check.go:514-526 | the packs landed are exactly the missing and the stripped ones with a canonical source, the missing first |
| `ManifestMigration.ScopeMeaningPreserved` | cmd/gc/builtin_include_doctor_check.go:651-731 | migrating a scope preserves its set of composition routes exactly, in every iteration order |
| `ManifestMigration.ConvertKeepsRoutes` | cmd/gc/builtin_include_doctor_check.go:684-729 | converting includes to imports preserves the routes of a scope, include by include |
| `ManifestMigration.RewriteKeepsRoutes` | cmd/gc/builtin_include_doctor_check.go:821-841 | relocating legacy sources changes no route: a relocated import carries the bundled source and pin and keeps its options, any other stays |
| `ManifestMigration.LandAddsRoute` | cmd/gc/builtin_include_doctor_check.go:762-798 | landing a pack adds its default route, drops no binding and changes no other route |
| `ManifestMigration.StrippedRouteVisible` | internal/config/compose.go:229-239 | a stripped include stays composed exactly through an unshadowed import or its canonical source |
| `ManifestMigration.FixerMatchesDetector` | cmd/gc/builtin_include_doctor_check.go:428-458 | a successful migration removes exactly the references classified automatic and keeps, in order, every one classified manual |
| `ManifestMigration.UnreportedMeansUnchanged` | cmd/gc/builtin_include_doctor_check.go:651-731 | a migration that reports no change makes none |
| `ManifestMigration.SecondMigrationIsIdle` | cmd/gc/builtin_include_doctor_check.go:651-731 | a second migration, in any order, succeeds, reports no change and makes none |
| `ManifestMigration.CityManifest.StripIncludes` | cmd/gc/builtin_include_doctor_check.go:663-682 | the workspace includes in place: what is stripped and whether anything was |
| `ManifestMigration.CityManifest.MigrateLegacyRefs` | cmd/gc/builtin_include_doctor_check.go:651-731 | the manifest edited in place becomes the specified one and the changed flag is exact |
| `ManifestMigration.ConvertScope` | cmd/gc/builtin_include_doctor_check.go:684-701 | one scope converted by the loop, with its changed flag |
| `ManifestMigration.ConvertRigs` | cmd/gc/builtin_include_doctor_check.go:703-729 | all rigs converted by the loop, stopping at the first error, with the changed flag |
| `ImportLanding.OrderIndependence` | cmd/gc/builtin_include_doctor_check.go:762-798 | the landing does not depend on map iteration order if and only if a pinned default binding settles it or no binding named "" competes |
| `ImportLanding.OrderMatters` | cmd/gc/builtin_include_doctor_check.go:763-797 | where one does compete, two orders land differently |
| `ImportLanding.LandSucceeds` | cmd/gc/builtin_include_doctor_check.go:762-798 | a success overwrites nothing, changes at most one binding and leaves a pinned default binding of the source |
| `ImportLanding.BindingKinds` | cmd/gc/builtin_include_doctor_check.go:763-790 | what the bindings of a source mean for the landing: a plain one with a version settles it, a plain one without can be pinned, any other at a different version is in the way |
| `ImportLanding.LandIdempotent` | cmd/gc/builtin_include_doctor_check.go:762-798 | landing again, in any order, changes nothing |
| `ImportLanding.LandRefuses` | cmd/gc/builtin_include_doctor_check.go:762-798 | a refusal rests on a conflicting binding and no pinned default one, and names the least; exactly then unless one is named "" |
| `ImportLanding.SinglePinKept` | cmd/gc/builtin_include_doctor_check.go:762-798 | a singly pinned source stays so, in every order, if and only if a pinned default binding exists or no binding named "" conflicts |
| `ImportLanding.EmptyBindingExample` | cmd/gc/builtin_include_doctor_check.go:763-797 | a concrete table whose outcome is up to the runtime |
| `ImportLanding.EnsureBundledBinding` | cmd/gc/builtin_include_doctor_check.go:762-798 | the loop computes the specified result for the order it is handed |
| `ImportLanding.FirstFree` | internal/config/config.go:1012-1017 | the search ends at the first free suffix, all earlier ones being taken |
| `ImportLanding.UniqueBinding` | internal/config/config.go:1005-1018 | the binding chosen is new and not empty |
| `PoolRealize.RealizeIsSound` | cmd/gc/build_desired_state.go:2797-2935 | for all requests, snapshots, budgets, create outcomes and completion orders of the parallel creates: every request is planned as it is due, no two desired sessions of an expanding agent share a slot or an id, slots are positive, a fresh one is at most its request's number, exactly the requests that earned a session have one, and exactly the slots of failed creates are given back |
| `PoolRealize.RequestServed` | cmd/gc/build_desired_state.go:3770-3864 | how a request is served, on every agent, told from the request, the snapshot and the tables: left alone if its session is named; its resumable session reused unless its slot is taken or it is stuck; else the oldest free session (a singleton's canonical one first); else a create on the least free slot, skipped exactly when creates are off or the budget has no token for the template |
| `PoolRealize.PlanServes` | cmd/gc/build_desired_state.go:2812-2868 | every request of the plan is served like that when its turn comes |
| `PoolRealize.SomeOldest` | cmd/gc/build_desired_state.go:3802-3825 | if any session is free one of them is the oldest, so these cases are all there are |
| `PoolRealize.SingletonTables` | cmd/gc/build_desired_state.go:3770-3864 | on a singleton no slot is taken and only a reused session is marked used |
| `PoolRealize.RealizeOrderIrrelevant` | cmd/gc/build_desired_state.go:2797-2935 | the whole build, which reads the results the creates left, is the same for any two completion orders |
| `PoolRealize.BudgetIsConserved` | cmd/gc/build_desired_state.go:3898-3909 | tokens taken less tokens refunded equal the creates that went through, in every completion order |
| `PoolRealize.CompletionOrderIrrelevant` | cmd/gc/build_desired_state.go:2870-2908 | whatever the order the parallel creates finish in, the batch is the same |
| `PoolRealize.PlanIsSound` | cmd/gc/build_desired_state.go:3770-3864 | after planning any requests the tables record exactly what the items hold and nothing is held twice |
| `PoolRealize.PlanRequestSound` | cmd/gc/build_desired_state.go:3770-3864 | one request takes a free session and a free slot, or changes no table |
| `PoolRealize.PlanSpends` | cmd/gc/build_desired_state.go:3770-3864 | one token per planned create, and a balanced budget stays balanced |
| `PoolRealize.FinalizeSound` | cmd/gc/build_desired_state.go:2910-2935 | finalizing in request order keeps the allocation sound though creates fail or return taken ids |
| `PoolRealize.FinalSlots` | cmd/gc/build_desired_state.go:2910-2935 | in the end exactly the slots of failed creates are given back |
| `PoolRealize.FirstReusable` | cmd/gc/build_desired_state.go:3808-3825 | the oldest session that is free and can have a slot, and none only if there is none |
| `PoolRealize.Build.Take` | cmd/gc/build_desired_state.go:3770-3864 | reuse in place, against its specification |
| `PoolRealize.Build.Fresh` | cmd/gc/build_desired_state.go:3826-3864 | planning a fresh session in place; a refusal gives the slot back |
| `PoolRealize.Build.PlanOne` | cmd/gc/build_desired_state.go:3770-3864 | one request in place, against its specification and served as it is due |
| `PoolRealize.Build.PlanAll` | cmd/gc/build_desired_state.go:2812-2868 | the serial planning loop, against its specification |
| `PoolRealize.Build.CreateAll` | cmd/gc/build_desired_state.go:2870-2908 | the pending creates finish in some order, each once, leaving results and refunds as specified for that order |
| `PoolRealize.Build.FinalizeAll` | cmd/gc/build_desired_state.go:2910-2935 | the finalizing loop over the results of the creates, against its specification |
| `PoolRealize.Build.RealizePool` | cmd/gc/build_desired_state.go:2797-2935 | the three phases in place end in the specified build for some completion order |
| `PoolSlots.ExistingSlot` | cmd/gc/build_desired_state.go:3660-3720 | whatever the metadata says, the slot recovered is 0 or usable under the configured bounds |
| `PoolSlots.ExistingKeepsSlot` | cmd/gc/build_desired_state.go:3660-3720 | a session that goes by the printed name of a slot within the bounds recovers that slot, unless the name is not its agent name and another slot within the bounds is stamped on it, which then wins |
| `PoolSlots.StampAlone` | cmd/gc/build_desired_state.go:3660-3720 | a session none of whose names reads as an instance has the slot stamped on it if it is of this pool and the stamp exceeds no limit, else none |
| `PoolSlots.BoundsIff` | cmd/gc/build_desired_state.go:3556-3590 | a slot is usable if it exceeds no configured limit, and within bounds if there is one |
| `PoolSlots.AboveCapacitySlot` | cmd/gc/build_desired_state_pool_info.go:102-131 | the slot is 0 or exceeds max_active_sessions and no other bound |
| `PoolSlots.ResumeKeepsSlot` | cmd/gc/build_desired_state_pool_info.go:138-158 | a session that goes by the printed name of a slot now above max_active_sessions and within every other bound resumes under a slot that prints as its name again, or gets 0 exactly when that slot is taken |
| `PoolSlots.NumberedNameRoundTrips` | cmd/gc/build_desired_state.go:3518-3552 | a numbered instance name parses back to its slot |
| `PoolSlots.NumberedSlotTells` | cmd/gc/session_beads.go:3128-3142 | a numbered name reads by its number, also in the older form, and not at all if it is of another template or has none |
| `PoolSlots.NumberedIff` | cmd/gc/build_desired_state.go:3518-3539 | a name reads as an instance if and only if it does under the qualified name, the binding's, or the bare one of a session of this pool |
| `PoolSlots.ThemedNameRoundTrips` | cmd/gc/build_desired_state.go:5239-5244 | a themed name parses back exactly when it reads as no other numbered instance and no earlier themed name spells it |
| `PoolSlots.PrintedSlotsDistinct` | cmd/gc/build_desired_state.go:3164-3173 | all slots print differently if and only if no themed name occurs twice and none is the numbered name of a slot beyond the pool |
| `PoolSlots.SlotsRoundTrip` | cmd/gc/build_desired_state.go:3518-3552 | with distinct, non-blank, not numbered themed names every slot parses back from its printed name |
| `PoolSlots.LeastFree` | cmd/gc/build_desired_state_pool_info.go:84-91 | the least free slot, at most one more than the number in use |
| `PoolSlots.ClaimsAreSound` | cmd/gc/build_desired_state_pool_info.go:77-167 | every claim yields a slot nobody holds and records exactly it, or yields 0 and records nothing |
| `PoolSlots.ClaimsYield` | cmd/gc/build_desired_state_pool_info.go:77-167 | a claim yields the slot the identity is entitled to unless that is taken, the least free one without such a slot, and none on a singleton |
| `PoolSlots.SlotsHandedOutIff` | cmd/gc/build_desired_state_pool_info.go:77-167 | a pool hands out slots unless it is for exactly one session and has no themed names |
| `PoolSlots.SlotTable.ClaimFor` | cmd/gc/build_desired_state_pool_info.go:77-92 | the unbounded search in place finds the specified slot |
| `PoolSlots.SlotTable.ClaimPreferredFor` | cmd/gc/build_desired_state_pool_info.go:138-158 | the preferred claim in place, against its specification |
| `CreateBudget.FairShares` | internal/poolplan/create_budget.go:88-172 | every token is accounted for, nobody gets more than they want, spare tokens mean all demand is met, elastic demand gets its quarter, and floors that fit beside it are all served |
| `CreateBudget.ShareFloors` | internal/poolplan/create_budget.go:119-134 | one token per floor in rotated order, all of them when the budget allows |
| `CreateBudget.SweepOnce` | internal/poolplan/create_budget.go:138-168 | one cyclic sweep: within demand, nobody loses, a sweep that gives nothing means all are sated |
| `CreateBudget.RoundRobin` | internal/poolplan/create_budget.go:136-170 | sweeps end with the cap handed out or everybody sated |
| `CreateBudget.BudgetStep` | internal/poolplan/create_budget.go:50-86 | assigned and spare tokens keep adding up to the remaining ones, an own share can always be claimed and no other share is touched |
| `CreateBudget.ClaimDraws` | internal/poolplan/create_budget.go:50-71 | a claim is granted if and only if a token remains that the template may draw, its own first, then a spare one |
| `CreateBudget.ReleaseRefunds` | internal/poolplan/create_budget.go:76-86 | a refund adds one token, spare where there are fair shares, so a claim and its refund cost nothing |
| `CreateBudget.ActiveProperties` | internal/poolplan/create_budget.go:92-97 | exactly the demands that want something take part, still without repeats |
| `CreateBudget.FairSharesBalance` | internal/poolplan/create_budget.go:39-46 | a freshly configured budget is balanced |
| `DependencyFloors.RealizeFloors` | cmd/gc/build_desired_state.go:2618-2655 | for every graph, cycles included, and any root order, the walk ends having offered a floor to exactly the live dependencies reachable from the roots |
| `DependencyFloors.Walk.Visit` | cmd/gc/build_desired_state.go:2630-2651 | a visit offers only what is owed and keeps every settled template settled |
| `DependencyFloors.Walk.VisitDeps` | cmd/gc/build_desired_state.go:2640-2650 | after the loop every live dependency is visited and offered |
| `DependencyFloors.ClosedHoldsPaths` | cmd/gc/build_desired_state.go:2618-2655 | a settled visited set that holds the roots holds the end of every live path |
| `DependencyFloors.ClosedOffersOwed` | cmd/gc/build_desired_state.go:2618-2655 | and so everything owed has been offered |
| `ReadyCache.ServeReads` | cmd/gc/build_desired_state.go:2096-2227 | over any sequence of reads each answer equals the direct one, rows, error and partial mark, and no store is fetched twice on a tier |
| `ReadyCache.Cache.LiveReady` | cmd/gc/build_desired_state.go:2154-2160 | the filtered snapshot equals the direct live read |
| `ReadyCache.Cache.ControllerDemandReady` | cmd/gc/build_desired_state.go:2169-2199 | the cached demand read equals the uncached one in every error case |
| `ReadyCache.Cache.LiveSnapshot` | cmd/gc/build_desired_state.go:2133-2139 | the memo is what the live tier answers, fetched once |
| `ReadyCache.Cache.CachedSnapshot` | cmd/gc/build_desired_state.go:2144-2150 | the memo is what the cached tier answers, fetched once |
| `ReadyCache.FilterSnapshot` | cmd/gc/build_desired_state.go:2207-2227 | the early-stopping loop is filter, then take |
| `ReadyCache.SelectTells` | cmd/gc/build_desired_state.go:2207-2227 | a query selects the rows of its assignee, row by row in order, up to its limit |
| `ReadyCache.MergeRows` | cmd/gc/build_desired_state.go:2239-2266 | the two merging loops, against their specification |
| `ReadyCache.MergeKeepsEveryBead` | cmd/gc/build_desired_state.go:2239-2266 | merging loses no bead, lets the live row win and repeats no id the live tier does not |
| `ReadyCache.DemandErrorPrecedence` | cmd/gc/build_desired_state.go:2004-2043 | for every store: success exactly when the deciding tier was read completely; a failure is that tier's answer, or, when both tiers are asked, every bead of those not failed outright, marked partial |
| `ReadyCache.BothTiersTell` | cmd/gc/build_desired_state.go:2004-2043 | when both tiers are asked and the live one is not complete: every bead a tier not failed outright has, the live row where there is one, both errors, and a partial mark if and only if there are rows or a tier had it |
| `ReadyCache.ErrorsTell` | cmd/gc/build_desired_state.go:2004-2043 | an error tells that the cache is unavailable or the result partial wherever that stands in its tree |
| `DemandCount.ScaleCheck` | cmd/gc/build_desired_state.go:1551-1671 | in every group order each count is the number of distinct ready, unassigned beads routed to the template over all groups probing it, and exactly the templates of failed or partial groups are marked |
| `DemandCount.Tally.Count` | cmd/gc/build_desired_state.go:1628-1640 | a bead is counted for a template once, in whatever stores it turns up |
| `DemandCount.Tally.CountGroup` | cmd/gc/build_desired_state.go:1612-1668 | one group adds exactly the ids of its demand rows |
| `DemandCount.GroupTargets` | cmd/gc/build_desired_state.go:1567-1594 | the grouping loop, with the templates unavailable from the start |
| `DemandCount.GroupHolds` | cmd/gc/build_desired_state.go:1567-1594 | a group holds exactly the templates probed under its key |
| `DemandCount.RouteTargetIff` | cmd/gc/build_desired_state.go:1795-1803 | a row is routed to the first of its route candidates among the templates |
| `DemandCount.GroupIdsIff` | cmd/gc/build_desired_state.go:1612-1640 | what a group counts for a template: the ids of the unassigned rows of its store whose first route among its templates is that one, none if the read failed outright |
| `DemandCount.InGroupIff` | cmd/gc/build_desired_state.go:1567-1594 | targets meet in a group by store key or, without one, by store |
| `DemandCount.TargetOrderIrrelevant` | cmd/gc/build_desired_state.go:1551-1671 | two scale checks over the same targets, in whatever order and repetition, agree on counts, counted ids and partial marks when a key names one store |
| `ContinuationClaims.SelectCandidates` | cmd/gc/build_desired_state.go:4578-4666 | a key is emitted once, if and only if all rows of its group are valid and identical; partial if and only if a group holds or contradicts itself or a possible candidate has no resolvable store; misaligned inputs select nothing |
| `ContinuationClaims.SelectRows` | cmd/gc/build_desired_state.go:4592-4665 | the same on aligned rows |
| `ContinuationClaims.RowOrderIrrelevant` | cmd/gc/build_desired_state.go:4578-4666 | up to order and store handle the result is invariant under permuting the rows |
| `ContinuationClaims.GroupTrichotomy` | cmd/gc/build_desired_state.go:4617-4664 | a group is unanimous, unsettled or wholly absent, one of the three |
| `ContinuationClaims.RowResolvedIff` | cmd/gc/build_desired_state.go:4676-4731 | a row is valid if and only if it is an open, assigned, ready task of a required group bound to a root in its own store that this store holds as a live graph-v2 workflow of its assignee; it is held if and only if it claims that and the read fails |
| `ContinuationClaims.VerdictMeaning` | cmd/gc/build_desired_state.go:4617-4664 | the verdict on a group's rows is emit exactly when unanimous and disagree exactly when unsettled |
| `ContinuationClaims.Judge` | cmd/gc/build_desired_state.go:4617-4664 | the counting of valid, absent and held rows yields that verdict |
| `ContinuationClaims.AllSame` | cmd/gc/build_desired_state.go:4651-4658 | whether all candidates equal the first up to the store handle |
| `ContinuationClaims.GroupRows` | cmd/gc/build_desired_state.go:4594-4614 | rows are split by canonical key, each key once, keys in order of first appearance |
| `ContinuationClaims.CanonicalIsStable` | cmd/gc/build_desired_state.go:4744-4769 | canonical references are fixed points |
| `ContinuationClaims.CanonicalRefs` | cmd/gc/build_desired_state.go:4744-4769 | which references name a scope: none the city, "city:" only its own name, "rig:" and a bare name that rig, nothing else |
| `ContinuationClaims.KeyOfIff` | cmd/gc/build_desired_state.go:4594-4614 | a row belongs to the group of its id in that scope, without an id to none |
| `ContinuationClaims.SameIff` | cmd/gc/build_desired_state.go:4733-4738 | candidates are compared without the store handle |
| `ReloadProtocol.ConfigProvenance` | cmd/gc/api_state.go:953-979 | in every run from nothing pending: while a mutation is pending, config and pending revision are exactly what the disk loaded right after some applied mutation, with nothing installed or applied since; otherwise the config is the initial one or that of the last installed reload, whose revision was the pending or the on-disk one |
| `ReloadProtocol.InstallAfterMutation` | cmd/gc/api_state.go:1200-1255 | a reload installed over a pending mutation has the revision that mutation's own disk loaded and drops no rig bound there, or the revision on disk at that moment |
| `ReloadProtocol.MutationSurvives` | cmd/gc/api_state.go:1200-1255 | config, pending mark and revision stay until a reload is installed or a mutation applied, whatever stale reloads, failed mutations and disk edits come between |
| `ReloadProtocol.FailedRefreshRollsBack` | cmd/gc/api_state.go:2654-2706 | a mutation whose refresh fails leaves config and pending state and, on a complete restore, the agent scaffolds and captured files as before; other files as edited |
| `ReloadProtocol.ReloadPossibleIff` | cmd/gc/api_state.go:1200-1224 | some reload can be installed if and only if no mutation is pending without a revision |
| `ReloadProtocol.ReloadInstalledIff` | cmd/gc/api_state.go:953-979 | a reload is installed, and the state is then its config with nothing pending, if and only if: nothing pending, it carries the revision on disk or none; a mutation pending with a revision, it carries that one and keeps every bound rig, or carries another that is on disk |
| `ReloadProtocol.MutationAppliedIff` | cmd/gc/api_state.go:2678-2726 | a mutation goes through if and only if its snapshot could be taken, the edit succeeds and the edited disk loads with a revision, and then config and pending revision are what it loads |
| `ReloadProtocol.BlockedForever` | cmd/gc/api_state.go:953-979 | once one is, no reload is ever installed again |
| `ReloadProtocol.MutationWithoutPathBlocks` | cmd/gc/api_state.go:2678-2726 | a mutation in a state without a city path gets there |
| `ReloadProtocol.ReachableConsistent` | cmd/gc/api_state.go:2678-2726 | only states without a city path or a config ever do |
| `ReloadProtocol.Controller.PendingStatus` | cmd/gc/api_state.go:1200-1216 | the two flags, exactly |
| `ReloadProtocol.Controller.UpdateFromRuntime` | cmd/gc/api_state.go:953-979 | the fields after a reload, against the specification |
| `ReloadProtocol.Controller.RestoreCaptured` | cmd/gc/api_state.go:2654-2676 | the restoring loop in any order, and whether it was complete |
| `ReloadProtocol.Controller.MutateAndPoke` | cmd/gc/api_state.go:2678-2706 | the fields, disk and outcome of a mutation, against the specification |
| `RecoveryThrottle.RecoveriesAreThrottled` | cmd/gc/beads_provider_lifecycle.go:1195-1262 | in every interleaving the clock readings of the cooldown checks behind a managed city's recoveries, collected from the events, are a cooldown apart even if the clock steps back, and a window of length L holds at most L / cooldown + 1 |
| `RecoveryThrottle.RecoveriesAreApart` | cmd/gc/beads_provider_lifecycle.go:1240-1252 | event by event: a managed recovery never begins without a cooldown check, and the readings of the checks behind any two recoveries of one city lie a cooldown apart |
| `RecoveryThrottle.CheckPassesIff` | cmd/gc/beads_provider_lifecycle.go:1245-1252 | the cooldown check lets an operation through if and only if its reading lies a cooldown past that of every earlier recovery of the city |
| `RecoveryThrottle.ClearedRecovers` | cmd/gc/beads_provider_lifecycle.go:1252-1254 | an operation let through goes on to recover |
| `RecoveryThrottle.SlotGrantedIff` | cmd/gc/beads_provider_lifecycle.go:2337-2349 | a waiting operation gets the slot if and only if no operation of its city is past the semaphore |
| `RecoveryThrottle.RecordAdvances` | cmd/gc/beads_provider_lifecycle.go:1245-1252 | a recovery begins with a reading a cooldown past the time on record, which it replaces; nothing else touches the record |
| `RecoveryThrottle.MutualExclusion` | cmd/gc/beads_provider_lifecycle.go:2337-2349 | in every interleaving at most one operation per city is past the semaphore |
| `RecoveryThrottle.ReachableInvariant` | cmd/gc/beads_provider_lifecycle.go:1195-1262 | exclusion, the holder of every occupied semaphore, the validity of a passed check and the reading it was passed at hold in every reachable state |
| `RecoveryThrottle.StepExclusive` | cmd/gc/beads_provider_lifecycle.go:2337-2349 | every step keeps the holder of a semaphore the only operation past it |
| `RecoveryThrottle.StepStillClear` | cmd/gc/beads_provider_lifecycle.go:1245-1252 | the record cannot change between the cooldown check and its update |
| `RecoveryThrottle.ReadingsRecorded` | cmd/gc/beads_provider_lifecycle.go:1245-1252 | the readings of the recoveries so far are spaced and end in the time on record |
| `RecoveryThrottle.WindowBound` | cmd/gc/beads_provider_lifecycle.go:65-82 | spaced attempts fill a window at most length / cooldown + 1 times |
| `RecoveryThrottle.Provider.TakeSlot` | cmd/gc/beads_provider_lifecycle.go:2337-2349 | the slot taken in place, or the attempt given up, and nothing else changed |
| `RecoveryThrottle.Provider.PassGate` | cmd/gc/beads_provider_lifecycle.go:1245-1252 | the cooldown gate on the maps in place: when it lets through, and that exactly then the reading is on record |
| `RecoveryThrottle.Provider.DecideRecovery` | cmd/gc/beads_provider_lifecycle.go:1225-1256 | which probe answers lead to a recover operation, with the reading of a managed one on record |
| `RecoveryThrottle.Provider.Finish` | cmd/gc/beads_provider_lifecycle.go:2337-2364 | the slot given back, and nothing else changed |
| `RecoveryThrottle.Provider.Operate` | cmd/gc/beads_provider_lifecycle.go:1216-1262 | what the holder of the slot does, up to giving it back |
| `RecoveryThrottle.Provider.CheckHealth` | cmd/gc/beads_provider_lifecycle.go:1195-1265 | one health check is the sequence of its protocol steps, recovers exactly when the slot is free, the answer calls for it and a managed cooldown has passed, leaves the reading of a managed recovery on record and the slot free |
| `WorktreeReaper.ReapedOnlyIfSafe` | cmd/gc/bead_worktree_reaper.go:94-364 | over all rigs in any order, whatever is reaped belongs to a closed bead (the first bead its own name reads as, or its parent's inside the rig tree when its own reads as none), is past quarantine, inside its tree, unborrowed as far as the batched scan sees, unused and git-clean |
| `WorktreeReaper.EveryClearTreeChosen` | cmd/gc/bead_worktree_reaper.go:94-364 | conversely every listed tree of which all of that holds is reaped |
| `WorktreeReaper.ChoosesIff` | cmd/gc/bead_worktree_reaper.go:94-364 | a rig chooses a tree if and only if all of that holds of it |
| `WorktreeReaper.OpenLeafStays` | cmd/gc/bead_worktree_reaper.go:554-563 | a tree whose own name reads as a bead that is not closed is never reaped, whatever its parent is called |
| `WorktreeReaper.RealRunRemoves` | cmd/gc/bead_worktree_reaper.go:319-361 | a real run removes exactly the trees it reports as reaped, in order; what git refused is not among them |
| `WorktreeReaper.NoScanNoReaping` | cmd/gc/bead_worktree_reaper.go:94-364 | without a process scan nothing is reaped |
| `WorktreeReaper.EveryTreeAccounted` | cmd/gc/bead_worktree_reaper.go:94-364 | every worktree of a closed bead ends in exactly one outcome per listing and no other path is reported |
| `WorktreeReaper.RigAccounts` | cmd/gc/bead_worktree_reaper.go:94-364 | the same for one rig |
| `WorktreeReaper.RigChooses` | cmd/gc/bead_worktree_reaper.go:94-364 | one rig adds exactly its candidates that pass every gate |
| `WorktreeReaper.DryRunPredicts` | cmd/gc/bead_worktree_reaper.go:94-364 | whatever git refuses: a dry run removes nothing, protects the same trees and reports as reaped exactly what the real run decides to reap, each as often, and in the same order if git refuses nothing |
| `WorktreeReaper.BatchedVetoIff` | cmd/gc/bead_worktree_reaper.go:474-504 | the batched scan vetoes exactly as the per-candidate check, except candidates replaced by a twin or named only second by every borrower |
| `WorktreeReaper.BatchedVetoExact` | cmd/gc/bead_worktree_reaper.go:474-504 | so the two agree when normalized paths are distinct and no bead's keys name two candidates |
| `WorktreeReaper.TwoKeysProtectOne` | cmd/gc/bead_worktree_reaper.go:474-504 | a bead naming two candidates protects only the first |
| `WorktreeReaper.TwinUnprotected` | cmd/gc/bead_worktree_reaper.go:474-504 | of two candidates with one normalized path only the later is protected |
| `WorktreeReaper.ScanVetoes` | cmd/gc/bead_worktree_reaper.go:474-504 | the two loops of the batched scan, against their specification |
| `WorktreeReaper.ClassifyIff` | cmd/gc/bead_worktree_reaper.go:163-227 | the first pass makes a worktree a candidate, or quarantines it as too young or of unknown age, each exactly when it is due: told from its path, its bead and its age |
| `WorktreeReaper.IgnoredIff` | cmd/gc/bead_worktree_reaper.go:163-198 | it ignores exactly the worktrees that belong to no closed bead |
| `WorktreeReaper.BeadOfIff` | cmd/gc/bead_worktree_reaper.go:554-563 | the bead is the one the leaf reads as, and the parent's only when the leaf reads as none and the parent lies strictly inside the rig's tree |
| `WorktreeReaper.FirstBeadIff` | cmd/gc/bead_worktree_reaper.go:569-581 | a name reads as a bead exactly when that is the first adjacent pair of its dash-separated parts that can be one |
| `WorktreeReaper.SplitDashParts` | cmd/gc/bead_worktree_reaper.go:573 | the parts hold no dash and joined by dashes give the name back |
| `WorktreeReaper.OneSplit` | cmd/gc/bead_worktree_reaper.go:573 | and there is only one such split |
| `WorktreeReaper.FirstBead` | cmd/gc/bead_worktree_reaper.go:569-581 | the first adjacent pair of parts that reads as a bead id, and "" only if none does |
| `WorktreeReaper.WorktreeIsLive` | cmd/gc/bead_worktree_liveness.go:128-148 | finds exactly the trees at or beneath which a process or session works |
| `WorktreeReaper.CollectLive` | cmd/gc/bead_worktree_liveness.go:77-115 | every readable working directory, once each |
| `WorktreeReaper.Sweep.Discover` | cmd/gc/bead_worktree_reaper.go:94-235 | the first pass over a rig, against its specification |
| `WorktreeReaper.Sweep.Inspect` | cmd/gc/bead_worktree_reaper.go:236-364 | the gates of the second pass on one candidate, in order |
| `WorktreeReaper.Sweep.SweepRig` | cmd/gc/bead_worktree_reaper.go:94-364 | one rig, against the specification |
| `WorktreeReaper.Sweep.SweepAll` | cmd/gc/bead_worktree_reaper.go:94-364 | the whole pass, against the specification |
| `Paths.AtOrUnderIsContainment` | cmd/gc/bead_worktree_liveness.go:156-168 | the liveness test is exactly containment on clean paths |
| `Paths.StrictlyUnderIff` | cmd/gc/bead_worktree_reaper.go:585-600 | the strict test is containment except for a child whose name starts with two dots |
| `Paths.TwoDotChildExample` | cmd/gc/bead_worktree_reaper.go:585-600 | an input: "..cache" inside "rigs" is refused |
| `CityRegistry.Observe` | cmd/gc/city_registry.go:173-257 | along any run of operations every published snapshot is one the three loops can build from the maps of its moment, and none changes afterwards |
| `CityRegistry.GenerationsOrder` | cmd/gc/city_registry.go:480-541 | of two snapshots of a run the later has the greater generation exactly when a rebuild lies between, and equal generations show equal maps, until the 64-bit counter has gone round |
| `CityRegistry.GenerationGrowsIff` | cmd/gc/city_registry.go:480-492 | one rebuild raises the generation if and only if it was not 2^64 - 1 |
| `CityRegistry.ReachableByNameIff` | cmd/gc/city_registry.go:411-424 | a city that is up is found by name in every snapshot the three loops can publish if and only if no initializing city carries the name and all managed ones of that name offer the same state |
| `CityRegistry.DisplacedNameExample` | cmd/gc/city_registry.go:502-517 | an input: a running city is found by no snapshot while another city of its name initializes |
| `CityRegistry.StateOfIsHonest` | cmd/gc/city_registry.go:411-424 | lookup by name yields only the state of a started, not tombstoned city of that name |
| `CityRegistry.FailuresHaveNoName` | cmd/gc/city_registry.go:519-538 | a failure-only view answers to no name |
| `CityRegistry.SomeRebuildAnswers` | cmd/gc/city_registry.go:480-541 | every entry that may answer to a name does so in the rebuild that places it last of its loop |
| `CityRegistry.RemoveForgets` | cmd/gc/city_registry.go:182-190 | Remove leaves no trace of the path and moves nothing else |
| `CityRegistry.AddShows` | cmd/gc/city_registry.go:173-180 | every snapshot published after Add shows the city's fields at its path and every other path as before |
| `CityRegistry.UpdateShows` | cmd/gc/city_registry.go:234-241 | so does one after the update of a known city; an unknown one changes and publishes nothing |
| `CityRegistry.ViewTells` | cmd/gc/city_registry.go:494-538 | the view of a path tells a managed city's own fields, else the progress of its initialization, else its failure |
| `CityRegistry.BaseTells` | cmd/gc/city_registry.go:519-538 | a failure goes by the last name of its path, whatever slashes follow |
| `CityRegistry.RebuildShows` | cmd/gc/city_registry.go:480-541 | every snapshot the three loops can build has one view per known path under the stated precedence, and names as the maps decide them |
| `CityRegistry.FillNames` | cmd/gc/city_registry.go:480-541 | which entry answers to a name while the snapshot is being filled |
| `CityRegistry.Registry.Rebuild` | cmd/gc/city_registry.go:480-541 | the three loops publish a new object that shows the maps, one generation on |
| `CityRegistry.Registry.Perform` | cmd/gc/city_registry.go:173-257 | each mutator: the maps, the generation and whether a new snapshot is published |
| `CityRegistry.AddCities` | cmd/gc/city_registry.go:494-500 | the loop over the managed cities, in any order |
| `CityRegistry.AddInitializing` | cmd/gc/city_registry.go:502-517 | the loop over cities still initializing |
| `CityRegistry.AddFailures` | cmd/gc/city_registry.go:519-538 | the loop over failures, which take no name |
| `AdoptionBarrier.CountsAreConserved` | cmd/gc/adoption_barrier.go:54-288 | Total = Adopted + AlreadyHadBead + Skipped for every completed pass |
| `AdoptionBarrier.PassesIff` | cmd/gc/adoption_barrier.go:71-288 | the barrier passes if and only if the running sessions were listed in full and none that needs a bead fails its probe or its create |
| `AdoptionBarrier.PassedMeansCovered` | cmd/gc/adoption_barrier.go:54-288 | a passed run leaves every live session with an open bead if and only if each one taken for covered from the listing was |
| `AdoptionBarrier.StaleListingExample` | cmd/gc/adoption_barrier.go:85-104 | an input: a listing that shows a bead closed meanwhile lets the barrier pass with a live session that has none |
| `AdoptionBarrier.AtMostOneBeadEach` | cmd/gc/adoption_barrier.go:54-288 | beads are only added, for live unlisted sessions without one, at most one per name even if names repeat |
| `AdoptionBarrier.UnskippedCovered` | cmd/gc/adoption_barrier.go:54-288 | a run that skips nothing adds exactly the uncovered names |
| `AdoptionBarrier.RerunReachesTheSame` | cmd/gc/adoption_barrier.go:54-288 | stop any run after any prefix, and let the rerun's listing miss what it may: a successful rerun covers exactly the names one uninterrupted successful run would have, if and only if the two listings wrongly show the same live names as covered |
| `AdoptionBarrier.SuccessCovers` | cmd/gc/adoption_barrier.go:54-288 | a successful run covers all live names but those its listing wrongly shows as covered |
| `AdoptionBarrier.DryRunPredictsIff` | cmd/gc/adoption_barrier.go:54-288 | for every bead listing: a dry run adopts nothing, never promises fewer adoptions than a successful run makes, and promises exactly as many if and only if no uncovered name is listed twice and none has an open bead that the listing missed |
| `AdoptionBarrier.RealRunCounts` | cmd/gc/adoption_barrier.go:242-284 | a successful run adopts each uncovered name that has no open bead, once |
| `AdoptionBarrier.RepeatedNameExample` | cmd/gc/adoption_barrier.go:54-288 | an input: a session listed twice is promised two adoptions and gets one |
| `AdoptionBarrier.MissedBeadExample` | cmd/gc/adoption_barrier.go:236-296 | an input: a session whose open bead the listing missed is promised an adoption and gets none |
| `AdoptionBarrier.PoolInstanceRecovered` | cmd/gc/adoption_barrier.go:303-355 | the N-th instance of a pool is identified as instance N in every iteration order |
| `AdoptionBarrier.IdentifyTells` | cmd/gc/adoption_barrier.go:129-221 | every session is adopted as the last agent configured for its very name, else as the first singleton of its base without the suffix, else as that instance of the first pool of its base, else as itself; the slot only for pools, flagged beyond their maximum |
| `AdoptionBarrier.ParseSlotIff` | cmd/gc/adoption_barrier.go:345-355 | a name is slot n if and only if it ends in a dash and digits of that value, which fits an int |
| `AdoptionBarrier.PoolInstanceReported` | cmd/gc/adoption_barrier.go:129-284 | unless covered by the listing or skipped it has an entry in the report, and every entry under its name says that it is that instance of that pool |
| `AdoptionBarrier.DetailsAreAbout` | cmd/gc/adoption_barrier.go:129-284 | every entry of the report is about a live session, identified unless the listing covered it |
| `AdoptionBarrier.SessionsHaveDetails` | cmd/gc/adoption_barrier.go:129-284 | every live session that is not skipped has an entry |
| `AdoptionBarrier.PoolNameRoundTrips` | cmd/gc/adoption_barrier.go:303-355 | a pool session's name yields its slot and its base |
| `AdoptionBarrier.BaseNameIff` | cmd/gc/adoption_barrier.go:303-341 | cutting off the slot undoes appending it if and only if the suffix has no leading zero |
| `AdoptionBarrier.LeadingZeroExample` | cmd/gc/adoption_barrier.go:303-355 | an input: "worker-03" is slot 3 and is cut to "worker-" |
| `AdoptionBarrier.SessionStore.Adopt` | cmd/gc/adoption_barrier.go:242-280 | probe and create under the locks |
| `AdoptionBarrier.SessionStore.AdoptAll` | cmd/gc/adoption_barrier.go:129-284 | the loop over the running sessions, against the specification |
| `AdoptionBarrier.SessionStore.Run` | cmd/gc/adoption_barrier.go:54-288 | every way out of the barrier, with counters, details, store and verdict; a partial listing never passes |

## Left out

- Store, git, Dolt, TOML, JSON, subprocess, file system, event and log calls: only their answers appear, as parameters.
- Session discovery and template or provider resolution: they rest on many predicates outside these components.
- The order-dependent assignee expansion and the assigned-work collection: no order independence holds of them.
- Backend projection of the bd environment, storage policies, city discovery, status rendering, API routing: decision tables and plumbing that would only add easy members.
- Skip and defer trackers, rollout drift notices: small counters and edge detectors.
- Titles, packs and other side data of the scale check demand: only counts, ids and partial marks are modelled.
- Trigger metadata of a planned create and the steps of collapsing a singleton's session to its canonical identity: only whether that collapse fails is modelled.
- The effects of offering a dependency floor: the walk records the offer, creating the session behind it is not modelled.
- Fragments, the `[pack]` table of city.toml, the import-state check for wave-1 packs and lockfile synchronisation: the migration is modelled on city.toml and pack.toml.
- Normalization of repair domains and city paths into keys: domains and cities are taken as already normalized keys.
- The two ways a reload is installed (reusing open stores or reopening them): both set the same config, so they are one step.
- Races between processes on shared files, and steps finer than the documented locks: each locked section is one atomic step.
- Phase B of `PoolRealize`: the workers finish one at a time in an arbitrary order; goroutines writing the shared array at once are not modelled.
- RecoveryThrottle: interleavings are runs of a state machine on values; the class updates its maps in place for one uninterrupted health check. Recoveries of providers outside the managed contract are not throttled in the code and so not counted.
- RecoveryThrottle.Provider.TakeSlot: in place a taken slot is given up at once; waiting for its release is a matter of the interleavings, where an operation stays in its waiting phase until it acquires or gives up.
- WorktreeReaper.ReapedOnlyIfSafe: "borrowed by no bead" holds as far as the batched scan can see; BatchedVetoIff says exactly what it cannot.
- AdoptionBarrier.SessionStore.Run: a failed create is taken to leave no bead, and the metadata of a created bead beyond its identity is not modelled.
- CityRegistry: the pending request ids, event providers and recently unregistered list beside the maps.
- DependencyFloors.RealizeFloors: which config predicates make a template live is a parameter.
- ManifestMigration.FixKeepsCityIff: where a pack.toml binding named "" competes with others, which landings add a binding is up to the runtime's order, and the condition says so through that order; FixKeepsCityInAnyOrderIff is free of it.
- ReadyCache.ServeReads: the once-only entries are taken as filled by one caller at a time.
