# Verified model of the voxel world server

This project models the stateful core of a deterministic voxel-world server and proves properties of it in
Dafny. `dafny verify dfyconfig.toml` checks everything.

| file | what it models |
|---|---|
| `escrow.dfy`, `escrow_safety.dfy`, `escrow_lifecycle.dfy`, `escrow_payouts.dfy`, `escrow_order.dfy`, `escrow_ticks.dfy`, `escrow_terms.dfy`, `world.dfy` | contracts and their escrow in terminals: what the handlers compute, when a request is granted and what is recorded, what a tick does to each contract, the invariants over all runs, the life of a contract, who is paid what, when the order of a tick matters, and the handlers and settler as they run |
| `items.dfy`, `item_lives.dfy`, `conveyor.dfy`, `belt_steps.dfy`, `wirepower.dfy` | dropped items, their position index and their lifetimes, the two-pass belt tick and what each belt does in it, the budgeted power search |
| `wanted.dfy`, `observer.dfy`, `observer_turns.dfy`, `voxelstream.dfy`, `voxel_waiting.dfy` | which chunks an observer wants; the surface stream over a channel that may refuse any message; the voxel stream, exactly when it fails, and which chunks are never shown |
| `detour.dfy`, `rollback.dfy` | the bounded detour search; the administrator's undo |
| `chunkstore.dfy`, `stats.dfy`, `events.dfy`, `codec.dfy`, `codec_bytes.dfy`, `voxel_loss.dfy` | fast forms and the simple forms they refine: lazy chunks, rolling counts, event logs with cursors, voxel encodings and what is left of them when messages are lost |
| `claims.dfy`, `claim_terms.dfy`, `orgs.dfy`, `org_steps.dfy`, `rates.dfy`, `trade.dfy` | land claims, organisations, rate limits, taxed trades |
| `common.dfy`, `coords.dfy`, `bags.dfy` | shared types, chunk coordinates, item maps with sums |

Each component has a specification (functions on values) and, where the program changes things in place, a
class or method with the program's own loops that is proved to compute that specification. The properties are
proved about the specification, most of them over whole runs. Loops over Go maps pick their next key freely,
so what is proved of them holds for every iteration order. What the specifications mean is said once more without
them: lemmas state results in terms of the request, the state and plain arithmetic alone.

## What the proofs found

- Terminals delete an entry once it is not positive, which would create items if a terminal were short
  (`Bags.DrainIsExactIffCovered`). No run gets there, because reservations always equal the stakes of the live
  contracts and stock covers them.
- A rate limit of `max` per window admits up to `2 * max - 1` actions in a span of window length; for a window
  of one tick the bound is `max`. Both are reached (`RateLimits.SpanBoundIsTight`).
- The order in which a tick meets the contracts decides who is served exactly when deliverable contracts compete
  for goods at one terminal (`EscrowOrder.OrderMattersIffContested`).
- The voxel stream, unlike the surface stream, lets the client fall out of step. The condition in
  `VoxelStream.Misses` is exact. One case needs nothing unusual: a newly wanted chunk whose turn does not come in
  its first tick loses its blocks for good, because its unset block list comes back from the copy as an empty list
  that is no longer nil. With eight fulls a tick and nine or more chunks wanted at first sight, the client never
  sees the ninth or any later one while the focus stays where it is (`WaitingChunks.NinthChunkIsNeverShown`).
- An agent's voxel array is sent as changes to the last one built, which need not be the last one received. A
  receiver that misses such a message keeps the wrong cells until they change again, a whole array arrives, or a
  tick passes without change (`VoxelLoss.LostChangeLingers`, `VoxelLoss.WholeArrayRepairs`).
- An organisation's treasury vanishes with its last member. Apart from that the organisation handlers conserve
  every item.

## Model

| member | source | states |
|---|---|---|
| `EscrowSafety.RunsAreSolventAndConserve` | internal/sim/world/feature/contracts/instants/lifecycle_handlers.go:45-260 | Over every run of posting, accepting, submitting, claiming, settler ticks in any contract order, belt ticks, walking, and agents leaving for other worlds and coming from them, every terminal has reserved exactly what its live contracts keep in escrow and holds at least that, nobody is in debt, and the total of each item over agents, containers, debts and the floor changes by exactly what agents bring and take |
| `EscrowSafety.FreshWorldIsGood` | internal/sim/world/kernel/model/container.go:47-66 | A world without contracts, reservations or debts satisfies the run invariant, so the runs above start somewhere |
| `EscrowSafety.StepSafe` | internal/sim/world/feature/contracts/instants/lifecycle_handlers.go:45-260 | Any single step, refused or not, keeps the invariant, and the total of every item but for what a leaving or arriving agent carries |
| `EscrowSafety.SettleAllSafe` | internal/sim/world/contracts_facade.go:39-123 | A settler tick keeps solvency and every total for every order in which the contract map is walked |
| `EscrowSafety.PlanSafe` | internal/sim/world/feature/contracts/runtime/runtime.go:44-75 | Carrying out a settlement never reaches the branch that deletes a short entry: the invariant and all totals survive whenever reward and paid deposit both go to somebody |
| `EscrowSafety.SubmitSafe` | internal/sim/world/feature/contracts/instants/lifecycle_handlers.go:180-260 | Submitting, refused or not, keeps every reservation covered, every other contract's stake reserved, and every item total |
| `EscrowSafety.ClaimSafe` | internal/sim/world/feature/contracts/instants/claim_owed.go:15-44 | Collecting debts, refused or not, keeps the books of every terminal and every item total |
| `EscrowSafety.ConveyorSafe` | internal/sim/world/feature/conveyor/runtime/system.go:63-185 | Belts inserting into and pulling out of terminals never break a reservation or a total |
| `EscrowSafety.DepartKeeps` | internal/sim/world/feature/transfer/runtime/world_handlers.go:77-107 | Taking an agent out, whatever contracts it has running, keeps the invariant, and each total falls by exactly its purse |
| `EscrowSafety.ArriveKeeps` | internal/sim/world/feature/transfer/runtime/world_handlers.go:25-60 | An arrival, admitted or turned away, keeps the invariant, and each total grows by exactly the positive counts it carries |
| `EscrowSafety.TravelConserves` | internal/sim/world/feature/transfer/runtime/world_handlers.go:25-107 | Over two worlds, going from one to another that admits the agent conserves every named item |
| `Bags.DrainIsExactIffCovered` | internal/sim/world/feature/contracts/runtime/runtime.go:63-66 | Subtract-then-delete-if-not-positive removes exactly what was asked for if and only if the map held it; short, it hands out items it never had |
| `EscrowLifecycle.EscrowReleasedExactlyOnce` | internal/sim/world/feature/contracts/core/core.go:70-155 | Along every run a live contract leaves escrow at most once, settled contracts are absorbing, an accepted one changes only its status, and terms stay as posted apart from the acceptor and its scaled deposit |
| `EscrowLifecycle.NoOverdueContracts` | internal/sim/world/contracts_facade.go:39-123 | After a settler tick at now no live contract has a deadline before now, for every walk order |
| `EscrowTicks.WhatSettlingDoes` | internal/sim/world/feature/contracts/core/core.go:70-95 | One contract comes up: a settled one is left alone; a running one fails without its terminal or past its deadline, is completed when its goods lie free or its build stands, and otherwise nothing in the world changes |
| `EscrowTicks.ChangedIffDone` | internal/sim/world/feature/contracts/core/core.go:70-95 | Within its deadline and with its terminal standing, a running contract is changed if and only if it is accepted and its work is done |
| `EscrowTicks.WaitingIsLeftAlone` | internal/sim/world/contracts_facade.go:39-123 | In every walk order an open contract within its deadline, and an accepted build that does not stand, are as they were after the tick |
| `EscrowTicks.ShortIsLeftAlone` | internal/sim/world/contracts_facade.go:39-123 | So is an accepted delivery whose goods are short when the tick begins, because free stock only falls |
| `EscrowTicks.WhatTheTickDoes` | internal/sim/world/contracts_facade.go:39-123 | Where the goods suffice for all, a tick completes exactly the contracts whose work was done when it began, fails exactly the running ones past their deadline, and leaves all others alone |
| `EscrowLifecycle.SubmitMatchesAutoCompletion` | internal/sim/world/contracts_facade.go:62-97 | For a submittable contract, submitting by hand and completion by the tick leave identical holdings, terminals and contracts once the poster has collected; with the poster gone the states are equal at once |
| `EscrowPayouts.CompletionPays` | internal/sim/world/contracts_facade.go:62-123 | Completion by the tick brings the acceptor reward and deposit and the poster the goods, in hand when present and as a debt of the terminal when not, and nobody else anything |
| `EscrowPayouts.FailureRefundsPoster` | internal/sim/world/contracts_facade.go:62-123 | Past the deadline the contract fails and the poster gets the reward, and the deposit if one was paid, in hand or as a debt; nobody else gets anything |
| `EscrowPayouts.SubmissionPays` | internal/sim/world/feature/contracts/instants/lifecycle_handlers.go:225-256 | A submission brings the acceptor reward and deposit in hand, adds the goods to what the terminal owes the poster, and brings nobody else anything |
| `EscrowPayouts.CollectionPays` | internal/sim/world/feature/contracts/instants/claim_owed.go:30-43 | Collecting turns the whole debt into items in hand and leaves everybody else's hands and debts alone |
| `EscrowPayouts.PayerAlonePays` | internal/sim/world/feature/contracts/instants/lifecycle_handlers.go:81-85 | What is escrowed leaves the payer alone and raises the reservation by the same amounts |
| `EscrowTerms.PostGrantedIff` | internal/sim/world/feature/contracts/validation/validation.go:22-45 | A post is granted exactly near a contract terminal, for a reward the poster has, with a blueprint for a build and some requirement otherwise |
| `EscrowTerms.PostRecordsTheRequest` | internal/sim/world/feature/contracts/instants/lifecycle_handlers.go:87-105 | The next number gets a contract with poster, terminal and kind of the request, open and without acceptor; its requirements, reward and deposit are, item by item, the sums of the positive counts in the matching list; its deadline is the explicit one, else now plus the duration or a day |
| `EscrowTerms.PostPaysTheReward` | internal/sim/world/feature/contracts/instants/lifecycle_handlers.go:81-85 | The poster pays exactly the reward sum into stock and reservation, nobody else anything |
| `EscrowTerms.AcceptGrantedIff` | internal/sim/world/feature/contracts/validation/validation.go:57-77 | Accepting is granted exactly for an open contract, at its near terminal, in time, to an agent that has the scaled deposit |
| `EscrowTerms.AcceptRecordsTheDeposit` | internal/sim/world/feature/contracts/instants/lifecycle_handlers.go:166-173 | The contract gets its acceptor and, item by item, the deposit times a multiplier above one; the acceptor pays exactly that; all other terms stay |
| `EscrowTerms.DepositIsScaled` | internal/sim/world/feature/contracts/lifecycle/logic.go:27-49 | Each named positive entry is multiplied by a multiplier above one and kept otherwise; the rest is dropped |
| `EscrowTerms.SubmitGrantedIff` | internal/sim/world/feature/contracts/validation/validation.go:90-110 | Submitting is granted exactly to the acceptor, at the near terminal, in time, with the goods free or the build standing |
| `EscrowTerms.ClaimGrantedIff` | internal/sim/world/feature/contracts/instants/claim_owed.go:16-32 | Collecting is granted exactly within three steps of a container |
| `EscrowTerms.PostCodeIsTrue` | internal/sim/world/feature/contracts/validation/validation.go:22-45 | The code of a refused post names a fault that is there |
| `EscrowTerms.AcceptCodeIsTrue` | internal/sim/world/feature/contracts/validation/validation.go:57-77 | The same for accepting |
| `EscrowTerms.SubmitCodeIsTrue` | internal/sim/world/feature/contracts/validation/validation.go:90-110 | The same for submitting |
| `EscrowTerms.RefusedChangesNothing` | internal/sim/world/feature/contracts/instants/lifecycle_handlers.go:74-77 | A refused request of any of the four kinds leaves the world as it was |
| `EscrowTerms.ArrivalIs` | internal/sim/world/feature/transfer/runtime/world_handlers.go:25-60 | An arrival with an id not taken stands on the ground with the named items it brought some of; any other changes nothing |
| `EscrowTerms.DepartureIs` | internal/sim/world/feature/transfer/runtime/world_handlers.go:77-107 | A departure leaves contracts, stakes and debts in place and every other agent as it was |
| `EscrowOrder.OrderMattersIffContested` | internal/sim/world/contracts_facade.go:39-123 | All walk orders of a tick end in the same contracts and the same counts everywhere if and only if, when the tick begins, the free stock of each terminal covers what all its deliverable contracts want together |
| `EscrowOrder.TheOrderCanMatter` | internal/sim/world/contracts_facade.go:39-123 | The condition can fail in a good state: two deliveries, goods for one |
| `EscrowOrder.Accounted` | internal/sim/world/contracts_facade.go:62-97 | In any order the free stock of a terminal falls by exactly what the contracts completed by delivery took |
| `EscrowOrder.SettleChanges` | internal/sim/world/contracts_facade.go:62-123 | What settling one contract changes at any hand, debt, stock or reservation depends only on the contract, the agents present and the decision |
| `WorldState.World.HandlePostContract` | internal/sim/world/feature/contracts/instants/lifecycle_handlers.go:45-110 | In place: result code and whole new state are those of the specification, or nothing changes |
| `WorldState.World.HandleAcceptContract` | internal/sim/world/feature/contracts/instants/lifecycle_handlers.go:112-178 | In place: the scaled deposit is escrowed and the contract accepted exactly when every check passes |
| `WorldState.World.HandleSubmitContract` | internal/sim/world/feature/contracts/instants/lifecycle_handlers.go:180-260 | In place: goods to the poster's debts, reward and deposit to the acceptor, contract completed, exactly when every check passes |
| `WorldState.World.HandleClaimOwed` | internal/sim/world/feature/contracts/instants/claim_owed.go:15-44 | In place: the whole debt to the agent is emptied into its inventory |
| `WorldState.World.TickContracts` | internal/sim/world/contracts_facade.go:39-123 | In place: one walk over all contracts, each exactly once, in an order the method does not choose |
| `WorldState.TransferItems` | internal/sim/world/feature/contracts/runtime/runtime.go:44-123 | The loop over an item map equals draining the source, releasing reservations if asked to and filling the receiver, whatever the iteration order |
| `WorldState.EscrowItems` | internal/sim/world/feature/contracts/instants/lifecycle_handlers.go:81-85 | The escrow loop equals one subtraction from the purse and one addition to stock and reservation, whatever the iteration order |
| `WorldState.ScaledDeposit` | internal/sim/world/feature/contracts/lifecycle/logic.go:27-49 | The loop scales every positive entry by the multiplier and drops the rest |
| `WorldState.HasItems` | internal/sim/world/feature/economy/inventory/inventory.go:54-64 | The early-exit loop over a request answers whether an inventory covers it |
| `WorldState.HasAll` | internal/sim/world/feature/contracts/reputation/reputation.go:41-51 | The same for what a container has available |
| `WorldState.World.ValidatePost` | internal/sim/world/feature/contracts/validation/validation.go:22-45 | The checks one by one give the code of the specification |
| `WorldState.World.ValidateAccept` | internal/sim/world/feature/contracts/validation/validation.go:57-77 | The same for accepting, with the scaled deposit computed before the checks |
| `WorldState.World.ValidateSubmit` | internal/sim/world/feature/contracts/validation/validation.go:90-110 | The same for submitting |
| `WorldState.World.HandleTransferOut` | internal/sim/world/feature/transfer/runtime/world_handlers.go:77-107 | In place: the agent is gone and its positive counts are handed over |
| `WorldState.World.HandleTransferIn` | internal/sim/world/feature/transfer/runtime/world_handlers.go:25-60 | In place: the agent is there with its positive counts, or nothing changes when it has no id or is present already |
| `DroppedItems.RunKeepsIndexed` | internal/sim/world/feature/entities/items/runtime.go:9-181 | Under any interleaving of spawn with merging, remove, move and cleanup, the position index and the entity table agree |
| `DroppedItems.EachEntityListedExactlyOnce` | internal/sim/world/feature/entities/items/runtime.go:9-81 | Agreement in terms of occurrences: a live id is listed once, where it stands, nowhere else, and no list is empty |
| `DroppedItems.SpawnKeeps` | internal/sim/world/feature/entities/items/runtime.go:9-81 | Spawning keeps the agreement and adds exactly the spawned count of that item to the floor, merged or not |
| `DroppedItems.MoveKeeps` | internal/sim/world/feature/entities/items/runtime.go:112-151 | Moving keeps the agreement and every floor total |
| `DroppedItems.ItemStore.CleanupExpired` | internal/sim/world/feature/entities/items/runtime.go:153-181 | Removing the expired one at a time equals one filter of table and index, whatever the order |
| `DroppedItems.FindMergeTarget` | internal/sim/world/feature/entities/items/items.go:12-26 | The first listed live entity of the item, or none exactly when there is none |
| `DroppedItems.RemoveID` | internal/sim/world/feature/entities/items/items.go:28-37 | Removes the first occurrence of an id and keeps the order of the others |
| `ItemLives.WhatSpawningDoes` | internal/sim/world/feature/entities/items/runtime.go:21-80 | Spawning adds to an entity of the item that lies there and puts its time off to 6000 ticks from now unless it is later already; otherwise a new entity lies there |
| `ItemLives.WhatCleanupDoes` | internal/sim/world/feature/entities/items/runtime.go:153-181 | A cleanup removes exactly the entities whose time has come, zero meaning never |
| `ItemLives.LivesUntilItsTime` | internal/sim/world/feature/entities/items/runtime.go:9-181 | Over any run an entity lives until its time unless it is removed, and its time is only ever put off |
| `Conveyor.TickKeeps` | internal/sim/world/feature/conveyor/runtime/system.go:63-185 | A whole two-pass tick in any order keeps the index agreement and reservations covered by stock, and neither creates nor destroys an item |
| `BeltSteps.WhatPushingDoes` | internal/sim/world/feature/conveyor/runtime/system.go:78-130 | An item on a standing belt that is enabled goes, with all its count, into the container ahead, else onto the cell ahead unless blocked; every other item stays and nothing else changes |
| `BeltSteps.WhatPullingDoes` | internal/sim/world/feature/conveyor/runtime/system.go:135-184 | An enabled belt with nothing on it pulls exactly one unit of the least item that the container behind has unreserved; any other belt changes nothing |
| `BeltSteps.TurnDecides` | internal/sim/world/feature/conveyor/runtime/system.go:63-185 | What becomes of an item in the whole tick is decided by the power rule, containers and blocks in the state its turn comes in |
| `BeltSteps.StoppedBeltHolds` | internal/sim/world/feature/conveyor/runtime/system.go:90-92 | An item whose belt is enabled in no state of the tick ends where it was |
| `BeltSteps.RunningBeltCarries` | internal/sim/world/feature/conveyor/runtime/system.go:94-130 | An item whose belt is enabled in all of them ends one step along it if the cell ahead is open, and in the container if one stands there |
| `Conveyor.BeltRunsStaySound` | internal/sim/world/feature/conveyor/runtime/system.go:63-185 | Any interleaving of floor operations and whole belt ticks keeps the index agreement and the escrow cover |
| `Conveyor.EntitiesMoveAtMostOneCell` | internal/sim/world/feature/conveyor/runtime/system.go:63-185 | An entity there before and after a tick is where it was or one step along its own belt, and at most one cell away when belts are one cell long, though the tick edits what it walks |
| `Conveyor.YawIsNearest` | internal/sim/world/feature/conveyor/runtime/runtime.go:116-133 | For every yaw, negative ones too, the direction of the belt is within 45 degrees of it, and none of the four directions is nearer |
| `Conveyor.YawToDir` | internal/sim/world/feature/conveyor/runtime/runtime.go:116-133 | Every direction laid by yaw is one cell long |
| `Conveyor.LayingKeepsUnitBelts` | internal/sim/world/feature/conveyor/runtime/runtime.go:116-133 | Laying a belt by any yaw keeps every belt of the grid one cell long, the condition under which no entity moves further than one cell |
| `Conveyor.BeltWorld.Run` | internal/sim/world/feature/conveyor/runtime/system.go:63-185 | In place: the two loops equal the specification tick for some order naming every live entity and every belt exactly once |
| `Conveyor.PickAvailableItem` | internal/sim/world/feature/conveyor/runtime/runtime.go:68-87 | The smallest item id that is in stock and not reserved, or the empty id exactly when there is none |
| `WirePower.WirePoweredBySwitch` | internal/sim/world/logic/conveyorpower/logic.go:62-116 | A true answer always has a wire path from a start to a wire beside an active control; whenever the wires reachable from the starts fit the budget the answer is exactly that reachability; the search ends in unbounded worlds |
| `WirePower.Enabled` | internal/sim/world/logic/conveyorpower/logic.go:22-60 | Adjacent active control wins, adjacent inactive control stops, otherwise adjacent wires decide by reachability, and with neither the belt runs |
| `WirePower.NeighboursAreOneStepAway` | internal/sim/world/logic/conveyorpower/logic.go:15-20 | The neighbours the search looks at are exactly the cells one step away on the same level |
| `WirePower.DrivenMeans` | internal/sim/world/logic/conveyorpower/logic.go:84-97 | Driven means that a switch that is on, or a sensor that is, stands one step away |
| `Detour.DetourStep2D` | internal/sim/world/logic/movement/detour.go:27-118 | No step exactly when no walk of at most maxDepth free cells ends strictly nearer the target; otherwise the one free neighbour that every best detour begins with: nearest end, then fewest steps, then least first step in (x, z), each end being reached by its leading walk |
| `Detour.RecordedFirst` | internal/sim/world/logic/movement/detour.go:63-112 | The first step recorded for a cell is that of the shortest walks to it that set out by the earliest neighbour in the fixed order |
| `Detour.BestStepIsUnique` | internal/sim/world/logic/movement/detour.go:66-80 | The tie-breaks leave one first step |
| `Detour.NeighboursAreOneStepAway` | internal/sim/world/logic/movement/detour.go:42-43 | A step goes to one of the cells one step away |
| `Detour.TurnsInOrder` | internal/sim/world/logic/movement/detour.go:42-43 | The fixed order is east, west, south, north |
| `Detour.SearchIsOptimal` | internal/sim/world/logic/movement/detour.go:63-118 | A finished search has found an optimum over all walks, or shown there is none |
| `Detour.WalksAreCharted` | internal/sim/world/logic/movement/detour.go:63-118 | No walk within the bound reaches a cell sooner than the search did, nor as soon by an earlier neighbour of the start |
| `Observer.EveryRunIsCoherent` | internal/sim/world/feature/observer/stream/pipeline.go:61-181 | For every history of terrain whose changes are audited, of requests and of refused sends: after each step the client holds exactly the chunks marked sent, each cached surface is the world's, and chunks not awaiting a full show the client the cache |
| `Observer.StepKeepsCoherent` | internal/sim/world/feature/observer/stream/pipeline.go:61-181 | One step carries coherence with the old world to coherence with the new one, whatever the channel refuses |
| `Observer.CoherentMeans` | internal/sim/world/feature/observer/stream/pipeline.go:61-181 | A coherent chunk not awaiting a full shows the client exactly the present surface of the world |
| `Observer.SurfaceShowsBlocks` | internal/sim/world/feature/observer/chunks/chunks.go:89-110 | A surface shows each block of the chunk in its own column, and air in place of it past the boundary |
| `Observer.EveryRunShowsBlocks` | internal/sim/world/feature/observer/stream/pipeline.go:61-181 | End to end: after any run whose audits tell the changed blocks, whatever was refused, a chunk awaiting no full shows the client the present blocks, each in its column |
| `ObserverTurns.FullsSentExactly` | internal/sim/world/feature/observer/stream/pipeline.go:79-113 | Exactly those due chunks are sent in full that have fewer due ones before them than the budget, none of these and not itself refused |
| `ObserverTurns.WaitsExactly` | internal/sim/world/feature/observer/stream/pipeline.go:79-156 | A wanted chunk waits for a full after a step exactly when it was due and not sent, or when an audit named a column its cache had wrong and the patch was refused |
| `Observer.WantedChunksDelivered` | internal/sim/world/feature/observer/stream/pipeline.go:79-113 | With an accepting channel one step leaves the client with the present surface of every wanted chunk within the budget of fulls, from the front of the list |
| `WantedChunks.ComputeWantedChunks` | internal/sim/world/feature/observer/chunks/chunks.go:19-63 | Near chunks only, without repeats, at most the limit, ordered by (distance, CX, CZ); a near chunk left out comes after a full list |
| `WantedChunks.NearestIsLeast` | internal/sim/world/feature/observer/chunks/chunks.go:32-43 | The distance of a chunk is attained by an agent whose square holds it, and none is nearer |
| `WantedChunks.WantedIffRanked` | internal/sim/world/feature/observer/chunks/chunks.go:44-63 | A near chunk is listed if and only if fewer near chunks than the limit come ahead of it, and that number is its place |
| `WantedChunks.WantedIsUnique` | internal/sim/world/feature/observer/chunks/chunks.go:19-63 | There is exactly one such list, whatever order the map yields its keys in |
| `WantedChunks.NearestChunksShown` | internal/sim/world/feature/observer/stream/pipeline.go:72-113 | From agent positions: one accepted step shows the client each near chunk with fewer near chunks ahead of it than the limit and the budget allow |
| `Observer.DroppedExactlyWhenStale` | internal/sim/world/feature/observer/stream/pipeline.go:158-180 | A chunk stops being tracked exactly when unwanted for the eviction time and the eviction is taken or unneeded |
| `Observer.ComputeChunkSurface` | internal/sim/world/feature/observer/chunks/chunks.go:89-110 | The per-chunk pass agrees column by column with the single-column lookup used for patches |
| `Observer.ChunkClient.StepChunkRuntime` | internal/sim/world/feature/observer/stream/pipeline.go:61-181 | In place: full, audit, patch and evict loops together equal the specification step |
| `VoxelStream.RunsInStepIffNothingMissed` | internal/sim/world/feature/observer/stream/pipeline.go:201-337 | The voxel stream, all chunks: the client is in step after every tick if and only if no tick refuses an eviction on switching off, wants a new chunk that budget or an earlier refusal keeps waiting, or edits a chunk kept unwanted or still waiting for its full |
| `VoxelStream.AllInStepIffNoneMisses` | internal/sim/world/feature/observer/stream/pipeline.go:201-337 | The same for one step of all chunks, both directions |
| `VoxelStream.StepProjects` | internal/sim/world/feature/observer/stream/pipeline.go:231-260 | A step of all chunks is chunk by chunk the step of one, with the turn that list, budget and channel give it |
| `VoxelStream.InStepIffNotMissed` | internal/sim/world/feature/observer/stream/pipeline.go:268-290 | The same for one step of one chunk |
| `WaitingChunks.NewIsHollowIffNoTurn` | internal/sim/world/feature/observer/stream/client_runtime.go:82-120 | At any tick of any run, over any channel: a newly wanted chunk ends without blocks, no longer nil, if and only if the list did not come to it with budget left and nothing refused |
| `WaitingChunks.TurnByBudget` | internal/sim/world/feature/observer/stream/pipeline.go:228-254 | Its turn comes only while fewer chunks than the budget are due before it, and over an accepting channel exactly then |
| `WaitingChunks.LateChunksAreHollow` | internal/sim/world/feature/observer/stream/client_runtime.go:82-120 | So every newly wanted chunk with at least the budget of chunks due before it is emptied, over any channel, and over an accepting one no other |
| `WaitingChunks.HollowIsSentEmpty` | internal/sim/world/feature/observer/stream/pipeline.go:242-250 | When its turn comes, it is sent with no blocks and marked as needing nothing more |
| `WaitingChunks.HollowUntilDropped` | internal/sim/world/feature/observer/stream/client_runtime.go:82-120 | It lasts: while the chunk stays tracked, the client is never shown a block of it, whatever is sent and whatever changes |
| `WaitingChunks.KeptExactly` | internal/sim/world/feature/observer/stream/pipeline.go:316-336 | Exactly the wanted chunks are kept, and those unwanted for less than the eviction time or whose eviction is refused; switched off, none |
| `WaitingChunks.OnlyTheFirstAreShown` | internal/sim/world/feature/observer/stream/pipeline.go:228-254 | With a standing focus and nothing refused: after j ticks the first chunks within the budget are shown as they are now, the rest of the first j budgets have been sent empty, and later ones not at all |
| `WaitingChunks.NinthChunkIsNeverShown` | internal/sim/world/feature/observer/stream/client_runtime.go:98-98 | With the budget of eight, any radius and a chunk limit of nine or more: while the focus stays in its chunk, nothing of the ninth nearest chunk or any later one is ever shown, over any channel and through any edits |
| `WaitingChunks.EveryScriptHasARun` | internal/sim/world/feature/observer/stream/pipeline.go:201-337 | Every sequence of requests, channels and audited worlds has such a run |
| `Rollback.RollBack` | cmd/admin/main.go:61-135 | Between two corners in any order: a stored cell that the log changes from since to the end gets the block from before since, every other one keeps its own; the end is to when it lies within the snapshot, else the snapshot tick, and then the rollback is a true undo |
| `Rollback.RollbackRestores` | cmd/admin/main.go:142-212 | For any window and box: a cell changed in both gets the block before the window, every other cell keeps its own |
| `Rollback.ReadAudit` | cmd/admin/main.go:142-212 | Exactly the block changes in window and box, newest first, later entries of a tick before earlier ones |
| `Rollback.ApplyRollback` | cmd/admin/main.go:214-245 | In order, each record is written where the snapshot has the cell; skipped counts exactly the records whose cell it has not |
| `Rollback.WriteOne` | cmd/admin/main.go:224-243 | Writing through chunk key and offset changes one position only, negative coordinates and out-of-range heights included |
| `Rollback.BlockAtMeans` | cmd/admin/main.go:224-243 | A position is the block at 256 y + 16 dz + dx of the last chunk stored for its key, if the chunk is that high and that long |
| `Events.PollsAreExactlyOnce` | internal/sim/world/kernel/model/agent.go:170-205 | A poller never more than 4096 events behind when it polls receives every event after its start exactly once and in order, for any limits and any interleaving |
| `Events.PollSkipsExactlyWhenBehind` | internal/sim/world/kernel/model/agent.go:185-205 | A poll skips events if and only if the poller is more than 4096 behind |
| `Events.AddKeepsFeed` | internal/sim/world/kernel/model/agent.go:170-177 | The cursor counts all events, pending is the suffix of the history, the log its last 4096 under consecutive cursors |
| `Events.Agent.AddEvent` | internal/sim/world/kernel/model/agent.go:170-177 | In place: the fields become those of Added and still fit the history with the event appended |
| `Events.EventsAfter` | internal/sim/world/kernel/model/agent.go:185-205 | The scan returns the page of the history the log can still serve and the cursor to continue from |
| `Events.PageIs` | internal/sim/world/kernel/model/agent.go:185-205 | A page starts at the cursor, or at the oldest of the last 4096 events, and holds as many as are asked for and there: at most 1000, and 100 by default |
| `Events.RingSurvivesLoss` | internal/openclaw/bridge/session.go:733-761 | For any pattern of lost observation messages the bridge's ring has strictly increasing cursors and every entry is the server event of that cursor |
| `Events.FreshPathIsLinked` | internal/openclaw/bridge/session.go:733-761 | An agent without events and a newly connected bridge satisfy what the ring theorem starts from |
| `Events.FreshPathIsDelivered` | internal/openclaw/bridge/session.go:733-761 | The same fresh pair satisfies what the loss-free theorem starts from |
| `Events.NothingLostNothingMissing` | internal/openclaw/bridge/session.go:733-761 | Without losses and with nothing pending the bridge's ring equals the agent's log |
| `Events.Agent.AttachObs` | internal/sim/world/feature/observer/meta/meta.go:28-36 | An observation carries the pending suffix and the cursor it ends at, and drains it |
| `Events.BridgeSession.OnObs` | internal/openclaw/bridge/session.go:733-761 | In place: the message's events are numbered back from its cursor, appended and trimmed to 4096 |
| `Events.ReceivedIs` | internal/openclaw/bridge/session.go:733-761 | Events are numbered up to the cursor of their message, or on from the bridge's own when that is missing or too small, and the last 4096 stay |
| `Events.BridgeSession.GetEvents` | internal/openclaw/bridge/session.go:787-817 | The local path answers with the first entries past the cursor up to the limit |
| `Events.PastIsTruthful` | internal/openclaw/bridge/session.go:800-817 | Local answers from a truthful ring are truthful and in order |
| `RollingStats.WorldStats.Summarize` | internal/sim/world/feature/director/stats/stats.go:109-122 | Equals the number of recorded events in the last n buckets as seen at now, kind by kind, through any gaps and wrap-around |
| `RollingStats.RecentCounts` | internal/sim/world/feature/director/stats/stats.go:109-122 | What it equals is the number of events whose bucket is that of now or one of the n - 1 before |
| `RollingStats.WorldStats.Rotate` | internal/sim/world/feature/director/stats/stats.go:52-61 | Catches the ring up to the bucket of now, keeping its agreement with the plain event list |
| `RollingStats.WorldStats.ObservePos` | internal/sim/world/feature/director/stats/stats.go:63-76 | A chunk is counted as discovered at its first visit only |
| `RollingStats.WorldStats.Record` | internal/sim/world/feature/director/stats/stats.go:78-100 | Appends one event to the plain list and keeps the ring in agreement |
| `RollingStats.RingTotal` | internal/sim/world/feature/director/stats/stats.go:109-122 | The sum over the ring is the tally of the plain list over the covered buckets |
| `ChunkStores.ChunkStore.SetBlock` | internal/sim/world/terrain/store/access.go:48-59 | Changes exactly the addressed cell of the observable block function, and nothing out of bounds |
| `ChunkStores.ChunkStore.GetBlock` | internal/sim/world/terrain/store/access.go:35-46 | Answers the block function and never changes it by generating |
| `ChunkStores.ChunkStore.ChunkDigest` | internal/sim/world/terrain/store/types.go:38-50 | Always the hash of the present blocks, despite the cache |
| `ChunkStores.ChunkStore.GetOrGenChunk` | internal/sim/world/terrain/store/access.go:61-76 | Loads at most the one chunk and leaves every observable block as it was |
| `ChunkStores.WriteChangesOneColumn` | internal/sim/world/terrain/store/types.go:21-36 | Slot arithmetic never lets a write show at another position, negative ones included |
| `ChunkStores.BlockMeans` | internal/sim/world/terrain/store/access.go:35-46 | The block seen at a column is number 16 dz + dx of the stored or generated chunk, and air off the ground and past the boundary |
| `ChunkStores.ImportChunks` | internal/sim/world/terrain/store/snapshot_chunks.go:30-51 | Accepts exactly well-shaped chunks, and loads for each key the blocks of its last entry with their digest |
| `ChunkStores.SnapshotRoundTrip` | internal/sim/world/terrain/store/snapshot_chunks.go:10-51 | Export then import keeps the block function, and all of it when every loaded key is exported |
| `Coords.FloorAndMod` | internal/sim/world/logic/mathx/math.go:3-20 | Floor quotient and remainder put any number together again with the remainder in range, for every positive divisor |
| `Coords.FloorAndModUnique` | internal/sim/world/logic/mathx/math.go:3-20 | No other quotient and remainder do |
| `Coords.ColumnRoundTrip` | internal/sim/world/terrain/store/access.go:40-45 | Chunk key and place in the chunk determine the column, negative coordinates included |
| `VoxelCodec.RleRoundTrip` | internal/sim/encoding/rle.go:12-60 | Decoding the encoding gives back every sequence of 16-bit ids |
| `VoxelCodec.VarintRoundTrip` | internal/sim/encoding/rle.go:24-28 | A base-128 number below 2^64 reads back with its length whatever follows it |
| `CodecBytes.ReadsExactly` | internal/sim/encoding/rle.go:42-49 | A number is read exactly when its base-128 digits end within ten bytes, the tenth at most 1, and it is the number they stand for |
| `CodecBytes.WritesExactly` | internal/sim/encoding/rle.go:24-28 | A number is written in its own base-128 digits and no more of them than it needs |
| `CodecBytes.EncodeMeans` | internal/sim/encoding/rle.go:16-30 | An encoding begins with an id and the length of its whole run, at most 2^31, and goes on with the rest |
| `CodecBytes.DecodeMeans` | internal/sim/encoding/rle.go:41-58 | Each pair stands for that many of the id, none for a count of 2^63 or more, and an id above 65535 spoils the whole |
| `VoxelCodec.EncodeRLE` | internal/sim/encoding/rle.go:12-33 | The loop writes the specified run pairs as bytes below 256, and they decode to the input |
| `VoxelCodec.DecodeRLE` | internal/sim/encoding/rle.go:35-60 | For every byte string: the specified ids, or none on a bad number or an id above 65535 |
| `VoxelCodec.BuildDeltaOps` | internal/sim/world/io/obscodec/delta.go:8-26 | The operations turn the previous array into the current one and name exactly the changed cells, once each, in scan order |
| `VoxelCodec.ChooseEncoding` | internal/sim/world/feature/observer/stream/voxels.go:68-78 | Whichever encoding is chosen, a receiver holding the previous array rebuilds the current one exactly |
| `VoxelLoss.HeldIsLastTold` | internal/sim/world/runtime_step.go:101-112 | Whichever observations are lost: cell by cell the receiver holds the value it was last told, by a whole array or by a delta in which the cell changed |
| `VoxelLoss.CurrentIffToldOfAll` | internal/sim/world/runtime_step.go:101-112 | Its array is current if and only if what it was last told of each cell is still so |
| `VoxelLoss.UnbrokenStaysCurrent` | internal/sim/world/obs_builder.go:147-163 | From a current array on it stays current as long as nothing is lost |
| `VoxelLoss.WholeArrayRepairs` | internal/sim/world/obs_builder.go:147-163 | Every whole array that arrives repairs it, and so does any message that arrives at a tick without change |
| `VoxelLoss.LostChangeLingers` | internal/sim/world/obs_builder.go:147-163 | A change whose message is lost stays wrong through all later deltas until the cell changes again or a whole array arrives |
| `LandClaims.RunsKeepClaimsApart` | internal/sim/world/feature/governance/claims/task_claim.go:59-67 | Over any run of claiming, upgrading and removing, claims never overlap |
| `LandClaims.AtMostOneOwner` | internal/sim/world/feature/governance/runtime/ownership.go:9-16 | No position lies in two claims of a disjoint registry |
| `LandClaims.OverlapsIffShared` | internal/sim/world/feature/governance/claims/task_claim.go:63-66 | The anchor-and-radius test is exact: it holds just when the squares share a position |
| `LandClaims.LandAt` | internal/sim/world/feature/governance/runtime/ownership.go:9-16 | The claim holding a position, or none, independent of the order of the scan |
| `LandClaims.LandRegistry.HandleTaskClaimLand` | internal/sim/world/feature/governance/claims/task_claim.go:26-107 | In place: the code and the new registry are the specification's, and claims stay apart |
| `LandClaims.LandRegistry.HandleUpgradeClaim` | internal/sim/world/feature/governance/instants/claim_handlers.go:46-104 | In place: the same for upgrading, which ignores only the claim's own square |
| `LandClaims.LandRegistry.RemoveClaimByAnchor` | internal/sim/world/governance_facade.go:98-115 | In place: the smallest id at the anchor goes, if any |
| `ClaimTerms.ClaimGrantedIff` | internal/sim/world/feature/governance/claims/task_claim.go:26-80 | Land is granted exactly where claiming is allowed, on ground that can be built on, no position of which within the radius belongs to a claim, for a battery and a crystal shard |
| `ClaimTerms.ClaimIsRecorded` | internal/sim/world/feature/governance/claims/task_claim.go:80-107 | The claim gets the next number, its owner, anchor and radius, 32 by default and at most 128; the owner pays one of each |
| `ClaimTerms.UpgradeGrantedIff` | internal/sim/world/feature/governance/instants/claim_handlers.go:46-104 | An upgrade is granted exactly to an admin of a claim at stage zero whose totem stands, to a larger radius of 64 or 128 that meets no other claim and is paid for |
| `ClaimTerms.UpgradeIsRecorded` | internal/sim/world/feature/governance/instants/claim_handlers.go:46-104 | It changes that radius and the payer's purse by the price, nothing else |
| `ClaimTerms.ClaimCodeIsTrue` | internal/sim/world/feature/governance/claims/task_claim.go:26-80 | The code of a refused claim names a fault that is there |
| `ClaimTerms.UpgradeCodeIsTrue` | internal/sim/world/feature/governance/instants/claim_handlers.go:46-104 | The same for an upgrade |
| `ClaimTerms.RemovalIsRecorded` | internal/sim/world/governance_facade.go:98-115 | Of the claims at an anchor only the one with the least number goes |
| `RateLimits.SpansAdmitFewerThanTwice` | internal/sim/world/logic/rates/window.go:3-19 | Over every run at nondecreasing ticks a span of window ticks admits at most 2 * max - 1 actions, and at most max when the window is one tick |
| `RateLimits.SpanBoundIsTight` | internal/sim/world/logic/rates/window.go:3-19 | That bound is reached for every window and every quota |
| `RateLimits.CooldownIsExact` | internal/sim/world/logic/rates/window.go:13-18 | After a denial every further request before the reported cooldown ends is denied, and the next is admitted if and only if it comes at or after the end |
| `RateLimits.AllowMeans` | internal/sim/world/logic/rates/window.go:3-19 | Without window or quota everything is admitted; otherwise windows open after the window length in 64-bit ticks, every request counts, and it is admitted while the count is within the quota |
| `RateLimits.AgentLimits.RateLimitAllow` | internal/sim/world/kernel/model/agent.go:207-226 | In place: one window per kind, opened by its first request; other kinds untouched |
| `Trades.AcceptTrade` | internal/sim/world/feature/economy/instants/trade_handlers.go:168-176 | Refused without effect unless both can pay; otherwise every item is conserved over payer, payee and sink even when the sink is a trader, exactly the CalcTax amounts are lost without a sink, each trader ends with its exact counts, and distinct traders stay non-negative |
| `Trades.Transfer` | internal/sim/world/feature/economy/inventory/inventory.go:73-95 | In place on inventories that may be one map: each ends where its roles as source, destination and sink put it |
| `Trades.GainsAddUp` | internal/sim/world/feature/economy/inventory/inventory.go:73-95 | For every way the three roles can coincide the gains cancel but for taxes nobody receives |
| `Trades.TaxOnIsCalcTax` | internal/sim/world/feature/economy/inventory/inventory.go:97-122 | The tax list reported and the tax taken in the transfer are the same amounts |
| `Trades.Tax` | internal/sim/world/feature/economy/inventory/inventory.go:80-90 | Between nothing and all of it, rounded down, rates cut at 1 |
| `Organizations.RunsStayGood` | internal/sim/world/feature/governance/instants/org_handlers.go:22-208 | In every reachable state each organisation has exactly one leader, its members are exactly the agents that name it, and no agent names a missing one |
| `Organizations.EmptyRegistryIsGood` | internal/sim/world/feature/governance/instants/org_handlers.go:47-58 | A registry without organisations is a start for these runs |
| `Organizations.VersionsTellTheTruth` | internal/sim/world/feature/governance/instants/org_handlers.go:68-98 | Over any stretch of a run ids are never reused, versions never go back, and a version stands still if and only if no member and no role changed |
| `Organizations.RunsConserveUnlessWasteful` | internal/sim/world/feature/governance/instants/org_handlers.go:191-195 | Over a run an item is conserved if and only if no last member leaves an organisation that has some of it, which can be read before each request; nothing creates one |
| `Organizations.RunsLoseExactly` | internal/sim/world/feature/governance/instants/org_handlers.go:191-195 | Over a run every total changes by exactly what closing organisations take with them |
| `Organizations.ATreasuryCanVanish` | internal/sim/world/feature/governance/instants/org_handlers.go:191-195 | The loss does happen: a state and a step that destroys a treasury |
| `Organizations.StepTotals` | internal/sim/world/feature/governance/instants/org_handlers.go:100-208 | Each request conserves every item except that the last member's leaving takes the treasury with it |
| `Organizations.BereftKeepsLeader` | internal/sim/world/feature/governance/instants/org_handlers.go:188-206 | When a leader leaves, the smallest remaining id and nobody else leads |
| `OrgSteps.GrantedIff` | internal/sim/world/feature/governance/instants/org_handlers.go:22-208 | Who may ask for what: only those without an organisation found or join one, every member pays in what it has, only leaders and officers take out what is there |
| `OrgSteps.PlainMembersTakeNothing` | internal/sim/world/feature/governance/instants/org_handlers.go:136-170 | A plain member's withdrawal is refused and changes nothing |
| `OrgSteps.CodeIsTrue` | internal/sim/world/feature/governance/instants/org_handlers.go:22-208 | The code of every refusal names a fault that is there |
| `OrgSteps.FoundingIs` | internal/sim/world/feature/governance/instants/org_handlers.go:47-66 | The founder leads alone, at version one, with an empty treasury, under the next number |
| `OrgSteps.JoiningIs` | internal/sim/world/feature/governance/instants/org_handlers.go:86-97 | Who joins becomes a plain member and the version goes up by one |
| `OrgSteps.LeavingIs` | internal/sim/world/feature/governance/instants/org_handlers.go:172-208 | The version goes up by one, by two when the leader goes; the last member takes the organisation along |
| `Organizations.DepositMoves` | internal/sim/world/feature/governance/instants/org_handlers.go:100-134 | A deposit moves exactly its count from the member to the treasury and touches no other purse or treasury |
| `Organizations.WithdrawMoves` | internal/sim/world/feature/governance/instants/org_handlers.go:136-170 | A withdrawal moves exactly its count from the treasury to the admin and touches no other purse or treasury |
| `Organizations.DepositThenWithdraw` | internal/sim/world/feature/governance/instants/org_handlers.go:100-170 | Withdrawing what was just deposited restores every count |
| `Organizations.OrgRegistry.HandleLeaveOrg` | internal/sim/world/feature/governance/instants/org_handlers.go:172-208 | In place: the code and new state are the specification's, the successor found by sorting |
| `Organizations.OrgRegistry.HandleCreateOrg` | internal/sim/world/feature/governance/instants/org_handlers.go:22-66 | In place: a fresh organisation led by its founder, or a refusal that changes nothing |
| `Organizations.OrgRegistry.HandleJoinOrg` | internal/sim/world/feature/governance/instants/org_handlers.go:68-98 | In place: one more plain member and one version more, or a refusal that changes nothing |
| `Organizations.OrgRegistry.HandleOrgDeposit` | internal/sim/world/feature/governance/instants/org_handlers.go:100-134 | In place: the code and new state are the specification's |
| `Organizations.OrgRegistry.HandleOrgWithdraw` | internal/sim/world/feature/governance/instants/org_handlers.go:136-170 | In place: the code and new state are the specification's |

## Left out

- Containers, agents and contracts of the escrow world are values in maps held by the world object, dropped
  items likewise; sharing one map between two of them is not modelled there. It is modelled for trades.
- Ids are counter numbers. The program prints them as text and sorts the text; everything here holds for every
  order, so the printed order does not matter. Ids of agents and items are strings in the program's order.
- Trimming and case folding of request strings: a blank or unknown value is an absent argument, and the validity
  of an organisation's kind and name is an argument.
- Reputation: the deposit multiplier is an arbitrary integer argument, and credits given after a settlement are
  not modelled.
- Blueprint placement and stability, permissions, land administration rights and power rules that look at
  sensors are arbitrary arguments.
- Removing or re-typing a container, transfers between containers, mining and crafting: terminals stay in place.
- DroppedItems.ItemStore.CleanupExpired: destroys expired items by design, so it is not a step of the runs that
  conserve items; that it keeps the index agreement is proved.
- Conveyor.EntitiesMoveAtMostOneCell: one cell for belts laid by yaw; a snapshot can hold belts of other
  directions, and on those an entity moves by its belt's step.
- Observer.EveryRunIsCoherent: premises that every change of terrain since the last step is named by an audit;
  the season reset (internal/sim/world/season_facade.go:62-65) replaces terrain without audits and is outside it.
- VoxelStream.RunsInStepIffNothingMissed: the wanted list is any list without repeats (`WantedChunks` says which
  it is), and audits enter as each chunk's ground-level edits. The loops themselves are given for the surface
  stream only.
- Joining: a fresh id with the configured starter items, which comes to an arrival. The manager that moves agents
  between worlds, its timeouts and its return of an agent that was not admitted are left out.
- VoxelLoss.HeldIsLastTold: the receiver is a client that applies what arrives in order; the radius is fixed.
- VoxelCodec.ChooseEncoding: base64 (section 4 of RFC 4648) is left out as an inverse pair, and filling the
  voxel array from terrain, entities and sensors is not modelled.
- VoxelCodec.BuildDeltaOps: the current array has one cell per offset of the cube, as its caller builds it.
- Trades.Tax: computed over the reals rather than 64-bit floats, whose rounding of the product is not modelled;
  conservation needs only that it lies between nothing and all.
- Trades.AcceptTrade: an agent trading with itself is covered by conservation but may go negative.
  Looking up the trade and both agents, and their permission to trade, precede the modelled part.
- Organizations.OrgRegistry: one treasury per organisation, the one of the current world; upkeep paid out of
  it, and the audit records, are left out.
- The terrain generator, the hash and the digests are arbitrary functions.
- 64-bit overflow of counters and item counts; the tick subtractions that can wrap are modelled.
- Remote event batches of the bridge, and everything behind HTTP, WebSocket, SQLite, JSON and compression.
- Laws, votes, boards, chat, fun scores, metrics, season and director events: they would add easy members only.
