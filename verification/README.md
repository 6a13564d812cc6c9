# Valkey cluster operator: verified model

The operator forms, reshapes and heals a Valkey cluster on Kubernetes. This project models what it does to the cluster
and proves it, in Dafny 4.11. `dafny verify dfyconfig.toml` checks everything.

There are three parts.

**Moving slots between live masters** (`SlotState`, `Routing`, `Masters`, `Mover`, `Repair`, `Recovery`, `Writes`,
`Traffic`, `Drain`, `Passes`, `Loss`). For every hash slot, each master keeps the owner it believes in, an IMPORTING and a MIGRATING marker, and the slot's keys. `Servers`
holds that state; each of its methods is one command sent to one master, which may be refused, may fail, and may be
carried out although its reply is lost. It records every state it passes through (`trace`) and every failure
(`faults`), so that a contract can speak of each point at which the mover may stop. What a command does follows the
Valkey Cluster Specification, sections "Live reconfiguration" and "ASK redirection". In particular a master that marks a
slot MIGRATING serves only the keys it has, and so does not let MIGRATE restore others; and a master that neither owns
nor imports a slot answers MIGRATE with MOVED. `MoveSlots` and `RepairSlots` are loops over these commands, and
`ScaleInRun` is a loop over passes of them. `Writes` and `Traffic` let clients act between any two commands on a slot.

**The reconcile pass** (`Topology`, `Fake`, `Membership`, `Scaling`, `Forming`, `Teardown`, `Departure`, `Silence`,
`Rewiring`, `Status`, `Reports`, `Conditions`, `Planning`, `Reconcile`, `Counts`). The in-memory cluster is a class whose methods change its node map; forming,
scaling out, scaling in, attaching replicas and the pass that dispatches them are methods over it. StatefulSets are a
set of shard indexes (`Workloads`). `Converged` is the state the operator aims at: the nodes are exactly the declared
pods, all slots are assigned, one pod of every shard owns slots and the others replicate it.

**Slots and names as text** (`Slots`, `Text`, `Names`, `NodesText`): the even split, range printing, pod names, and the
parser of CLUSTER NODES.

What turned out not to hold, with the exact condition under which it does:

- A key can be read at every step of a handover if and only if the target is told of its new slot before the source
  is. Otherwise source and target send the client to each other for a while (`Mover.LimboWhile`, `Mover.MoveSlots`,
  `Routing.ReadableUnlessLimbo`).
- A write to a slot under way is kept unless the slot is being reassigned by the empty-slot shortcut
  (`Routing.SetIsKept`, `Writes.ExposedWriteIsLost`); a delete is kept unless a stale copy sits on the target
  (`Routing.DelIsKept`, `Routing.StaleCopyReturns`).
- A repair finishes an interrupted move if the seed already names the target. If it names the source, it does so if and
  only if no key has reached the target (`Repair.RepairableAtSource`): the repair brings keys home before it clears the
  source's MIGRATING marker, so that the source refuses them, the refusal is ignored, and the keys stay on the target
  where nobody looks (`Repair.RepairHidesKeys`, `Repair.StrandsKey`). With the marker cleared first, one fetch of 1000
  keys and no stale copy would be the condition (`Repair.RepairableOnceStable`). The next move to the same target
  uncovers the keys again (`Recovery.MoveRepairMove`).
- While the masters are told, a repair finishes the move wherever it stops if and only if the seed is told first and
  source and target are told last (`Repair.FinishesAtEveryStop`). With both of them told no marker is left, so that no
  sweep finds the slot and a master not told yet stays behind (`Repair.ThirdStaysBehind`).
- A slot without keys is handed over without markers: stopped anywhere it is never found, and at rest if and only if
  nobody or everybody was told (`Repair.ShortcutStops`). Told only to the source, it can be read by nobody and no repair
  looks at it (`Repair.EmptySlotStaysInLimbo`).
- A scale-in that overtakes an interrupted scale-out deletes a master that owns no slot yet but holds keys. Nothing is
  lost if and only if each of them is still on the source, and a repair in between saves none of them
  (`Loss.StrayIsLostIff`, `Loss.RepairSavesNone`, `Loss.RepairedStrayIsLost`).
- In a scale-in every key stays where clients look if the survivor changes only after a pass that ended without error
  (`Passes.ScaleInRun`). A survivor that changes after an interrupted batch can hide keys (`Passes.ChangedSurvivorHides`).
- A departing shard is deleted while it owns slots if and only if all slot owners among its declared pods, and those of
  the departing shards before it, fail to answer; exactly then the next sweep leaves slots unassigned
  (`Silence.SilentOwnersLost`, `Silence.SilentShardIsDropped`).
- Scaling out from k slot owners converges if and only if each of the first k shards has one (`Scaling.ScaleOut`,
  `Scaling.ScaleOutStalls`).
- With as many owners as shards, a pass converges, whatever pods joined, left or were added, if and only if every shard
  has an owner among its declared ordinals; so lowering the replica count is safe exactly when no slot owner has an
  ordinal beyond it (`Rewiring.RewiredConvergesIff`, `Rewiring.ReplicaChange`, `Rewiring.OwnerBeyondReplicas`).
- Forgetting stale nodes keeps all slots assigned if and only if every slot owner is a declared ordinal of an existing
  shard (`Teardown.SweepKeepsSlots`, `Teardown.SweepForgetsOwner`).
- Once slots are assigned a pass never assigns one nobody owns: a form that stopped half way stays as it is
  (`Reconcile.ReconcileCluster`). `internal/topology/topology.go` calls this case a repair, but the repair skips uncovered slots.
- Ready is published while a departing shard still exists: from the pass that moves its last slot, one pass before it is
  deleted (`Reconcile.DrainingPhase`, `Reconcile.ReconcileScaleIn`).
- The Degraded condition is not the Degraded phase: it stays true through a resharding that follows a bad report
  (`Conditions.HistorySays`).
- `parseSlotToken` undoes `FormatRange` if and only if the range starts at a non-negative number
  (`Slots.RangeRoundTrip`).
- The in-memory mover and the real one agree if and only if the number of slots asked for is not negative
  (`Counts.FakeAgreesIff`).

## Model

| member | source | states |
|---|---|---|
| `SlotState.ImportingAdvances` | internal/cluster/goredis.go:268-270 | Marking the target keeps, whatever state the slot was in, every key and its value where clients of the pair look, the keys of all other masters, every owner, and the backing of redirects; a slot on its way stays so. |
| `SlotState.MigratingAdvances` | internal/cluster/goredis.go:271-273 | Marking the source, once the target is marked, keeps the same. |
| `SlotState.TransferAdvances` | internal/cluster/goredis.go:283-289 | MIGRATE with REPLACE keeps the same, whichever keys it copied and whichever of those it deleted before failing. |
| `SlotState.AdvancesOn` | internal/cluster/goredis.go:256-297 | What each command keeps, any sequence of them keeps. |
| `SlotState.DrainedToTarget` | internal/cluster/goredis.go:274-291 | From any state: once the source is drained, the target holds exactly what clients saw before. |
| `SlotState.ResumeIsConfluent` | internal/cluster/goredis.go:257-297 | A migration finished from any point at which it stopped ends with the same owners, markers and keys as one that never stopped. |
| `SlotState.HandedOverIsSettled` | internal/cluster/goredis.go:292-296 | After the handover every master follows the target, no marker is left, and the target holds exactly the keys visible before. |
| `Routing.ReachesServer` | internal/cluster/goredis.go:266-295 | Following redirects from any master reaches, within four hops, a master that serves the key, unless the pair is in limbo. |
| `Routing.ServerIsRight` | internal/cluster/goredis.go:266-295 | Whoever serves a key during a migration has its client-visible value. |
| `Routing.LimboLoops` | internal/cluster/goredis.go:247-254 | While source and target point at each other no number of redirects reaches a server. |
| `Routing.ReadableUnlessLimbo` | internal/cluster/goredis.go:247-295 | Every read from every master resolves to the visible value if and only if the pair is not in limbo. |
| `Routing.UnguardedIsEmpty` | internal/cluster/goredis.go:258-266 | Only a slot without any key is handed over without the handshake. |
| `Routing.SetIsKept` | internal/cluster/goredis.go:256-297 | A SET served during a migration changes exactly that key of the visible keys and keeps the invariant, if and only if the slot is not handed over without the handshake. |
| `Routing.DelIsKept` | internal/cluster/goredis.go:274-290 | A DEL served during a migration removes exactly that key, if and only if the key is not on both masters. |
| `Routing.StaleCopyReturns` | internal/cluster/goredis.go:283-289 | A concrete slot left by a half-done MIGRATE whose key, deleted through the source, is still among the visible keys. |
| `Routing.ShortcutLosesWrite` | internal/cluster/goredis.go:258-266 | A concrete cluster in which a write through the source during the empty-slot shortcut is invisible at the target, and the source then refuses the new owner. |
| `Masters.Servers.Send` | internal/cluster/goredis.go:247-254 | A SETSLOT either changes one slot's column as the server would or nothing; success is reported only if it took effect; a failure not owed to a refusal is recorded. |
| `Masters.Servers.GetKeysInSlot` | internal/cluster/goredis.go:262-282 | Returns distinct keys of the slot on that master, all of them if they are no more than the count. |
| `Masters.Servers.MigrateReplace` | internal/cluster/goredis.go:283-289 | Refused by a sender that neither owns nor imports the slot; succeeds only if the target takes every key, and then exactly the given keys moved; on an error any part of the keys the target takes is copied and any part of the copied ones deleted. |
| `Masters.Servers.Migrate` | internal/cluster/goredis.go:390-392 | Moves one key unless the sender neither owns nor imports the slot, or the owner has the key already, takes no part in the slot or is migrating it away; cut short, leaves at most an extra copy. |
| `Mover.LimboWhile` | internal/cluster/goredis.go:247-254 | Telling the masters puts the pair in limbo exactly while the source has been told and the target has not. |
| `Mover.NoLimboWhenTargetFirst` | internal/cluster/goredis.go:241-254 | With the target listed before the source no prefix of the masters told leaves a limbo. |
| `Mover.AssignOnAll` | internal/cluster/goredis.go:292-296 | Telling every master a drained slot's new owner is the whole handover, whatever the order. |
| `Mover.AssignAccepted` | internal/cluster/goredis.go:247-254 | No master refuses the new owner of a drained slot. |
| `Mover.StaysMoved` | internal/cluster/goredis.go:256-298 | A slot that was moved stays moved, however often a later call takes it up and wherever that stops. |
| `Mover.CollectSlots` | internal/cluster/goredis.go:229-237 | The nested loop collects the first n slots of the node's ranges, in order, or all of them. |
| `Mover.FindNodeIs` | internal/cluster/goredis.go:194-205 | The node looked up is the last one listed with the ID; none is found only if none is listed. |
| `Mover.PrimariesAre` | internal/cluster/goredis.go:239-246 | The masters told are exactly the listed nodes that are masters, each as often as it is listed, in listed order; replicas are never among them. |
| `Mover.AssignOwner` | internal/cluster/goredis.go:247-254 | Every state passed through has told a prefix of the masters; without faults it succeeds on a drained slot. |
| `Mover.Handshake` | internal/cluster/goredis.go:267-273 | Stops or succeeds without changing any owner or any visible key, at every state and for every slot; after success the source is marked and may send, and the target takes keys in; without faults it succeeds on a slot on its way with keys. |
| `Mover.DrainKeys` | internal/cluster/goredis.go:274-290 | The key loop terminates because the source's keys in the slot strictly decrease; every state keeps the visible keys of every slot; on success the source has none left. |
| `Mover.MoveSlot` | internal/cluster/goredis.go:257-297 | One slot's move touches no other slot and keeps the visible keys at every state, whatever state the slot was in; on success the source is empty, the target holds all that was visible and every listed master follows it; a slot on its way is handed over. |
| `Mover.MoveSlots` | internal/cluster/goredis.go:182-299 | For every n, every listing, every state of the slots and every stop: each state keeps every slot's visible keys, the keys of third masters, and all slots not listed; nobody follows the target before the source is drained; each slot counted as moved has left the source empty and the target with everything visible; no limbo when the target precedes the source, and one for every moved slot when it follows; the exact error cases; no error without faults as soon as the nodes listed as masters have a view of the slots, whatever replicas are listed. |
| `Mover.RedirectsStayBacked` | internal/cluster/goredis.go:239-295 | In every state of every run, a source that redirects to the target is backed by a target that imports the slot from that source or owns it, for every slot of which that held at the start, in whatever order the masters are told. |
| `Repair.MigrateKeyHolds` | internal/cluster/goredis.go:390-392 | Bringing a stray key home neither loses nor overwrites any value held anywhere. |
| `Repair.MoveStrays` | internal/cluster/goredis.go:384-394 | Empties a master of up to 1000 keys, losing no copy whatever fails; of all of them if there are no more, none is shared, the master may send and the owner takes keys in. |
| `Repair.GatherStrays` | internal/cluster/goredis.go:382-394 | Visits every listed master but the owner and, if nothing fails, leaves only what cannot be moved. |
| `Repair.InStrays` | internal/cluster/goredis.go:384-387 | The masters visited are exactly the listed ones with an address other than the owner. |
| `Repair.FixMasters` | internal/cluster/goredis.go:395-409 | Drops all markers and names the owner on every master except one that still counts itself owner and holds keys. |
| `Repair.RepairedIff` | internal/cluster/goredis.go:382-409 | The slot comes to rest on the owner if and only if no key is on two masters and each other master is empty, or has at most 1000 keys, may send them and the owner takes keys in; in any case every marker is gone, a master is emptied exactly in that case, and what was not moved is where it was. |
| `Repair.RepairSlot` | internal/cluster/goredis.go:377-411 | One slot's repair loses no copy of any key whatever fails; without faults the slot is unmarked, and at rest on the owner with exactly the keys and values any master had if and only if it was repairable; otherwise it says master by master which keys stay; an owner that takes no keys in is given the slot without them. |
| `Repair.CollectOpenSlots` | internal/cluster/goredis.go:311-346 | Returns exactly the slots some reachable node marks, or fewer if a node does not answer. |
| `Repair.OpenSlotsIs` | internal/cluster/goredis.go:311-346 | A slot counts as open exactly when a listed node that is connected and flagged neither fail, fail? nor noaddr carries a marker for it. |
| `Repair.OwnerOfIs` | internal/cluster/goredis.go:365-374 | The owner found is listed and covers the slot, and no node listed before it does; without one no listed node covers the slot. |
| `Repair.HasOwnerIff` | internal/cluster/goredis.go:378-381 | A slot is worked on if and only if the first listed node that covers it has an address, and then for that node. |
| `Repair.OwnerIsSeeds` | internal/cluster/goredis.go:365-381 | If the listing shows what the seed sees and all masters of the slot are listed, the repair works for the master the seed names. |
| `Repair.RepairSlots` | internal/cluster/goredis.go:352-413 | Touches only open slots with a listed owner, in whatever order they come, loses no copy, and brings each of them to rest with all its keys exactly when it was repairable, several-way markers included; with a listing that shows what the seed sees, on the master the seed names. |
| `Repair.NoSilentHalfMove` | internal/cluster/goredis.go:266-297 | In every state of every run, a slot with keys that was on its way is found open by the sweep over the reachable pair, or both masters name one owner that holds every key. |
| `Repair.SecondRepairIsIdle` | internal/cluster/goredis.go:352-413 | After a repair without faults of slots that all had a listed owner no slot is open, so a second repair finds nothing. |
| `Repair.RepairableAtTarget` | internal/cluster/goredis.go:365-374 | An interrupted move whose seed already follows the target can always be repaired. |
| `Repair.RepairableAtSource` | internal/cluster/goredis.go:365-394 | An interrupted move whose seed follows the source can be repaired if and only if the target holds no key: with keys there, the source takes none in. |
| `Repair.RepairableOnceStable` | internal/cluster/goredis.go:382-408 | If the source's markers were cleared first, it could be repaired if and only if the target has at most 1000 keys, none of them still on the source, and the source counts itself owner or there is nothing to bring back. |
| `Repair.FinishesIff` | internal/cluster/goredis.go:247-254 | Stopped when some masters have been told, the move is at rest or found and repaired if and only if all have been told, or the seed has and not both source and target. |
| `Repair.FinishesAtEveryStop` | internal/cluster/goredis.go:247-254 | Before anybody is told no repair finishes the move; from then on one does wherever it stops if and only if the seed is told first and whoever of source and target is second is told last of all. |
| `Repair.UnmarkedSettledIff` | internal/cluster/goredis.go:360-363 | A slot on its way that no master marks is at rest on an owner, with all its keys, if and only if all masters name that owner. |
| `Repair.ThirdStaysBehind` | internal/cluster/goredis.go:360-363 | A concrete stop after target and source were told: the slot could be repaired, but is open in no sweep, and a third master still names the source. |
| `Repair.ShortcutStops` | internal/cluster/goredis.go:258-266 | An empty slot handed over by the shortcut and stopped anywhere is open in no sweep; at rest if and only if nobody or everybody was told; in limbo if and only if the source was told and the target was not. |
| `Repair.EmptySlotStaysInLimbo` | internal/cluster/goredis.go:258-266 | A concrete empty slot told only to its source, which no reader gets through to and no sweep finds. |
| `Repair.RepairHidesKeys` | internal/cluster/goredis.go:377-411 | A repair towards the source while the target has keys leaves the slot unmarked and every key where it was; a key the source lacks is found only by asking a target that still counts itself owner. |
| `Repair.StrandsKey` | internal/cluster/goredis.go:266-290 | A concrete slot after the handshake and one MIGRATE that is in that case. |
| `Repair.StopsInLimbo` | internal/cluster/goredis.go:247-254 | A concrete drained slot whose move, told to the source first and stopped there, is in limbo with a key. |
| `Recovery.MoveAgain` | internal/cluster/goredis.go:182-299 | After a call that stopped anywhere, the slots a second call moves end exactly as if the first had never been made: owners, markers and keys. If nothing is lost, it moves all it lists. |
| `Recovery.MoveThenRepair` | internal/cluster/goredis.go:352-413 | After a call that stopped anywhere and a repair in which nothing fails, every slot that was on its way has no marker, the pair still has exactly the keys clients saw, and it is at rest on the owner the seed names, with all of them, if and only if it was open and that owner is the target or no key had reached the target, or it was not open and all masters named that owner. |
| `Recovery.MoveRepairMove` | internal/cluster/goredis.go:182-299 | A move that stopped anywhere, a repair without faults and another move: each slot the last one moves has left the source empty and the target with exactly what clients saw before the first, whatever the repair made of it. |
| `Recovery.RecoverableIff` | internal/cluster/goredis.go:365-394 | That condition is what the repair needs, for either owner the seed can name. |
| `Writes.WritesSurvive` | internal/cluster/goredis.go:256-297 | Over every interleaving of the mover's commands, any of which may be lost, with client SETs and DELs through any master, and over any number of attempts: what clients see is what they were told is stored, whoever gets through reads it, and once somebody follows the target all of it is there; provided no SET hits a slot the empty-slot shortcut is handing over and no DEL a key with a stale copy. |
| `Traffic.MoveSlotLive` | internal/cluster/goredis.go:256-297 | The loop body as a program over the masters with any number of clients after each of its commands: its run is one of those interleavings and passes through every state its commands leave, so all of that holds at each of them; on success every master told follows the target, which has all that clients were told is stored. If nothing is lost it succeeds, whatever the clients do. |
| `Traffic.Clients` | internal/cluster/goredis.go:256-297 | Any number of admitted SETs and DELs through any master extends the run, changes no owner, marker or other slot, and gives the source no key while keys move. |
| `Traffic.DrainLive` | internal/cluster/goredis.go:274-290 | The key loop ends although clients write between its commands. |
| `Writes.NewKeysGoToTarget` | internal/cluster/goredis.go:271-290 | While the keys move, a key the source does not have is written to the target. |
| `Writes.ExposedWriteIsLost` | internal/cluster/goredis.go:258-266 | A concrete run in which a SET between the empty probe and the assignment is lost to a reader at the target. |
| `Drain.BatchKeeps` | internal/controller/scaling.go:183-197 | A drain batch of slots the seed lists under the departing master, wherever it stops, keeps every key held with its value, and keys on a departing master only where the seed names it; if the slots still to be drained are at rest or under way to this survivor, that stays so and all keys stay where clients look. |
| `Drain.DeleteKeeps` | internal/controller/scaling.go:198-207 | Deleting a departing master the seed lists no slot under loses no key and hides none, whatever survivor each slot goes to. |
| `Drain.BatchLeavesOne` | internal/controller/scaling.go:183-197 | A batch that stops leaves at most one slot not at rest, and that is the first the next pass takes up; one that ends without error leaves none. |
| `Passes.ScaleInPass` | internal/controller/scaling.go:149-210 | One pass against live masters decides itself, from the seed's listing, between moving one batch and deleting the shard, and keeps all of the above at every state; a pass without error leaves what is still to be drained at rest; declared shards stay. If nothing fails, what departs was at rest and all masters are listed, it succeeds: the departing shards before the first with slots are deleted, exactly the lowest 1024 slots of that one, or all if fewer, rest on the survivor with their keys, and nothing else changes; or no departing shard is left. |
| `Passes.PassCounts` | internal/controller/scaling.go:183-208 | Such a pass takes exactly one batch off the sum over departing shards of their slots divided by 1024, rounded up; or nothing was left and it deletes all of them. |
| `Passes.ScaleInRun` | internal/controller/scaling.go:149-210 | Over any number of passes, each with its own survivor and stopping anywhere, every state holds every key of every slot with its value; every key is also where clients look at every state if what departs was at rest at first and the survivor changes only after a pass without error; once no departing shard is left, no departing master is. If nothing fails, no pass errs and a departing shard is left if and only if there were no more passes than batches at the start. |
| `Passes.ChangedSurvivorHides` | internal/controller/scaling.go:175-192 | A concrete slot left by an interrupted batch whose key nobody finds after a batch to another survivor. |
| `Passes.RestIsStart` | internal/controller/scaling.go:149-210 | Any cluster at rest is where such a run may start, whichever masters depart. |
| `Loss.StrayIsLostIff` | internal/controller/reconcile.go:59-67 | Deleting a master that owns no slot but is the target of an interrupted move loses no key if and only if each key it holds is still on the source. |
| `Loss.RepairSavesNone` | internal/controller/reconcile.go:59-67 | After a repair towards the source the same deletion loses a key on the same condition; with no key on both masters, it loses none if and only if the repair could succeed. |
| `Loss.DeletedAfterRepair` | internal/controller/scaling.go:198-207 | For any slot without shared keys, however marked: deleting a master after a repair loses no key if and only if the repair could fetch all it had. |
| `Loss.StrayIsLost` | internal/controller/reconcile.go:59-67 | A concrete slot whose only key is lost that way. |
| `Loss.RepairedStrayIsLost` | internal/cluster/goredis.go:377-411 | The same slot loses its key also if it is repaired first. |
| `Counts.MovedOwned` | internal/cluster/goredis.go:256-298 | An error-free move takes exactly the listed slots from one master's owned set to the other's and changes nobody else's. |
| `Counts.FakeMovesAlike` | internal/cluster/fake.go:246-265 | For a non-negative n the in-memory move returns the number the real one moves, leaves the same count on every node, and keeps the total. |
| `Counts.FakeAgreesIff` | internal/cluster/fake.go:256-265 | The source's count agrees with the real mover's if and only if n is not negative. |
| `Cluster.DisjointExpand` | internal/cluster/admin.go:87-93 | Disjoint ranges list every slot once, SlotCount many. |
| `Slots.Distribute` | internal/slots/slots.go:31-42 | For n shards: n contiguous shares from 0 to 16383, each of floor(16384/n) or one more slots; nothing for n <= 0. |
| `Slots.SplitCovers` | internal/slots/slots.go:31-42 | The shares listed one after the other are exactly the slots 0 to 16383 in order, each once. |
| `Slots.TargetCounts` | internal/slots/slots.go:46-55 | The counts are the sizes of the shares and add up to 16384. |
| `Slots.RangeRoundTrip` | internal/slots/slots.go:59-64 | Reading a written range gives it back if and only if its start is not negative. |
| `Slots.RangesRoundTrip` | internal/slots/slots.go:67-76 | Splitting the written list at its commas and reading each part gives the ranges back in order, each exactly if it starts at a non-negative number. |
| `Slots.FormatRanges` | internal/slots/slots.go:67-76 | The text for a list of ranges splits and reads back as that list; it is empty for none. |
| `Text.AtoiOfItoa` | internal/cluster/goredis.go:518-532 | Reading a written 64-bit number gives it back. |
| `Text.AtoiReads` | internal/cluster/goredis.go:518-532 | A signed or unsigned run of digits is read as its value if it fits 64 bits, asymmetrically, and refused otherwise; a sign alone is refused. |
| `Names.PodFQDN` | internal/resources/builders.go:70-82 | Shard and ordinal can be read back from a pod's DNS name. |
| `Names.PodNamesDiffer` | internal/resources/builders.go:70-82 | Two pods have the same name if and only if they are the same ordinal of the same shard. |
| `Names.FQDNParts` | internal/resources/builders.go:65-82 | The DNS name cuts at its dots into pod, headless service, namespace and "svc". |
| `NodesText.AddrRoundTrip` | internal/cluster/goredis.go:477-488 | Reading a written address gives back IP, port and hostname. |
| `NodesText.ParseNodes` | internal/cluster/goredis.go:436-473 | The loops over lines and tokens build exactly the nodes the lines describe; short lines, markers and unreadable tokens are skipped. |
| `NodesText.ParseOpenSlots` | internal/cluster/goredis.go:492-516 | Returns every slot a marker names, once. |
| `NodesText.FieldsAround` | internal/cluster/goredis.go:439-494 | Words on either side of a space are read independently. |
| `NodesText.LineRoundTrip` | internal/cluster/goredis.go:439-470 | Reading a written line gives back its node, with exactly the ranges among its slot tokens. |
| `NodesText.NodesRoundTrip` | internal/cluster/goredis.go:436-473 | On every well-formed text the parser recovers exactly the nodes and their owned ranges. |
| `NodesText.OpenSlotsRoundTrip` | internal/cluster/goredis.go:492-516 | On every well-formed text the sweep recovers exactly the marked slots, whatever the mix of ranges and markers. |
| `Fake.FakeCluster.State` | internal/cluster/fake.go:47-73 | Lists every node once, and reports formed and covered according to the slots assigned in total. |
| `Fake.FakeCluster.Rebalance` | internal/cluster/fake.go:153-180 | The masters not excluded get the split a fresh cluster of as many shards gets, everybody else nothing, 16384 slots in all; with no such master nothing happens. |
| `Fake.AddedIs` | internal/cluster/fake.go:92-100 | The node is a master that has gained exactly the ranges; nobody else has changed. |
| `Fake.CountToRangesIs` | internal/cluster/fake.go:232-239 | The ranges made up for a count cover exactly the lowest so many slots. |
| `Fake.StaysUp` | internal/cluster/fake.go:38-45 | No command takes a node down: connected nodes on the client port stay so, and newcomers are. |
| `Fake.TotalBound` | internal/cluster/fake.go:47-53 | If only certain nodes own slots and each at most so many, the total is at most their product. |
| `Membership.FindShardPrimary` | internal/controller/membership.go:62-76 | Among the pods that answer, returns the first declared ordinal that owns slots, else ordinal 0 if it answers, else nothing; asking changes nothing if the pods are known. |
| `Membership.HeardOwns` | internal/controller/membership.go:62-76 | The primary found shows slots if and only if some slot owner among the shard's declared pods answers. |
| `Silence.PassDropsIff` | internal/controller/scaling.go:163-208 | A pass deletes a departing shard if and only if all slot owners among the declared pods of it and of the departing shards before it are silent. |
| `Silence.PassKeepsTotal` | internal/controller/scaling.go:163-208 | Whoever is silent, the pass itself keeps the number of slots assigned, and leaves the silent nodes of deleted shards as they were. |
| `Silence.SilentOwnersLost` | internal/controller/scaling.go:163-208 | The sweep after such a pass lowers the number of slots assigned if and only if the pass deleted a shard that still had a slot owner, all of whose owners, and those before it, were silent. |
| `Silence.SilentShardIsDropped` | internal/controller/scaling.go:173-207 | A concrete cluster of two shards that loses half of its slots that way. |
| `Membership.PrimaryIs` | internal/controller/membership.go:62-76 | The primary found is a pod of that shard, and owns slots if any declared pod of the shard does. |
| `Membership.AttachReplicas` | internal/controller/membership.go:32-57 | The nested loops make exactly the unattached declared pods replicas of their shard's primary as observed, those not known yet included; nobody gains a slot and no node goes. |
| `Membership.AttachFollows` | internal/controller/membership.go:32-57 | From any cluster, whoever owns what and however it is wired: after attaching by what was observed, every declared pod is known and is its shard's primary, as it then is, or replicates it. |
| `Membership.AttachConverges` | internal/controller/membership.go:32-57 | From any cluster with one slot owner per shard, however its replicas are wired, attaching converges and every owner keeps its ranges. |
| `Membership.AttachIsIdle` | internal/controller/membership.go:48-50 | On a converged cluster nothing is attached. |
| `Membership.DemotedIff` | internal/controller/membership.go:39-54 | A slot owner is turned into a replica if and only if another slot owner precedes it in its own declared shard. |
| `Membership.ForgetStaleNodes` | internal/controller/membership.go:124-134 | Exactly the listed nodes without a pod are gone. |
| `Membership.StaleIs` | internal/controller/membership.go:124-150 | A node is stale if and only if its host is known and is no declared ordinal of an existing StatefulSet. |
| `Membership.ReconcileMembership` | internal/controller/membership.go:80-101 | Afterwards exactly the declared pods and known pods of other existing shards are there, each with the slots and master it had, newcomers empty, except that every declared pod follows its shard's primary as observed. |
| `Membership.MeetMissing` | internal/controller/membership.go:86-93 | Every declared pod is known afterwards; newcomers are empty masters, everybody else is unchanged. |
| `Membership.RewiredPlaced` | internal/controller/membership.go:80-101 | Among exactly the declared pods this is attaching and nothing else. |
| `Scaling.FattestPrimary` | internal/controller/scaling.go:122-133 | Returns a primary other than the excluded one with the most slots, or none if no other owns any; the order of iteration does not matter. |
| `Scaling.SomebodyIsFat` | internal/controller/scaling.go:86-91 | With all slots assigned and fewer owners than shards, somebody other than a node below the fair share holds strictly more than it. |
| `Scaling.MoveShifts` | internal/cluster/fake.go:246-265 | A move keeps the total, takes from one node what the other gets, and touches nobody else. |
| `Scaling.FillPrimary` | internal/controller/scaling.go:86-109 | Brings a primary below the fair share to exactly the fair share, or as far as the slots of all others go; in a cluster with all slots assigned to fewer other nodes than there are shards, with one move from a node above the share. Leaves a primary at or above the share alone; nobody else gains. |
| `Scaling.FillShards` | internal/controller/scaling.go:76-110 | Every new primary that began at or below the fair share ends with exactly it; no giver is emptied, none had the fair share or less, and no filled primary is robbed later. |
| `Scaling.JoinShards` | internal/controller/scaling.go:59-65 | Exactly the pods of the new shards join, as empty masters; everybody else is unchanged. |
| `Scaling.OwnersExact` | internal/controller/scaling.go:76-110 | k owners and an owner in each of the first k shards: the owners are exactly the primaries of those shards. |
| `Scaling.HealthyGrows` | internal/controller/scaling.go:51-118 | Any healthy cluster of k shards is one the scale-out converges from. |
| `Scaling.FilledConverges` | internal/controller/scaling.go:76-117 | Filling the new primaries of a wired cluster makes it converged. |
| `Scaling.ScaleOut` | internal/controller/scaling.go:51-118 | From k owners holding all slots, whichever declared pods are known, converges if and only if each of the first k shards has one; then every new primary has exactly the fair share and every owner still owns slots. From any state nobody but the new primaries gains, the total never rises, and every declared pod ends up known and wired to its shard's primary. |
| `Scaling.ScaleOutStalls` | internal/controller/scaling.go:76-110 | A concrete cluster, all slots on the second of two shards, from which scaling out does not converge. |
| `Forming.ShareNext` | internal/controller/reconcile.go:137-142 | Each shard's first pod gets its share, so that after i shards the first i shares are assigned and nothing else. |
| `Forming.FormCluster` | internal/controller/reconcile.go:127-148 | From any state without an assigned slot, for every shard count from 1 to 16384 and every replica count, converges at once; from any other, every declared pod ends up known and wired to its shard's primary. |
| `Forming.FormFresh` | internal/cluster/fake.go:36 | Starting from the empty cluster there is a converged one for every such spec, with every node up. |
| `Teardown.ExistingShardIndexes` | internal/controller/scaling.go:232-252 | The existing shards, each once, ascending. |
| `Teardown.HasExcessShards` | internal/controller/scaling.go:215-227 | True if and only if a StatefulSet beyond the declared shards exists. |
| `Teardown.FirstSurvivorPrimary` | internal/controller/scaling.go:256-263 | The primary of the first declared shard that has one, other than the excluded node, among the pods that answer. |
| `Teardown.SurvivorIsFirst` | internal/controller/scaling.go:256-263 | When all pods answer, a departing primary is always drained into shard 0. |
| `Teardown.ForgetShard` | internal/controller/scaling.go:199-204 | Exactly those declared pods of that shard that answer are gone. |
| `Teardown.SweptIs` | internal/controller/membership.go:124-134 | Sweeping leaves exactly the declared ordinals of existing shards. |
| `Teardown.ScaleIn` | internal/controller/scaling.go:149-210 | After the sweep, one call drops the leading departing shards that show no slots and moves one batch of at most 1024 slots out of the first that does, whoever is silent, and nothing more, provided the pods of the existing shards are known; it fails exactly if no survivor answers. From any state the total never rises. |
| `Teardown.SweepKeepsSlots` | internal/controller/membership.go:124-150 | Forgetting the stale nodes keeps all slots assigned if and only if every slot owner is a declared ordinal of an existing shard. |
| `Teardown.SweepForgetsOwner` | internal/controller/membership.go:143-147 | A concrete cluster, its replica count lowered below its primary's ordinal, in which the sweep forgets the owner of every slot. |
| `Departure.PassProgresses` | internal/controller/scaling.go:163-208 | Each pass moves exactly one batch while any is left and tears down the rest otherwise, also where slots are missing; the total stays the same, declared shards only gain, departing ones only lose, the wiring of the declared ones is kept. |
| `Departure.EmptyShard` | internal/controller/scaling.go:173-199 | A shard is dropped only if none of its pods owns a slot. |
| `Departure.ScaleInTakes` | internal/controller/scaling.go:149-210 | A scale-in ends after exactly one pass per batch of 1024 slots on the departing nodes plus one, not earlier, with all of the above at every pass. |
| `Departure.BatchesAre` | internal/controller/scaling.go:183-187 | A node takes one batch for every 1024 slots and one more for what remains. |
| `Departure.ScaleInConverges` | internal/controller/reconcile.go:52-67 | Lowering the shard count of any converged cluster ends, after that many passes and not before, in the converged smaller cluster. |
| `Status.Summarize` | internal/controller/status.go:138-162 | The loops compute the summary the planner decides on. |
| `Reports.SummaryMeans` | internal/controller/status.go:138-162 | The summary has as many primaries as listed slot owners, for each of them in listed order how many listed replicas name it, and counts an open slot as uncovered. |
| `Status.UpdateStatus` | internal/controller/status.go:36-79 | The loops compute the phase, the ready count and each shard's entry. |
| `Reports.ReadyCount` | internal/controller/status.go:40-66 | The ready count is the number of shards with a listed slot owner among their declared pods. |
| `Reports.EntryMeans` | internal/controller/status.go:40-66 | A shard's entry has the IDs of its listed pods by ordinal, and shows the slot owner with the highest ordinal, its ranges, and how many connected nodes name it as master; or no primary if no pod owns slots. |
| `Reconcile.ConvergedEntry` | internal/controller/status.go:40-66 | For every converged cluster with all nodes up, each shard's entry shows its primary with its ranges and every declared replica ready. |
| `Reports.CaseMeans` | internal/controller/status.go:68-114 | Which of the five reports is published: all is well; or some shard is served and there are more owners than shards, or else a slot is open; or no shard is served; or none of this. |
| `Reports.PhaseMeans` | internal/controller/status.go:68-114 | Ready if and only if every declared shard has an owner, there are as many owners as shards and all slots are covered and closed; else Resharding if and only if some shard is served and there are more owners than shards or a slot is open; else Degraded. |
| `Reports.PrimaryPodIs` | internal/controller/status.go:180-185 | The pod shown for a host is the pod's name. |
| `Conditions.Record.SetCond` | internal/controller/status.go:187-206 | The loop replaces the first condition of its kind in place, or appends. |
| `Conditions.PutFinds` | internal/controller/status.go:187-206 | Setting a condition changes no other. |
| `Conditions.TransitionTime` | internal/controller/status.go:196-201 | The condition is stored as given, and keeps the time of the last transition if one of its kind was there with the same status; otherwise it gets the new time. |
| `Conditions.PutKeepsOne` | internal/controller/status.go:187-206 | No kind is ever listed twice. |
| `Conditions.Record.Publish` | internal/controller/status.go:81-116 | The record has the phase, entries and generation of this observation, and the conditions of its case set over the old ones. |
| `Conditions.PublishedMeans` | internal/controller/status.go:84-114 | From the observed nodes alone: Available is true while all is well or slots move, its reason tells Ready, Serving, NoPrimaries and PartialCoverage apart, Progressing says whether shards are removed or slots migrate, and a condition the case does not set is left alone. |
| `Conditions.HistorySays` | internal/controller/status.go:89-114 | After any history of passes Available goes by the last report, and Degraded is true if and only if some report was bad and every later one was about moving slots. |
| `Status.ReadyIsBijection` | internal/controller/status.go:40-79 | Ready means that every declared shard has exactly one slot owner among its pods and there is no owner elsewhere. |
| `Status.ReadyNeedsNoReshape` | internal/controller/status.go:68-79 | For every observation that does not call an unformed cluster covered, Ready implies that the planner asks for nothing or for replicas only. |
| `Status.NoActionIsReady` | internal/topology/topology.go:67-86 | Where hosts are distinct and each owner sits on a declared shard of its own, a planner with nothing to do means Ready. |
| `Planning.HealthyCount` | internal/controller/status.go:145-152 | A healthy cluster is counted as having exactly the declared shards. |
| `Planning.ConvergedReplicas` | internal/controller/status.go:139-152 | Every primary of a converged cluster is counted as having exactly the declared replicas. |
| `Planning.ConvergedNeedsNothing` | internal/topology/topology.go:67-86 | On a converged cluster the planner has nothing to do. |
| `Planning.ConvergedIsReady` | internal/controller/status.go:68-91 | A converged cluster is Ready. |
| `Rewiring.RewiredConvergesIff` | internal/controller/membership.go:78-101 | With all slots on as many owners as shards, keeping membership aligned converges if and only if every shard has an owner among its declared ordinals. |
| `Rewiring.SameOwnersTotal` | internal/cluster/fake.go:47-53 | Clusters with the same slot owners and counts have the same total, whatever other nodes they have. |
| `Rewiring.ReplicaChange` | internal/controller/reconcile.go:104-109 | After the replica count of a healthy cluster changes, that condition holds if and only if no slot owner has an ordinal beyond the new count. |
| `Rewiring.OwnerBeyondReplicas` | internal/controller/reconcile.go:104-109 | A concrete healthy shard for which it fails when the replica count drops to 0. |
| `Reconcile.StaffedNeedsNoReshape` | internal/topology/topology.go:67-86 | All slots on as many owners as shards: the planner asks for nothing or for replicas only. |
| `Reconcile.Plans` | internal/topology/topology.go:67-86 | Which action each kind of cluster gets: form, grow by the missing shards, repair, at most wire, or none of form and grow while shards depart. |
| `Reconcile.PlanMeans` | internal/topology/topology.go:67-86 | The plan and its numbers from the cluster alone: form, repair, add or remove exactly the shards the owners fall short of or exceed, adjust replicas if and only if some owner has another number than declared, or nothing. |
| `Reconcile.EstablishedNeedsNoShards` | internal/topology/topology.go:67-86 | With slots assigned, and not all of them to too few owners, neither forming nor growing is planned. |
| `Reconcile.ReconcileCluster` | internal/controller/reconcile.go:37-123 | One pass forms an unformed cluster; with as many owners as shards converges exactly if every shard has one, attaches and nothing else on a healthy cluster, changes nothing on a converged one; with fewer owners grows exactly if they are in the first shards; while a departing StatefulSet exists takes one scale-in step on what the sweep leaves, also with slots missing where a repair would be due; without one leaves missing slots as they are; and once slots are assigned never raises the total. The status published, in every case, is that of the cluster as the pass leaves it; it is Ready in each converged case. |
| `Reconcile.ServedPhase` | internal/controller/status.go:68-114 | Where every declared shard has an owner, the phase is Resharding while there are more owners than shards, else Ready, or Degraded if slots are missing. |
| `Reconcile.DrainingPhase` | internal/controller/status.go:68-105 | While shards leave, the phase is Resharding as long as a departing node owns slots and Ready from then on. |
| `Reconcile.ReconcileScaleIn` | internal/controller/valkeycluster_controller.go:105-122 | Requeueing until no departing shard is left takes exactly the number of passes known beforehand and ends converged; each pass publishes Resharding until the last slot has left and Ready in the pass that moves it and the one that deletes the shards. |
| `Reconcile.FailoverSwaps` | internal/cluster/fake.go:122-137 | A failover gives the replica exactly its master's slots and keeps everybody else's. |
| `Reconcile.FailoverKeepsHealth` | internal/cluster/fake.go:122-137 | A failover within a shard leaves every shard one slot owner. |
| `Reconcile.FailoversHeal` | internal/controller/membership.go:28-57 | After any sequence of failovers from a converged cluster every shard still has one slot owner, and attaching converges. |
| `Reconcile.FailThenReconcile` | internal/controller/reconcile.go:110-122 | Any failovers followed by one pass end converged and Ready with all slots assigned. |
| `Membership.Workloads.DeleteShard` | internal/controller/scaling.go:267-273 | Exactly that shard's StatefulSet is gone. |
| `Membership.ForgetEverywhere` | internal/controller/membership.go:108-112 | Exactly that node is gone; nobody goes when no shard is declared. |
| `Fake.FakeCluster.MyID` | internal/cluster/fake.go:76-80 | The ID is the host; an unseen host becomes an empty master. |
| `Fake.FakeCluster.Meet` | internal/cluster/fake.go:83-89 | Both nodes are known afterwards; known ones are unchanged. |
| `Fake.FakeCluster.AddSlots` | internal/cluster/fake.go:92-100 | The node is a master with the ranges added to its own; nobody else changes. |
| `Fake.FakeCluster.Replicate` | internal/cluster/fake.go:103-111 | The node is a replica of the given primary and owns nothing; nobody else changes. |
| `Fake.FakeCluster.Forget` | internal/cluster/fake.go:114-119 | Exactly that node is gone. |
| `Fake.FakeCluster.Failover` | internal/cluster/fake.go:122-137 | The replica and its master swap roles and slots; without a known master nothing happens. |
| `Fake.FakeCluster.MoveSlots` | internal/cluster/fake.go:246-265 | Returns how many slots went from one node to the other; nothing happens if either is unknown. |
| `Cluster.SumRanges` | internal/cluster/admin.go:87-93 | The accumulating loop computes the number of slots the ranges stand for. |

## Left out

- `Masters.Servers`: only masters are modelled; replicas, gossip, config epochs and failover elections are the server's. SETSLOT NODE keeps the marker of a master that still has keys and is refused by an owner that has some, as the server does.
- Dialing, DNS, client caching, timeouts and command execution in pods (`internal/cluster/exec.go`): a command either fails or takes effect, and the listing of the seed is a parameter.
- `Passes.ScaleInRun`: the seed is a surviving master, and who is a shard's primary and which survivor a pass drains into are parameters.
- `Traffic.MoveSlotLive`: clients get their turn after a command, not while a MIGRATE of several keys is under way, which the server runs as one command.
- `Teardown.ScaleIn`: where a pod of an existing shard is not known to the cluster, only the total is promised.
- `Fake.FakeCluster.State`: lists the nodes in any order where the source sorts them by ID; no contract depends on the order.
- `Fake.FakeCluster.Rebalance`: takes its targets in any order where the source sorts them.
- `Reshard`, `Fix` and the real `Rebalance`: argument lists for valkey-cli, and a second re-split of the in-memory cluster the pass never uses.
- `Reconcile.ReconcileCluster`: over the in-memory cluster, whose repair does nothing and whose calls do not fail; every pod answers (what silence does to a scale-in is `Silence.SilentOwnersLost`); hosts have a name; errors of the Kubernetes API are not modelled.
- `Status.UpdateStatus`: the retry on conflict, and the phases set before an action.
- Kubernetes objects: StatefulSets are shard indexes, and deleting a shard's volumes is part of removing its index. Builders, configuration rendering and hashing would only add easy members.
- `NodesText.NodesRoundTrip`: well-formed means words without spaces, none but markers starting with a bracket, and addresses without further colons, at signs or commas; other text is parsed as `ParseNodes` states, without a round trip.
- `parseInfo`, `hasOpenSlots` and the coverage flags the real admin reads from CLUSTER INFO.
- The finalizer, validation bounds on the spec and the `cmd`, `api`, `config`, `bench` and `test` trees.
