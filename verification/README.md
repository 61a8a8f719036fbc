# Verified model of the block snapshot and the services around it

This project models, in Dafny 4.11, the concurrency control of a ChainMaker node as implemented in `module/snapshot`, and
four smaller protocols that depend on it. `dafny verify dfyconfig.toml` checks everything.

**Optimistic apply** (`TxLog`, `OptimisticApply*`, `RowRecords`, `FailedRunReads`). Transactions run concurrently, read through the
snapshot, key by key or in batches, and are accepted or rejected by sequence numbers. The model is a step machine whose steps are single table
lookups, single table puts, lock operations and appends; a run is any list of enabled steps. The main theorem is
serializability of every run. It holds for all runs exactly from block version 2201 on: below that version a failed run
leaves the value of its own dropped put in the read table, and a later transaction is served that value.

**Dependency graph** (`Closure`, `ConflictGraph`, `BuildDag`, `DagOrders`, `BuiltGraph`). The loops that build the position
dictionaries and the reach sets are proved against the closure of what they look at. That closure is the closure of the
conflict relation exactly when every writer hidden by a repeated write of the same bare key is reached some other way: a
transaction that writes one bare key twice (for two contracts, say) finds itself instead of the previous writer. A
two-transaction block that loses an update this way is given.

**Replay** (`Replay`, `DagReplay`, `DagReplayTheorems`, `DagReplayEnds`, `DagScheduler`, `Proposal`, `ProposalReplay`).
Contracts are arbitrary deterministic programs. Every order that respects the conflicts gives each transaction the values
and writes of the block. The same is proved of the step machine: any interleaving that starts a transaction after its
neighbours reproduces the block's rows, never rejects a transaction, is never stuck, and ends after a number of steps that
the block bounds; when no step is left the block has been reproduced completely. The scheduler's two bookkeeping loops
release a transaction exactly when its neighbours are done, which is exactly when the step machine lets it start. `Proposal`
and `ProposalReplay` put the three parts together: the rows of any concurrent run on the proposer's snapshot are a serial
block, the graph built from their key lists is accepted, and every replay of every such block gives the proposer's rows and
state exactly when no repeated write hides a conflict.

**Layered snapshots** (`SnapshotForest`, `SnapshotTables`, `SnapshotTrunk`, `SnapshotCommit`, `SnapshotItems`, `BatchRead`,
`SnapshotImpl`, `SnapshotManager`, `ShardMap`). A forest of snapshots hangs on the store. `trunk` is the set of held
snapshots whose chain of previous blocks rises from the last committed block; over every sequence of new, cleared and
committed blocks and of applied transactions, what lies below a trunk snapshot is what lay below it when it was made, and
its reads are the plain overlay of the write tables over the store. Off the trunk a commit keeps the reads of a snapshot
exactly when it cuts no link between that snapshot and the committed one; chains whose heights rise are never cut there, and
an example shows a chain whose heights dip and that is. A block that names itself as its previous block gets a snapshot
linked to itself. Table keys are contract name and key without a separator: seen item by item, every chain of snapshots
built by any transactions answers each item's last value exactly when no two items share a table key. Batch reads agree with
single reads exactly for batches of one contract.

**Live snapshot** (`LiveSnapshot`). The optimistic apply runs on a trunk snapshot while the manager commits, makes, drops and
fills other snapshots between its steps, and a read that misses the snapshot's tables walks down the previous snapshots link
by link, over links that are cut and snapshots that are committed meanwhile. All accepted transactions are still serializable
over what lay below the snapshot when it was made.

**Parallel writes** (`WriteBatches`). The slices of at most eight workers cover the list once. Every interleaving of the
workers leaves the table of the serial loop exactly when all batches that write a key end with the same value for it.

**Around the snapshot.** `Feed`: delivery of a value to subscribed channels while others unsubscribe. `BlockSubscription`: the
hand-over from stored to new blocks. `Dispatcher`: result channels per transaction and children per chain. `Endorsement` and
`MultiSign`: endorsement rules and voting.

Environment choices (which goroutine runs, which channel is ready, when blocks arrive, when a client leaves) are
nondeterministic values or an arbitrary list given to the model. The store, the member lookup and the contracts are
function parameters. Block headers stand for fingerprints; both use the same five header fields, so the fingerprint "without
consensus" that a commit deletes second is the one it has just deleted. `Basics` holds what several modules share.

Where code and comments disagree the model follows the code: the comment on `constructKey` promises a separator that the
code does not write, and `isMultiSignRefused` builds an inverted policy that it never uses.

## Model

| member | source | states |
|---|---|---|
| `OptimisticApplyTheorems.Serializability` | module/snapshot/snapshot_impl.go:460-533 | In every interleaving each accepted normal or SZ transaction read and wrote as if it ran alone after the rows before it; an uninterrupted GetKey answers the serial value of every key without a half-finished put |
| `LiveSnapshot.LiveSerializability` | module/snapshot/snapshot_manager.go:73-121 | While blocks are committed, made, dropped and filled between the steps, every accepted normal or SZ transaction on a snapshot that stays on the trunk read and wrote as if it ran alone over what lay below the snapshot when it was made, and reads through the live chain answer the serial values |
| `LiveSnapshot.WalkOk` | module/snapshot/snapshot_impl.go:305-313 | Each step of a read down the previous snapshots keeps that it will answer what lay below the snapshot when it was made |
| `LiveSnapshot.CommitPlace` | module/snapshot/snapshot_manager.go:83-118 | A commit under the feet of such a read, even of the very snapshot it is at, keeps that too |
| `OptimisticApplyTheorems.StepKeeps` | module/snapshot/snapshot_impl.go:599-623 | Every step of every transaction kind keeps the snapshot invariant: tables, contexts' views and serializable rows |
| `FailedRunReads.SerializableIffReadsDropped` | module/snapshot/snapshot_impl.go:693-709 | All reachable states are serializable if and only if the block version is at least 2201 |
| `OptimisticApplyTheorems.SealBound` | module/snapshot/snapshot_impl.go:766-770 | Sealing without the lock, at most one seal-gated append completes afterwards, and none if nobody held the lock |
| `OptimisticApplyTheorems.ShortcutsAgree` | module/snapshot/snapshot_impl.go:480-532 | A conflict found by the unlocked pre-check stays a conflict for ever; a context that started at the current size has none |
| `OptimisticApplyTheorems.RunCells` | module/snapshot/snapshot_impl.go:712-722 | Cell indices never decrease, never exceed the table size and are below it whenever nobody is putting |
| `OptimisticApplyTheorems.RunRecords` | module/snapshot/snapshot_impl.go:536-548 | In every run the rows and the put-off iterator transactions are exactly those appended, in order, and rows never change |
| `RowRecords.RowsKept` | vendor/chainmaker.org/chainmaker/vm/v2/tx_sim_context.go:976-1040 | In every run, of any version and with any failures, a row's writes are the last values its transaction wrote if it succeeded, none of them if it failed below version 2300, and from 2300 on exactly those of the account manager; its reads are, for each key read and not answered by an own put (any key read, below version 2030500), the last value read |
| `RowRecords.FailedRowHarmless` | vendor/chainmaker.org/chainmaker/vm/v2/tx_sim_context.go:1007-1026 | A failed row changes the value of no key below version 2300, and from 2300 on of no key outside the account manager |
| `RowRecords.ReadTableKeys` | module/snapshot/snapshot_impl.go:693-709 | While nobody holds the lock the read table has exactly the keys recorded by rows that succeeded, or by any row below version 2201 |
| `RowRecords.NeverRefused` | module/snapshot/snapshot_impl.go:551-580 | A second run of an iterator transaction or a gas transaction, once started, is under way until its row is in the table, sealed or not |
| `RowRecords.FirstRunsPutOff` | module/snapshot/snapshot_impl.go:536-548 | In every run a first run of an iterator transaction gets no row, and only such runs are put off |
| `RowRecords.RefusedOnlyFor` | module/snapshot/snapshot_impl.go:460-533 | In every run a transaction that leaves without a row and is not put off was refused because the snapshot is sealed for its kind or because a key it recorded was written since it started |
| `RowRecords.RefusedWhen` | module/snapshot/snapshot_impl.go:460-533 | And it is refused, at its end, at the gate or when the key is checked, if one of these holds |
| `OptimisticApplyProof.AppendKeeps` | module/snapshot/snapshot_impl.go:725-742 | Appending the row makes it the last writer of its keys and keeps the invariant |
| `OptimisticApplyProof.ProbeReadTableKeeps` | module/snapshot/snapshot_impl.go:298-303 | A value found in the read table after the write table was missed is current unless its key was touched meanwhile |
| `OptimisticApplyProof.BatchGetKeeps` | module/snapshot/snapshot_impl.go:317-357 | A batch read whose keys are looked up in write table, read table and below in any interleaving, with other transactions in between, keeps the invariant |
| `OptimisticApplyProof.GateKeeps` | module/snapshot/snapshot_impl.go:505-516 | Passing the gate under the lock, by the fast path or towards the re-check, keeps the invariant |
| `TxLog.LogOnIsSerial` | vendor/chainmaker.org/chainmaker/vm/v2/tx_sim_context.go:268-309 | A log answered from own puts and current first reads is a serial log |
| `TxLog.SerialLogIs` | vendor/chainmaker.org/chainmaker/vm/v2/tx_sim_context.go:268-309 | A log is serial if and only if every single read in it gives the transaction's last put before it, or else the value the rows before the transaction left |
| `TxLog.LastWritesAre` | vendor/chainmaker.org/chainmaker/vm/v2/tx_sim_context.go:737-775 | The write set of a log has a key if and only if the log writes it, with the value of the last write |
| `BuildDag.BuildDictAndPos` | module/snapshot/snapshot_impl.go:916-948 | The dictionaries list the readers and writers of every key in order, and the positions are each transaction's places among them |
| `BuildDag.BuildReachMap` | module/snapshot/snapshot_impl.go:950-1000 | The reach set of a transaction is exactly the closure of the conflicts looked at; its edges are some of them and reach all of it |
| `BuildDag.BuildNormalDag` | module/snapshot/snapshot_impl.go:897-912 | Edges go to smaller vertices in increasing order; reach sets, graph and seen conflicts have one closure |
| `BuildDag.BuildDAG` | module/snapshot/snapshot_impl.go:868-913 | The same for the returned graph; with SQL contracts a chain that orders all pairs |
| `BuildDag.WriterTarget` | module/snapshot/snapshot_impl.go:988-996 | The writer entry before a transaction's own place is its previous writer, or itself if it writes the key twice |
| `BuildDag.ReaderTargets` | module/snapshot/snapshot_impl.go:976-986 | The reader entries before a transaction's own place are exactly the earlier readers, and maybe itself |
| `Closure.ReachIsConnected` | module/snapshot/snapshot_impl.go:955-999 | Reach sets are exactly the vertices connected by a walk along edges |
| `ConflictGraph.SeenReachIsConflictReach` | module/snapshot/snapshot_impl.go:962-998 | The closure of what is looked at equals the closure of read-write, write-read and write-write conflicts if and only if hidden writers are covered |
| `ConflictGraph.NoRepeatedWrite` | module/snapshot/snapshot_impl.go:937-945 | Hidden writers are covered when no transaction writes a bare key twice |
| `DagOrders.OrdersKeepConflicts` | module/snapshot/snapshot_impl.go:868-1000 | Every order a graph with that closure allows keeps every conflict if and only if hidden writers are covered |
| `DagOrders.RepeatedWriteLosesConflict` | module/snapshot/snapshot_impl.go:937-945 | A block of two transactions whose conflict is not in the graph |
| `BuiltGraph.BuildForReplay` | module/snapshot/snapshot_impl.go:868-913 | The built graph is accepted by the simulator, and it orders all conflicts, and all orders it allows keep them, if and only if hidden writers are covered |
| `BuiltGraph.RepeatedWriteLosesUpdate` | module/snapshot/snapshot_impl.go:937-945 | In that block an allowed order leaves the first writer's value instead of the second's |
| `BuiltGraph.SimulateWithDag` | module/core/common/scheduler/scheduler.go:561-735 | The loop over the two bookkeeping steps, whichever released transaction finishes next, ends; exactly the malformed graphs are refused, and otherwise every transaction runs once and after its neighbours |
| `Replay.ReplaySameRows` | module/core/common/scheduler/scheduler.go:561-600 | Any order that respects the conflicts gives every transaction the block's read values, result and writes |
| `Replay.ReplaySameState` | module/core/common/scheduler/scheduler.go:561-600 | A complete replay leaves the block's state |
| `DagReplayTheorems.ReplayAlongGraph` | module/core/common/scheduler/scheduler.go:561-735 | In every interleaving of a replay on the concurrent snapshot every row is the block's row, and once all ran the snapshot answers the block's state |
| `DagReplayTheorems.StepTracks` | module/core/common/scheduler/scheduler.go:770-800 | No step of a replay rejects a transaction |
| `DagReplayTheorems.ReplayNeverStuck` | module/core/common/scheduler/scheduler.go:561-735 | Until every transaction is in the table and has left, some step is possible |
| `DagReplayEnds.ReplayEnds` | module/core/common/scheduler/scheduler.go:561-735 | No replay goes on for ever: the number of its steps is at most a bound computed from the block |
| `DagReplayEnds.FinishedReplay` | module/core/common/scheduler/scheduler.go:561-735 | When no step is left every transaction is in the table with the block's row and the snapshot answers the block's state |
| `DagReplay.NeverConflicts` | module/snapshot/snapshot_impl.go:519-529 | A finished transaction of a replay has no conflict on any key it recorded |
| `DagScheduler.Simulation.InitSimulateDag` | module/core/common/scheduler/scheduler.go:736-768 | Refuses exactly the malformed graphs, otherwise releases exactly the vertices without neighbours |
| `DagScheduler.Simulation.ShrinkDag` | module/core/common/scheduler/scheduler.go:1004-1016 | Releases, each once, exactly the transactions whose last unfinished neighbour was the finished one |
| `DagScheduler.Released` | module/core/common/scheduler/scheduler.go:1007-1013 | Striking a finished transaction off all lists keeps "released if and only if all neighbours are done" |
| `Proposal.ReleasedMayStart` | module/core/common/scheduler/scheduler.go:1004-1016 | A transaction may start in the step machine if and only if the scheduler has released it and it is neither finished nor under way |
| `Proposal.ProposedSerial` | module/snapshot/snapshot_impl.go:460-533 | The rows of deterministic contracts run concurrently are a serial block of those contracts |
| `ProposalReplay.ProposeBuildReplay` | module/snapshot/snapshot_impl.go:868-913 | The graph built from key lists is accepted; every interleaving of every replay along it, for every proposal with these key lists, has the proposer's rows and, once all ran, answers the proposer's state, if and only if hidden writers are covered |
| `ProposalReplay.HiddenLosesUpdate` | module/snapshot/snapshot_impl.go:937-945 | For any key lists with an uncovered hidden writer there are contracts, a run of the proposer and a complete replay along the graph that ends with another value |
| `ProposalReplay.SerialReplay` | module/core/common/scheduler/scheduler.go:561-735 | Every order the graph allows is the row order of a replay of the step machine |
| `SnapshotImpl.Snapshot.Apply` | module/snapshot/snapshot_impl.go:637-684 | The transaction comes last in the table, with its read-write set at the same place and its result under its id; every key it writes gets its last value and its index; its reads go to the read table unless it failed and the version is 2201 or later |
| `SnapshotImpl.Snapshot.ApplyOptimize` | module/snapshot/snapshot_impl.go:687-743 | Putting prepared maps in any order does exactly the same |
| `SnapshotImpl.Snapshot.ApplyUnchecked` | module/snapshot/snapshot_impl.go:551-580 | The second run of an iterator transaction and a gas transaction: building the maps and putting them leaves the tables that `Apply` leaves |
| `SnapshotImpl.Snapshot.ApplyBlock` | module/snapshot/snapshot_impl.go:626-634 | A block with a wrong number of read-write sets is refused; otherwise its transactions follow in block order, each with its own read-write set at the same index |
| `SnapshotTables.ApplyAllInOrder` | module/snapshot/snapshot_impl.go:626-634 | After any block the transactions stand in block order behind the earlier ones, read-write sets at the same indices, and the result of an id is that of the last transaction with it |
| `SnapshotTables.ApplyAllReads` | module/snapshot/snapshot_impl.go:643-657 | After any block the read-table cell of a key is that of the last transaction that read it and succeeded (any one, below version 2201), with its last value and its index, or as it was |
| `SnapshotTables.ApplyTxIs` | module/snapshot/snapshot_impl.go:637-684 | One transaction: lists, last values, index and the version guard, key by key |
| `SnapshotTables.PutAllIsPutMap` | module/snapshot/snapshot_impl.go:583-596 | Putting a list in order is putting the map of its last values in any order |
| `SnapshotTables.ApplyAllAligned` | module/snapshot/snapshot_impl.go:626-684 | After any block each cell names the last transaction that wrote the key and holds its last value; the tables stay index-aligned |
| `SnapshotTables.ApplySound` | module/snapshot/snapshot_impl.go:643-657 | A transaction whose reads the snapshot gave leaves the read table sound |
| `SnapshotImpl.Snapshot.GetKey` | module/snapshot/snapshot_impl.go:288-314 | The walk over tables, previous snapshots and store ends and answers what the nearest table with the key holds, else the store |
| `SnapshotImpl.Snapshot.GetKeys` | module/snapshot/snapshot_impl.go:317-357 | The batch walk ends and refines the batch function that the next rows relate to single reads |
| `SnapshotImpl.Snapshot.GetBatch` | module/snapshot/snapshot_impl.go:418-457 | Splits a batch into the keys a table has, with values, and the others, both in order |
| `BatchRead.SplitInOrder` | module/snapshot/snapshot_impl.go:418-457 | The found and the missing keys of a batch are those of its parts, one after the other |
| `BatchRead.GetKeysRight` | module/snapshot/snapshot_impl.go:317-357 | For one contract a batch fails exactly if a single read of one of its keys fails, and else is a permutation of the keys with the values of the single reads |
| `BatchRead.BatchIffOneContract` | module/snapshot/snapshot_impl.go:389-415 | That holds in every chain over every store if and only if the keys are of one contract |
| `BatchRead.MixedBatchMisread` | module/snapshot/snapshot_impl.go:390-393 | A batch with two contracts is misread in an empty snapshot over some store |
| `SnapshotTrunk.TrunkOverlay` | module/snapshot/snapshot_impl.go:297-314 | In every state the manager reaches, the reads of a trunk snapshot are the plain overlay of the write tables over the store: the read tables are invisible |
| `SnapshotItems.ReadsRightIffSeparated` | module/snapshot/snapshot_impl.go:1003-1006 | Every chain of snapshots built by any blocks and transactions over every store answers for each item its last value in the nearest block that wrote it, else the store, if and only if no two items share a table key |
| `SnapshotItems.ApplyByItem` | module/snapshot/snapshot_impl.go:637-684 | Without shared table keys the write table keeps, item by item, the last value the applied transactions gave |
| `SnapshotItems.ItemWritesAre` | module/snapshot/snapshot_impl.go:660-667 | The value of an item after a list of transactions is the last one given to it by the last transaction that writes it |
| `SnapshotItems.AbsorbsByItem` | module/snapshot/snapshot_manager.go:73-121 | A store that took over the transactions' writes item by item has taken over the write table, as a commit in order supposes |
| `SnapshotItems.SharedKeyMiswritten` | module/snapshot/snapshot_impl.go:1003-1006 | A write to one of two items with one table key is read as the other's value |
| `SnapshotItems.SharedKeyMisread` | module/snapshot/snapshot_impl.go:1003-1006 | Of two items with one table key: after a read of one, a read of the other answers the first |
| `SnapshotItems.TwoItemsShare` | module/snapshot/snapshot_impl.go:1003-1006 | Two keys of two contracts have one table key |
| `SnapshotTrunk.CommitTransparent` | module/snapshot/snapshot_manager.go:73-121 | If the store answers what a snapshot answered, the commit changes no value read through unbroken links to that snapshot |
| `SnapshotCommit.CommitReadsIff` | module/snapshot/snapshot_manager.go:81-118 | In every valid world with the given links, whatever its tables and store, an in-order commit keeps all reads of a snapshot above the committed one if and only if it cuts no link between the two other than one to the committed snapshot itself |
| `SnapshotCommit.KeptIffUnbroken` | module/snapshot/snapshot_manager.go:81-118 | The same without the trunk: for any tables, any stores and any snapshot whose answers the new store gives |
| `SnapshotManager.Manager.NewSnapshot` | module/snapshot/snapshot_manager.go:39-60 | For all headers: the new snapshot is linked to the held snapshot of the previous block if there is one, replaces a held one of the block, and keeps the invariant; the invariant breaks exactly if the block names itself as previous, and then the snapshot is linked to itself |
| `SnapshotManager.Manager.StoreAndLink` | module/snapshot/snapshot_manager.go:27-36 | For all headers: stores the snapshot under the block's header and then links it to what is stored under the previous one, which is itself if both are the same |
| `SnapshotManager.Manager.GetSnapshot` | module/snapshot/snapshot_manager.go:63-70 | Returns the held snapshot and changes nothing, or a new one, with the whole new state as after NewSnapshot |
| `SnapshotManager.Manager.NotifyBlockCommitted` | module/snapshot/snapshot_manager.go:73-121 | The committed block is no longer held, of the others exactly those not more than eight blocks below it are, as the same objects; exactly the links to a snapshot of the block and those of too old snapshots are cut; the invariant stays, and after an in-order commit every snapshot with unbroken links to that of the block reads what it read |
| `SnapshotTrunk.NextJoins` | module/snapshot/snapshot_manager.go:39-121 | After any commit a new snapshot on top of the committed block is linked to nothing, joins the trunk, and what lies below it is the new store |
| `SnapshotTrunk.JoinsAbove` | module/snapshot/snapshot_manager.go:39-60 | A new snapshot on top of a trunk snapshot joins the trunk, and what lies below it is what that one answers |
| `SnapshotManager.Manager.UnlinkChildren` | module/snapshot/snapshot_manager.go:83-92 | Exactly the held snapshots linked to a snapshot of the block are unlinked |
| `SnapshotManager.Manager.DropStale` | module/snapshot/snapshot_manager.go:107-118 | Exactly the held snapshots more than eight blocks below are unlinked and dropped |
| `SnapshotManager.Manager.ClearSnapshot` | module/snapshot/snapshot_manager.go:142-165 | The snapshot of the block is no longer held, links to it stay, and it leaves the trunk with all above it |
| `SnapshotManager.Manager.ApplyTo` | module/snapshot/snapshot_impl.go:637-684 | Applying any transaction to any snapshot, linked to or not, keeps the invariant: the snapshots above leave the trunk, and so does the snapshot itself unless the recorded reads are what it answers |
| `SnapshotTrunk.TrunkReads` | module/snapshot/snapshot_impl.go:288-314 | A trunk snapshot answers its own writes over the state it started from, whatever was committed since |
| `SnapshotTrunk.CommitKeeps` | module/snapshot/snapshot_manager.go:73-121 | Every commit, in order or not, keeps the invariant: what lies below a trunk snapshot is what lay there when it was made |
| `SnapshotTrunk.CommitReads` | module/snapshot/snapshot_manager.go:81-92 | An in-order commit changes no value that is read through unbroken links to the snapshot of the block |
| `SnapshotTrunk.RisesUnbroken` | module/snapshot/snapshot_manager.go:107-118 | Where every link leads to a lower block a commit breaks none of them |
| `SnapshotCommit.DippingLinkMisread` | module/snapshot/snapshot_manager.go:107-118 | In a valid world with a chain whose heights dip an in-order commit breaks a link and changes a read: a snapshot in between is unlinked as too old |
| `SnapshotTrunk.AboveStays` | module/snapshot/snapshot_manager.go:83-118 | Of the snapshots rising from the committed one every held one stays held, and only those linked to it are unlinked |
| `SnapshotTrunk.MakeKeeps` | module/snapshot/snapshot_manager.go:39-60 | A new snapshot keeps the invariant and joins the trunk if its previous block is lower and on it |
| `SnapshotTrunk.DropKeeps` | module/snapshot/snapshot_manager.go:142-165 | Dropping or replacing a held snapshot keeps the invariant |
| `SnapshotTrunk.ApplyKeeps` | module/snapshot/snapshot_impl.go:637-684 | New tables of any snapshot keep the invariant of those that stay on the trunk |
| `ShardMap.Fnv32` | module/snapshot/shard_map.go:97-105 | The hash starts from 2166136261, and each byte multiplies it by 16777619 modulo 2^32 and is then xor-ed in |
| `ShardMap.ShardSet.GetByLock` | module/snapshot/shard_map.go:36-39 | A lookup in the key's shard is a lookup in the one map that the 64 shards make up |
| `ShardMap.ShardSet.PutByLock` | module/snapshot/shard_map.go:41-44 | A put into the key's shard is a put into that map |
| `WriteBatches.Plan` | module/snapshot/snapshot_impl.go:809-821 | The slices are those of ceil(n / 8) indices that start before n, at most eight, and follow each other from 0 to n without an empty one |
| `WriteBatches.CoveredOnce` | module/snapshot/snapshot_impl.go:809-821 | Every index lies in exactly one slice |
| `WriteBatches.WorkersAgreeIff` | module/snapshot/snapshot_impl.go:812-836 | Every interleaving leaves the serial loop's table if and only if the batches that write a key agree on its last value |
| `WriteBatches.DistinctKeysAgree` | module/snapshot/snapshot_impl.go:808-809 | Distinct table keys, which the comment says the scheduler guarantees, are enough |
| `WriteBatches.RunWorkers` | module/snapshot/snapshot_impl.go:822-836 | The workers, in whatever order they run, put each batch completely and in its own order |
| `WriteBatches.ApplyWrites` | module/snapshot/snapshot_impl.go:789-841 | Fewer than 50 writes, distinct keys, or batches that agree on the last value of every key give the serial result; otherwise it is that of some complete interleaving of exactly the planned batches |
| `SnapshotImpl.Snapshot.ApplyWritesToWriteTable` | module/snapshot/snapshot_impl.go:775-841 | A sealed snapshot is left alone; otherwise only the write table changes, to what the planned batches leave, which is the serial result where they agree |
| `Feed.Feed.Send` | module/subscriber/feed.go:121-185 | While owners of subscriptions ask to unsubscribe, each channel subscribed at the merge gets the value once, or its request came in before it did; nobody else gets it and nobody else is removed; the count is the number of deliveries, and the list afterwards is the subscribers less those whose request came in; without requests everybody gets it and everybody stays |
| `Feed.Feed.TrySendAll` | module/subscriber/feed.go:151-160 | The fast path delivers to ready active channels only and moves each out of the active prefix once |
| `Feed.Feed.Select` | module/subscriber/feed.go:164-177 | Each select delivers once or takes the next request, and removes exactly its channel |
| `Feed.Feed.ReceiveRemoval` | module/subscriber/feed.go:166-172 | A removal takes the channel once from the list, and from the active prefix if it was there |
| `Feed.Feed.Remove` | module/subscriber/feed.go:98-119 | While nothing is sent, unsubscribing takes the channel once from the inbox or else from the list |
| `Feed.Feed.Subscribe` | module/subscriber/feed.go:67-87 | Adds the channel once to the subscribers |
| `Feed.Find` | module/subscriber/feed.go:208-215 | The first index of the channel, or -1 if it is not there |
| `Feed.SendStep` | module/subscriber/feed.go:222-227 | Deactivating a delivered case keeps slot 0, the list and the account of every channel |
| `Feed.RemoveStep` | module/subscriber/feed.go:218-220 | Deleting a case keeps slot 0 and the account, with the active prefix still a prefix |
| `BlockSubscription.Stream.DealBlockSubscription` | module/rpcserver/subscribe_service_block.go:63-160 | For all start and end heights: the heights sent are consecutive from the start, stored and within the end; bad heights, an empty store and a start above the last block are refused; start -1 with an end sends nothing; with start and end -1 no block stored before the call is sent unless an older one is announced; a final OK with both sides still there means all of start to end; if nobody leaves and nothing fails it does not fail, and a range that is stored is sent and ends with OK |
| `BlockSubscription.Stream.SendBlock` | module/rpcserver/subscribe_service_block.go:197-235 | The same for heights that passed the checks; after a stop at most the block in flight is sent |
| `BlockSubscription.Stream.SendHistory` | module/rpcserver/subscribe_service_block.go:325-386 | Continues the run without gap or repeat and returns its last height, reached because of the end or the store; from -1, read as an unsigned height, nothing is found; a call that begins after a stop sends nothing |
| `BlockSubscription.Stream.SendNew` | module/rpcserver/subscribe_service_block.go:237-297 | Continues the run over any order of announcements; called with -1 it starts above the last stored block or above an announced one, and after a cancellation it sends nothing |
| `BlockSubscription.Stream.Turn` | module/rpcserver/subscribe_service_block.go:268-296 | An announcement above what was sent is followed up to the last block stored, or to the end |
| `Dispatcher.Child.Register` | module/rpcserver/tx_result_dispatcher.go:316-327 | A second registration is refused; else a new open channel, and the count is the number of registrations |
| `Dispatcher.Child.Unregister` | module/rpcserver/tx_result_dispatcher.go:329-339 | The channel is closed, once, and leaves the registrations |
| `Dispatcher.Child.TrySendTxResult` | module/rpcserver/tx_result_dispatcher.go:341-360 | Only the transaction's open channel gets the result, if it is empty; no channel ever holds two |
| `Dispatcher.Root.CheckAndUpdate` | module/rpcserver/tx_result_dispatcher.go:148-176 | After success the children are those of the configured chains, survivors are the same objects, the others stopped once; a failure drops nobody |
| `Endorsement.VerifyPolicy` | module/accesscontrol/ac_server.go:671-840 | The verdict on a list is the policy's verdict on the set of endorsements, for every rule |
| `Endorsement.GetValid` | module/accesscontrol/ac_server.go:848-887 | Keeps exactly the endorsements with a listed organization and role |
| `Endorsement.CountOrgs` | module/accesscontrol/ac_server.go:899-905 | The number of different organizations |
| `Endorsement.MajorityMeans` | module/accesscontrol/ac_server.go:692-712 | MAJORITY accepts if and only if administrators of more than half of the chain's organizations signed |
| `Endorsement.SelfMeans` | module/accesscontrol/ac_server.go:714-742 | SELF accepts if and only if the target is named and an administrator of it signed |
| `Endorsement.AnyMeans` | module/accesscontrol/ac_server.go:744-776 | ANY accepts if and only if some organization has an endorsement that is let in |
| `Endorsement.AllListedMeans` | module/accesscontrol/ac_server.go:778-790 | ALL with a list accepts if and only if every listed organization has an endorsement that is let in |
| `Endorsement.AllMeans` | module/accesscontrol/ac_server.go:778-790 | ALL without a list, signed by organizations of the chain only, accepts if and only if all of them have one |
| `Endorsement.ThresholdMeans` | module/accesscontrol/ac_server.go:792-812 | A threshold accepts if and only if that many organizations, or more, have one |
| `Endorsement.PortionMeans` | module/accesscontrol/ac_server.go:814-840 | A portion num/den accepts if and only if n organizations with n * den >= num * total have one, in whole numbers |
| `Endorsement.ForbiddenNever` | module/accesscontrol/ac_server.go:671-690 | FORBIDDEN and unrecognized rules accept nothing |
| `Endorsement.MoreIsEnough` | module/accesscontrol/ac_server.go:671-840 | More endorsements never turn acceptance into rejection if the signers' organizations are the chain's |
| `Endorsement.MonotoneIff` | module/accesscontrol/ac_server.go:671-840 | Whoever signs, more endorsements never hurt if and only if the rule is not ALL without a list of organizations |
| `Endorsement.OneTooMany` | module/accesscontrol/ac_server.go:778-789 | Under that rule one signer of another organization turns acceptance into rejection |
| `Endorsement.MajoritiesMeet` | module/accesscontrol/ac_server.go:692-712 | Two sets accepted by MAJORITY have administrators of one organization in both |
| `MultiSign.MultiSignInfo.Verify` | module/accesscontrol/provider.go:528-592 | Only an undecided proposal with a policy changes, to the decision of its votes |
| `MultiSign.MultiSignInfo.IsRefused` | module/accesscontrol/provider.go:494-526 | Refused by the same policy, by a tie under MAJORITY, or by an unsupported rule |
| `MultiSign.RefusesMeans` | module/accesscontrol/provider.go:494-526 | Refusal per rule: always under FORBIDDEN and SELF, never under an unrecognized rule, by the policy's own verdict under the others, and under MAJORITY also with exactly half as many votes as organizations |
| `MultiSign.DecisionMeans` | module/accesscontrol/provider.go:528-592 | PASSED if and only if somebody agrees and the policy accepts those who do, whatever the others vote; REFUSED only with a rejecting vote; nothing without votes |
| `MultiSign.MajorityDecides` | module/accesscontrol/provider.go:488-592 | With one administrator's vote per organization PASSED is more than half for, REFUSED is half or more against, never both, and a full vote is decided |
| `MultiSign.DecisionStands` | module/accesscontrol/provider.go:528-592 | No later votes reverse a decision |
| `MultiSign.RepeatedVoteRefuses` | module/accesscontrol/provider.go:519-523 | Two votes of one organization out of four refuse, because the tie counts votes |
| `MultiSign.RefusedByOrgsIff` | module/accesscontrol/provider.go:514-523 | On chains of every size refusal is "half of the organizations or more reject" if and only if the rejecting votes are as many as their administrators' organizations |
| `MultiSign.RefusedByOrgsHere` | module/accesscontrol/provider.go:514-523 | On one chain it is so if and only if those numbers are equal or neither of them is half of the chain's organizations |
| `MultiSign.OneVoteEachRefusesByOrgs` | module/accesscontrol/provider.go:494-526 | With one administrator's vote per organization it is always so |

## Left out

- SnapshotImpl.Snapshot.ApplyBlock: requires every transaction id to be in the map when the numbers match, because the source would dereference a missing read-write set.
- BlockSubscription.Stream.DealBlockSubscription: stored heights fit into signed 64-bit numbers; parameters arrive parsed, and the lookups of chain, sender and role and the filter's rules are not modelled.
- ProposalReplay.ProposeBuildReplay: the key lists may list more than the rows use (where they list exactly the rows' keys a later write of the same key can make up for a lost conflict); contracts ask for one key at a time; below block version 2201 it covers blocks without a failed run, because others need not be serializable (`FailedRunReads.SerializableIffReadsDropped`); iterator and gas transactions are not among the proposed ones.
- SnapshotTrunk.TrunkOverlay: says nothing about snapshots off the trunk, such as those of a fork or of a cleared block.
- BlockSubscription.Stream.SendHistory: a block whose read was under way when the client left may still be sent; the contracts allow that one block.
- Feed.Feed.Send: requires that every request is of a subscription of its own that the send has taken over, because a subscription is removed once and one still in the inbox is removed there (module/subscriber/feed.go:98-108, 194-199).
- Feed.Feed.Remove: requires a subscribed channel, because the source would slice at -1 otherwise; element types and their panics are not modelled.
- Endorsement.VerifyPolicy: rules arrive parsed, portions are exact fractions instead of floats, and member lookup is a fixed function.
- MultiSign.MultiSignInfo.Verify: policy lookup gives a policy or none; its errors and the skip-access-control debug switch are not modelled.
- LiveSnapshot.LiveSerializability: says nothing of snapshots above the running one, nor of one that leaves the trunk; what lies below it can be read without errors; a snapshot that a walk has reached is not written any more.
- OptimisticApplyProof.BatchGetKeeps: a key listed twice in a batch is looked up once; the order of the results is not modelled.
- Writes of SQL contracts, of which a failed run keeps those that define tables, are not modelled.
- GetNoRecord (reads that are not recorded, used by the framework) and the cache of results that a follower's transaction relies on (`relyCache`) of the simulation context are not modelled: an unrecorded read is not checked for conflicts.
- Optimistic apply: store read errors, uint32 wrap-around of transaction counts, and the merging of nested contract calls inside one read-write set are not modelled; iterator and gas rows are appended without a promise about their reads, as in the source.
- Table keys in the optimistic apply are final table keys; that different items need different ones is the subject of `SnapshotItems.ReadsRightIffSeparated`.
- Reach bitmaps are sets; the word layout of the bitmap library is not modelled.
- `ApplyWritesToWriteTable` is not a step of the optimistic-apply machine; the source uses it on snapshots of its own.
- Evidence snapshots and their manager, `Lock` and the `*WithLock` reads: partly unimplemented in the source.
- Transaction and contract-event subscriptions, certificates, signatures, policy tables, network, RPC, sync and start-up code.
