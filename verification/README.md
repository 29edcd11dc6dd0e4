# s2c-rs: a verified model of its log, election, replication and transport

s2c-rs keeps a replicated log in an object store. A node becomes leader of a group by creating, with
a create-only put, the next log entry; followers accept replicated batches in index order; messages
travel in length-prefixed frames and are matched to their callers by correlation id. This project
models that code in Dafny and proves what it guarantees, and, where it does not guarantee what it
sets out to, exactly when it does. `dafny verify dfyconfig.toml` checks everything.

| file | models |
|---|---|
| `Words.dfy` | u64/u32 words with explicit wrap-around |
| `Paths.dfy` | object keys, decimal names of inverted indices, lexicographic listings (src/paths.rs) |
| `Backoff.dfy` | delays and attempt budgets (src/backoff.rs) |
| `Log.dfy` | `append`, `get_head`, `get_at` over a create-only store (src/log.rs), the rounds of `discover_leader_state` |
| `Queue.dfy` | the follower's intake queue (src/sync_queue.rs) |
| `Fsm.dfy` | one node: discovery, joining, leadership attempt, follower loop, heartbeats, `start` (src/fsm.rs) |
| `Cluster.dfy` | any number of nodes over one store, all interleavings (src/fsm.rs, src/log.rs) |
| `Simulation.dfy` | the sequential leadership attempt is what a node of the cluster does in any company |
| `Joining.dfy` | a turn of the sequential `join` is what a node of the cluster does in any company |
| `Replication.dfy` | followers of one group over the shared write-once log |
| `Leader.dfy` | draining and batching in the leader loop (src/fsm.rs) |
| `Server.dfy` | who may bind and accept (src/network/server.rs) |
| `Framing.dfy` | frames, the message reader, the fault-injecting reader (src/network/message_rw.rs) |
| `Inflight.dfy` | the in-flight table and its callers (src/network/inflight.rs, src/network/client.rs) |
| `Routing.dfy` | responses through the local sender cache (src/network/group_server.rs) |

Main results, in the system's own terms:

- **Elections.** For any number of nodes, any store and any interleaving, with puts that take effect
  behind an error or long after it, no index and no epoch elects twice. In a group of fresh nodes,
  restarts included, at most one node ever leads, under its own claim at index 1.
- **What the log of such a group holds.** Only that first claim. In no group is a flushed batch ever
  stored: a leader flushes to the index its own claim occupies. Discovery reads the mirrored entry,
  so a node becomes a follower if and only if somebody else may write a key under the group's log
  prefix that reads as number 1, which no key written by fresh groups does. A leader remains
  possible exactly while the claim is free, its answer is awaited, or somebody leads; a hidden put or
  a restarted leader loses the group for good.
- **Joining.** What a leadership attempt and a round of `join` come to is stated exactly, by the answers of
  the store and of the clients: a refused node goes on joining, only a fatal error stops one, a node that
  lists nothing claims and leads if the index is free. Each is what a node of the cluster does, in every
  interleaving with all others.
- **Write-once log.** The string-keyed store refines a write-once map from index to value, for
  arbitrary group ids.
- **Listing order.** Newer entries list first up to index 8446744073709551615 and for no larger bound.
- **Followers.** Accepted requests carry 1, 2, 3, ... in order; every acknowledgement is the number
  accepted when it is sent; any two followers of one log agree. A queue of positive size accepts
  nothing at all. Every request a follower handles is answered once, in order, under its own id.
  Whatever `start` does is one of the lives these results speak of.
- **Leader.** Each iteration takes all that waits and hands it off when due. Every state request waits,
  is in `acc`, was handed off, or was dropped with `acc`, exactly once; none is dropped if and only if
  `acc` was empty each time the loop ended over a closed channel.
- **Server.** At most one task ever binds or accepts; exactly which steps change the state word; exactly
  when a server can still accept; exactly when `Closed` is final.
- **Transport.** Frames round-trip exactly when lengths fit 32 bits; a response that comes in reaches the
  call that awaits it, and every response a caller gets is its own; every request is accounted for, and
  one whose sending failed stays in the table; clients get exactly what is routed to them after their cache
  entry was filled. The server calls `handle_client` without awaiting it (src/network/server.rs:302), so
  as it is wired no client is ever registered and none gets anything.
- **Retries.** Delays equal their unbounded ideal exactly when the cap fits a u64 or the truncated cap is
  not reached. `append`, `get_at` and discovery are still in their loops, and answer what they answer,
  exactly under stated conditions on the answers so far, for every budget; `AlreadyExists` means exactly
  that the object was there, was created by others, or was created by the very call that is told so.

Conventions. What the network, the store, the clock and other clients do is supplied from outside:
as a script of answers, after whose end a call that needs more is reported as still running, or as
actions of a state machine whose every action sequence is a run (an action that is not enabled
changes nothing). Integer arithmetic wraps as in a release build; a debug build would panic instead.
Values stored and sent are abstract: encodings are injective. The program comes without documentation beyond its code, so
there is nothing for the model to disagree with but names and comments: `put` on the replicate queue
stores when the queue is full rather than when it has room, and the model follows it.

## Model

| member | source | states |
|---|---|---|
| `Paths.Decimal` | src/paths.rs:27-29 | names are non-empty and consist of digits only |
| `Paths.ParseOfDecimal` | src/log.rs:94-98 | parsing a listed name gives back the number it was formatted from, and fails beyond 64 bits |
| `Paths.LexIsNumeric` | src/paths.rs:27-37 | names of equal length list in numeric order |
| `Paths.NewerSortsFirst` | src/paths.rs:27-37 | of two entries up to the bound, the newer one lists strictly first |
| `Paths.ReverseOrderedExactly` | src/paths.rs:27-37 | names of inverted indices list in exactly reverse index order up to a bound if and only if that bound is at most 8446744073709551615 |
| `Paths.OutOfOrderPair` | src/paths.rs:35-37 | the first pair of indices beyond the bound that lists in the wrong order |
| `Paths.LogKeysInjective` | src/paths.rs:10-29 | equal log keys mean equal group and equal number, for arbitrary group ids |
| `Paths.LogKeysAreNotSnapshots` | src/paths.rs:10-33 | no log key is any group's snapshot key |
| `Paths.UnderPrefixExactly` | src/paths.rs:10-29 | for arbitrary group ids, exactly when a log key of one group is listed under another group's log prefix |
| `Paths.SlashFreeGroupsAreDisjoint` | src/paths.rs:10-29 | for slash-free group ids a log key lies under a log prefix exactly when it belongs to that group |
| `Paths.HeadNumberOfKey` | src/log.rs:93-98 | `get_head` reads from a listed key the very number it was built from, still inverted |
| `Paths.HeadIsLargest` | src/log.rs:76-103 | over a lexicographic listing of a log within the bound, inverting `get_head`'s number once gives the largest index |
| `Paths.HeadAlwaysLargestExactly` | src/log.rs:76-103 | that holds for all logs up to a bound if and only if the bound is at most 8446744073709551615 |
| `Paths.DiscoveryReadsMirroredEntry` | src/fsm.rs:427-429 | `get_at` of `get_head`'s number never reads the listed entry, but the one at the mirrored index |
| `Paths.IsEntryKeyExactly` | src/paths.rs:24-37 | a key is recognised as an entry of the group exactly when it is the key of one of its indices |
| `Paths.MisleadingEntryExactly` | src/log.rs:93-98 | exactly which entries of other groups are listed under a group's prefix and read as number 1 |
| `Paths.OrdinaryKeysMisleadNobody` | src/paths.rs:10-37 | snapshots, first entries of any group, and entries of groups without a slash in their id never read as number 1 under another group's prefix |
| `Backoff.SaturationIsInvisible` | src/backoff.rs:55-60 | under a u64 cap, checked shift and saturating multiplication give the unbounded product |
| `Backoff.DelayIsIdealExactly` | src/backoff.rs:50-62 | the machine delay before jitter is min(cap, base·2^(attempt−1)) over unbounded integers if and only if the cap in milliseconds fits u64 or the truncated cap is not reached |
| `Backoff.DelayIsMonotone` | src/backoff.rs:50-62 | delays never shrink from one attempt to a later one |
| `Backoff.TotalDelayBound` | src/backoff.rs:20-33 | the delays of m attempts sum to at most min(m·cap, base·(2^m−1)) |
| `Backoff.Scaled` | src/backoff.rs:50-62 | the jittered delay is the product truncated to whole milliseconds, and at least a tenth of the plain delay |
| `Backoff.Sleep` | src/backoff.rs:50-62 | the sleep after jitter lies between a tenth of the plain delay and the plain delay |
| `Backoff.AttemptStep` | src/backoff.rs:39-44 | within a bounded budget an attempt is allowed exactly below the maximum and counts one; any other budget always allows it |
| `Backoff.CounterSaturates` | src/backoff.rs:20-44 | a bounded counter after n attempts stands at min(n, maximum) |
| `Backoff.BudgetIsExact` | src/backoff.rs:39-44 | a budget m below u32::MAX allows exactly m attempts; at u32::MAX or without a maximum it never runs out |
| `Backoff.BackoffCounter.constructor` | src/backoff.rs:13-18 | a fresh counter has awaited nothing |
| `Backoff.BackoffCounter.CanAttempt` | src/backoff.rs:39-44 | answers whether fewer attempts than the maximum were awaited since the last reset |
| `Backoff.BackoffCounter.AwaitAttempt` | src/backoff.rs:20-33 | counts one attempt, sleeps its jittered delay and never longer than the cap; sleeps not at all once the budget is spent |
| `Backoff.BackoffCounter.Reset` | src/backoff.rs:46-48 | gives the whole budget back |
| `Log.AppendMeaning` | src/log.rs:35-74 | for every behaviour of store and other clients: present objects keep their values, `Ok` means the key was free and now holds exactly the payload, `AlreadyExists` means it is occupied |
| `Log.AppendCreatesAtMostOnce` | src/log.rs:41-73 | one call creates its object at most once over all its retries, and `Ok` reports that |
| `Log.AlreadyExistsExactly` | src/log.rs:57-68 | a call that settles between `Ok` and `AlreadyExists` answers `AlreadyExists` if and only if the object was there, others created it, or an earlier put of the call took effect behind an error |
| `Log.OnlyOwnObject` | src/log.rs:41-73 | with nobody else writing a free key, `AlreadyExists` speaks of the payload of this very call |
| `Log.HiddenPutIsReportedAsExisting` | src/log.rs:57-66 | the smallest instance: the retry of a put that took effect behind a transient error is told `AlreadyExists` about its own object |
| `Log.AppendRunsOnExactly` | src/log.rs:41-73 | for every budget, bounded or not: `append` is still looping if and only if every put failed with a `Generic` error and, under a bounded budget, the transient ones have not exceeded it |
| `Log.AppendAnswersExactly` | src/log.rs:41-73 | which of `Ok`, `AlreadyExists`, a fatal and a transient error `append` answers, as four exact conditions on the puts so far |
| `Log.AppendOccupies` | src/log.rs:42-59 | whether the object is there afterwards: it was, others or a hidden put created it, or the last put succeeded |
| `Log.AppendNotFatal` | src/log.rs:60-70 | a fatal error comes out only of a put that failed with one |
| `Log.AppendSettled` | src/log.rs:57-70 | once `append` has answered, nothing more happens to it |
| `Log.NeverPlainGeneric` | src/log.rs:60-68 | `append` never returns a non-transient `Generic` error |
| `Log.AppendEnds` | src/log.rs:60-68 | `append` with a bounded budget ends after what remains of it plus one put, not counting non-transient `Generic` errors |
| `Log.AppendLoopsUncounted` | src/log.rs:60-68 | non-transient `Generic` errors, with or without effect, keep it looping whatever the budget |
| `Log.ObjectStore.PutCreate` | src/log.rs:42-55 | a create-only put: an existing object stays, a free key gets the payload, whatever is reported |
| `Log.S2cLog.constructor` | src/log.rs:23-33 | keeps store, group and retry options |
| `Log.S2cLog.Append` | src/log.rs:35-74 | the retry loop computes the outcome and the store of `AppendRun` |
| `Log.PutRefinesInsert` | src/log.rs:42-59 | a put of an entry is a write-once insert at its index and touches no other index |
| `Log.OtherKeysAreInvisible` | src/paths.rs:10-37 | writing another group's entry or any snapshot leaves a group's log unchanged |
| `Log.AppendRefinesWriteOnce` | src/log.rs:35-74 | a concurrent `append` refines a write-once map from index to value |
| `Log.S2cLog.GetHead` | src/log.rs:76-103 | the loop over the listing computes `HeadFound` |
| `Log.HeadMeaning` | src/log.rs:76-103 | no head exactly for a listing of nothing but transient errors; else the first settled item decides: its error, the number its name reads as, or a panic over a name that is no number |
| `Log.HeadOfEntry` | src/log.rs:93-98 | a listing that first shows an entry of any group gives that entry's number |
| `Log.S2cLog.GetAt` | src/log.rs:105-133 | the retry loop computes the outcome and the number of gets of `GetAtRun`, for every budget and all answers |
| `Log.GetAtRunsOnExactly` | src/log.rs:105-133 | for every budget and all answers: `get_at` is still looping if and only if all failed transiently and, under a bounded budget, no stretch of them without a successful get is longer than the budget |
| `Log.GetAtAnswersExactly` | src/log.rs:110-131 | `get_at` returns a value exactly if the last get delivers it, and a failure exactly if the last get fails with it for good or beyond a bounded budget |
| `Log.BodyIsFetched` | src/log.rs:112-114 | a body that is read is returned, whatever would come after it |
| `Log.GetAtMeaning` | src/log.rs:105-133 | everything before the last get failed transiently; a value or a failure is that of the last get |
| `Log.GetAtBudget` | src/log.rs:111-131 | a transient error gets out only of a bounded budget; with one of m and no transient body failure it takes exactly m + 1 gets, and nothing takes more |
| `Log.TransientBodiesKeepRunning` | src/log.rs:111-122 | transient body failures never exhaust a budget that allows a retry, since each successful get resets it |
| `Log.GetAtAlwaysEndsExactly` | src/log.rs:105-133 | `get_at` ends in every environment if and only if no retry is allowed at all |
| `Log.RoundMeaning` | src/fsm.rs:427-446 | one round: no leader exactly when the listing settled nothing, a panic exactly over a name that is no number, undecided exactly while its gets are, an entry only if the store held it under the number listed, at most m + 1 gets without transient body failures |
| `Log.RoundDiscovers` | src/fsm.rs:428-429 | a round whose listed head is served from a store that holds it discovers exactly that entry |
| `Log.RoundFails` | src/fsm.rs:430-436 | a round whose get fails for good, or beyond the budget, fails with that get's error; a missing entry is such a failure |
| `Log.MissingEntryFails` | src/log.rs:124-130 | an entry that is not in the store is an error for good |
| `Log.FlakyBodiesNeverDecide` | src/log.rs:111-122 | a round whose every body fails transiently is never decided |
| `Log.FlakyGetsExhaust` | src/log.rs:124-130 | a round whose every get fails transiently is given up exactly after one get more than a bounded budget |
| `Log.DiscoveryMeaning` | src/fsm.rs:424-448 | for every budget: every round but the last failed transiently, no leader exactly when the last listing settled nothing, an entry only if read in the last round under the number listed there |
| `Log.DiscoveryDecides` | src/fsm.rs:424-448 | after rounds that failed transiently within the budget, the first round that did not, or that exceeds the budget, decides discovery |
| `Log.DiscoveryBudget` | src/fsm.rs:424-448 | at most m + 1 listings under a budget of m, and a transient error gets out exactly after them |
| `Log.DiscoveryGets` | src/fsm.rs:424-448 | with a budget of m and no transient body failure at most m + 1 gets for each listing and (m + 1)² in all |
| `Log.DiscoveryRunsOnExactly` | src/fsm.rs:424-448 | with every get decided, discovery is still undecided if and only if every round failed transiently and a bounded budget is not exceeded |
| `Log.DiscoveredEntryIsMirrored` | src/fsm.rs:427-429 | an entry discovered through a listing of its own group is never the one listed, but the one at the mirrored index |
| `Queue.ReplicateQueue.constructor` | src/sync_queue.rs:11-17 | a new queue is empty and has received nothing |
| `Queue.ReplicateQueue.Put` | src/sync_queue.rs:19-24 | stores and advances only when the queue already holds `size` requests |
| `Queue.ReplicateQueue.Pop` | src/sync_queue.rs:26-28 | returns the oldest request; what was ever accepted stays the same |
| `Queue.StepAccepts` | src/fsm.rs:136-141 | exactly which request extends the accepted sequence, and what is acknowledged then |
| `Queue.AcceptedInOrder` | src/fsm.rs:133-149 | over every run of arrivals, duplicates, refusals and pops the accepted requests carry 1, 2, 3, ... in order and the acknowledged index is their number |
| `Queue.AcceptedOnlyGrows` | src/sync_queue.rs:19-28 | no event takes an accepted request back |
| `Queue.PopsExactly` | src/sync_queue.rs:26-28 | pops take the accepted requests from the front, one at a time and as long as there are any |
| `Queue.AcceptedExactly` | src/sync_queue.rs:19-24 | a queue of positive size accepts nothing ever; one of size zero accepts exactly the arrivals that continue the sequence |
| `Queue.GreedyIsLongest` | src/fsm.rs:138-141 | what is accepted is at least as long as any in-order chain 1..n among the arrivals |
| `Queue.AcceptedFollowsLog` | src/fsm.rs:136-141 | if requests carry what the log holds, the accepted sequence is the log's beginning |
| `Queue.FollowersAgree` | src/fsm.rs:136-141 | of two followers of one log, one accepted sequence is a prefix of the other, whatever is lost, repeated or reordered |
| `Fsm.AttemptMeaning` | src/fsm.rs:323-365 | a node that comes out as leader found the index free and left its own claim there; one that is refused finds it occupied; nothing stored is touched |
| `Fsm.ClaimsNext` | src/fsm.rs:323-340 | a node claims the index and the epoch after its own and signs the claim |
| `Fsm.AttemptAnswersExactly` | src/fsm.rs:342-364 | by its last put, exactly: the node leads if the put succeeds at a free index, is as before if the index was taken, is stopped by a fatal error, and goes on trying after any other |
| `Fsm.OnlyFatalErrorsStop` | src/fsm.rs:350-362 | without a fatal error of the store a node comes out of an attempt NOT_JOINED or as leader |
| `Fsm.JoinMeaning` | src/fsm.rs:279-321 | a node leaves `join` as leader only with its own claim at an index it found free, as follower only after it read a claim at the very number a listing showed and was taken on, and otherwise with commit index and epoch unchanged |
| `Fsm.JoinAnswersExactly` | src/fsm.rs:281-320 | what one more round of `join` comes to, exactly: follow, attempt leadership, return, panic, or try again, by what discovery, `connect` and `follow` answered |
| `Fsm.JoinLeads` | src/fsm.rs:304-306 | a node that lists an empty log leads as soon as its put succeeds at a free index |
| `Fsm.JoinFollows` | src/fsm.rs:282-287 | a node that is served a claim under the number its listing shows, and is taken on, follows |
| `Fsm.AcknowledgementsAreHonest` | src/fsm.rs:133-149 | acknowledgements of a follower loop never decrease and never exceed what has been accepted |
| `Fsm.EachAckIsTheCount` | src/fsm.rs:136-149 | every replicate request a follower loop handles is acknowledged with exactly the number of requests accepted at that moment |
| `Fsm.AckIsTheCount` | src/fsm.rs:136-149 | the same over the whole life of a node, across pops and rejoins |
| `Fsm.PopsInLife` | src/sync_queue.rs:26-28 | pops take the accepted requests from the front over the whole life of a node and change nothing else |
| `Fsm.EachRequestIsAnswered` | src/fsm.rs:133-166 | each request a follower loop handles is answered exactly once, in order, under its own id: replicate requests with an acknowledgement, requests for the leader with an error, nothing else at all |
| `Fsm.FollowerOverExactly` | src/fsm.rs:118-189 | the loop is over exactly when the node has lost its role, on a timeout, or met a closed channel |
| `Fsm.MissedHeartbeats` | src/fsm.rs:126-137 | `missed_heartbeats` is the number of timeouts since the last replicate request, over all joins and rejoins |
| `Fsm.LifeInvariant` | src/fsm.rs:323-365 | over the whole life of a node its epoch equals its commit index and its accepted requests stay in order |
| `Fsm.LeavingFollower` | src/fsm.rs:126-132 | FOLLOWER is left exactly on a timeout that brings the count to the maximum, and only for NOT_JOINED |
| `Fsm.LeavingNotJoined` | src/fsm.rs:279-365 | NOT_JOINED is left exactly for FOLLOWER on an accepted `Follow`, for LEADER on a stored claim, for STOPPED on a claim that failed for good |
| `Fsm.RejoinedFollowerIsDroppedAtOnce` | src/fsm.rs:127-130 | the count survives a rejoin, so the first timeout drops the node again |
| `Fsm.TerminalRoles` | src/fsm.rs:107-116 | LEADER and STOPPED are never left |
| `Fsm.StartIsLife` | src/fsm.rs:107-116 | whatever `start` does is a life of the node, in which it hears exactly what its follower loops handle |
| `Fsm.StartReturnsExactly` | src/fsm.rs:107-116 | `start` returns exactly when the node is stopped |
| `Fsm.StartLeads` | src/fsm.rs:109-113 | a node started on an empty log, with a put that succeeds at a free index, leads and stays so, its claim stored |
| `Fsm.StartFollows` | src/fsm.rs:109-112 | a node that joins as a follower hears and answers its inputs as one |
| `Fsm.StartedNode` | src/fsm.rs:107-137 | a new node, whatever its environment does: missed heartbeats are the timeouts since the last replicate request, epoch equals commit index, the queue is in order |
| `Fsm.FSM.constructor` | src/fsm.rs:82-104 | a new node is NOT_JOINED at commit index and epoch 0 with an empty queue |
| `Fsm.FSM.DiscoverOnce` | src/fsm.rs:427-446 | a listing and the gets of the head it names compute `RoundRun` |
| `Fsm.FSM.DiscoverLeaderState` | src/fsm.rs:424-448 | the discovery loop computes the result, the listings and the gets of `DiscoverRun` |
| `Fsm.FSM.AttemptLeadership` | src/fsm.rs:323-365 | the claim loop computes the fields and the store of `AttemptRun` |
| `Fsm.FSM.Meet` | src/fsm.rs:282-319 | one turn of `join` goes where `TurnOf` says: follow, attempt, return, try again or panic |
| `Fsm.FSM.Join` | src/fsm.rs:279-321 | the join loop computes the fields and the store of `JoinRun` |
| `Fsm.FSM.HandleInput` | src/fsm.rs:126-166 | a timeout counts, a replicate request resets the count and is offered to the queue, other requests are refused |
| `Fsm.FSM.FollowerLoop` | src/fsm.rs:118-189 | the loop computes the node, the responses and the handled inputs of `FollowerRun` |
| `Fsm.FSM.Turn` | src/fsm.rs:108-115 | one turn of `start` runs the loop its role calls for |
| `Fsm.FSM.Start` | src/fsm.rs:107-116 | the object goes from a point of a life to a later point of one, computing `StartRun` |
| `Cluster.StepWritesOnce` | src/log.rs:42-59 | no step of anybody changes a stored entry |
| `Cluster.StepKeepsInv` | src/fsm.rs:279-365 | every step keeps: one creation per index, one awaiter per put, one election per creation, each leader under its own stored claim |
| `Cluster.ElectionSafety` | src/fsm.rs:323-365 | for any nodes, store and interleaving: no index and no epoch elects twice, epochs equal commit indices, each leader's claim is stored at its commit index |
| `Cluster.RoleChangesExactly` | src/fsm.rs:107-132 | exactly which steps make a node follow, lead, stop, or join again |
| `Cluster.ElectionsAreRecorded` | src/fsm.rs:345-349 | the elections counted are exactly those that happen, with the index and epoch the node then leads at |
| `Cluster.RefusedGoesOn` | src/fsm.rs:350-353 | a node whose claim is refused is where it was before it claimed |
| `Cluster.StoppedOnlyByFatalError` | src/fsm.rs:354-362 | over every run only a fatal error stops a node |
| `Cluster.FlushesAreRefused` | src/fsm.rs:257-265 | in every group, fresh or not: a flushed batch is never stored, and the index it is sent to is occupied |
| `Cluster.FlushIsRefused` | src/fsm.rs:257-265 | what a leader flushes is sent to its own commit index and refused there on arrival |
| `Cluster.LogIsWriteOnce` | src/log.rs:35-74 | over every run the log only grows |
| `Cluster.DiscoveryMisses` | src/fsm.rs:427-429 | in a fresh group the group's own entries always list as the mirror of index 1, and the entry fetched then is never there |
| `Cluster.SingleLeader` | src/fsm.rs:99-116 | in every reachable state of fresh nodes, restarts and any writes of others included: at most one leader, at epoch 1 under its own claim, and at most one election ever |
| `Cluster.LogHoldsOnlyTheFirstClaim` | src/fsm.rs:257-265 | such a log never holds anything but the claim at index 1; no flushed batch is ever stored |
| `Cluster.FollowerPossibleExactly` | src/fsm.rs:282-287 | some run of a fresh group has a follower if and only if others may write a key under the group's log prefix that reads as number 1 |
| `Cluster.NobodyFollows` | src/fsm.rs:424-429 | nobody ever follows while others write snapshots, first entries of any group, or entries of slash-free groups |
| `Cluster.ImpossibleForEver` | src/fsm.rs:342-364 | once the claim is taken and nobody awaits its answer or leads, it stays that way |
| `Cluster.LeaderPossibleExactly` | src/fsm.rs:279-365 | some continuation has a leader if and only if the claim is free, its answer is awaited, or there is a leader |
| `Cluster.HiddenPutLosesTheGroup` | src/log.rs:60-68 | a put stored behind a transient error leaves the group without a leader for ever |
| `Simulation.AppendIsRun` | src/log.rs:35-74 | whatever others do while each put is under way, the cluster's steps give the log and the node that `AppendRun` computes for a script of their writes |
| `Simulation.AppendAlone` | src/log.rs:35-74 | left alone, only this node moves, and the whole store is the one `AppendRun` computes |
| `Simulation.AttemptIsRun` | src/fsm.rs:342-364 | for every behaviour of the store and every interleaving, the cluster reaches the log and the fields that `AttemptRun` computes, and the node is out of its claim exactly when the source has returned |
| `Joining.JoinTurnIsRun` | src/fsm.rs:279-321 | every turn of `join` that reaches a decision is a run of the cluster, whatever is listed, served and answered and whatever all others do meanwhile: same fields, nothing of the log missing, idle exactly when the source returns or tries again |
| `Replication.HeldForGood` | src/log.rs:42-59 | what the log held at some moment of a run it holds at the end |
| `Replication.SentFromLogIsFaithful` | src/fsm.rs:136-141 | requests read from the log at any moments all agree with one log |
| `Replication.FollowersOfOneLogAgree` | src/fsm.rs:136-141 | for every run of the group, any two followers' accepted sequences are prefixes of each other |
| `Leader.NothingUnaccounted` | src/fsm.rs:215-237 | every state request sent waits in its channel, was handed off, was dropped with `acc`, or is in `acc`, exactly once |
| `Leader.NothingLostExactly` | src/fsm.rs:203-211 | no state request is lost before hand-off if and only if `acc` was empty each time the loop ended over a closed channel |
| `Leader.LeaderLoop.constructor` | src/fsm.rs:192-195 | the loop starts with empty books |
| `Leader.LeaderLoop.Receive` | src/fsm.rs:271-277 | takes the oldest message of a channel |
| `Leader.LeaderLoop.Drain` | src/fsm.rs:215-220 | empties one channel in order, taking what arrives meanwhile, and lets in nothing else |
| `Leader.LeaderLoop.Gather` | src/fsm.rs:202-220 | all that waited in either channel is due, the selected message first, then the local channel, then the remote one, which is left empty |
| `Leader.LeaderLoop.Process` | src/fsm.rs:221-237 | state requests go to `acc` in order, followers are recorded in order; panics exactly over a `Follow` without a node identity |
| `Leader.LeaderLoop.FlushIfDue` | src/fsm.rs:239-267 | hands off and clears `acc` exactly when the interval is over or it exceeds the batch size |
| `Leader.LeaderLoop.Leave` | src/fsm.rs:207-210 | what is lost when the loop ends is exactly what `acc` held |
| `Leader.LeaderLoop.Iterate` | src/fsm.rs:196-268 | one iteration: all that waited is taken in turn, joins `acc` in order, and is handed off exactly when the interval is over or the batch size exceeded; a closed channel ends the loop and drops exactly `acc`; a panic exactly over a `Follow` without a node identity |
| `Leader.LeaderLoop.Run` | src/fsm.rs:191-269 | every turn sends its messages and does one such iteration; over all turns and re-entries every state request is accounted for exactly once, and none is dropped if and only if every exit found `acc` empty |
| `Server.AtomicServerState.constructor` | src/network/server.rs:39-41 | the word starts as NotBound |
| `Server.AtomicServerState.Load` | src/network/server.rs:43-50 | decodes the word to the state it encodes |
| `Server.AtomicServerState.Store` | src/network/server.rs:52-54 | the word encodes the stored state |
| `Server.AtomicServerState.CompareAndExchange` | src/network/server.rs:56-65 | succeeds exactly on the expected state, and changes nothing otherwise |
| `Server.WordChangesExactly` | src/network/server.rs:98-217 | exactly which steps give the state word each of its values; every other step leaves it alone |
| `Server.StartServes` | src/network/server.rs:98-122 | a start on a free word with a bind that succeeds ends up accepting under `Ready` |
| `Server.ServingTaskRebinds` | src/network/server.rs:164-178 | when its accept loop ends, a serving task gives the word back and takes it again |
| `Server.RebindDecides` | src/network/server.rs:178-192 | a rebinding task serves again if the bind succeeds and closes the server if it fails |
| `Server.DroppedExactly` | src/network/server.rs:98-126 | a task is dropped exactly where it awaits, and leaves the word as it is |
| `Server.CloseCloses` | src/network/server.rs:208-217 | a close that found the server open stores `Closed`, whatever others do in between |
| `Server.StepKeepsOneOwner` | src/network/server.rs:98-217 | every step keeps at most one owner of the word, and none while it is NotBound |
| `Server.OneBinderOrAcceptor` | src/network/server.rs:152-217 | in every interleaving at most one task is binding or accepting |
| `Server.ServiceableExactly` | src/network/server.rs:98-126 | some continuation accepts if and only if the word is free, a task binds, is bound or accepts, or one is about to give Ready back |
| `Server.FailedFirstBindIsFinal` | src/network/server.rs:98-107 | after a failed first bind the server can never accept |
| `Server.ClosedIsFinalExactly` | src/network/server.rs:178-183 | `Closed` stays for ever if and only if nobody is between taking Binding and storing Ready |
| `Framing.BigEndianRoundTrip` | src/network/message_rw.rs:157-157 | the length header reads back as written |
| `Framing.ReadWritten` | src/network/message_rw.rs:75-104 | a frame of fewer than 2^32 bytes reads back as its exact bytes, or as too large with its size, and leaves exactly what followed |
| `Framing.BoundaryExactly` | src/network/message_rw.rs:153-159 | the stream is left on the next frame boundary if and only if the payload is shorter than 2^32 bytes |
| `Framing.TruncatedFrame` | src/network/message_rw.rs:79-100 | a frame that the stream cuts short, in header or payload, is an I/O error |
| `Framing.FramesRoundTrip` | src/network/message_rw.rs:75-104 | any list of such payloads reads back in order |
| `Framing.ReceivedExactly` | src/network/message_rw.rs:75-104 | of a written payload the reader says: the decoded message, its size over the limit, or invalid, each exactly when that is so |
| `Framing.MessageReader.ReadNextMessage` | src/network/message_rw.rs:75-104 | decodes exactly the bytes of the frame, whatever the reused buffer held, and consumes exactly the frame |
| `Framing.MessageReader.constructor` | src/network/message_rw.rs:25-30 | keeps its limit |
| `Framing.Survivors` | src/network/message_rw.rs:121-129 | the messages that get through are an in-order subsequence of those read |
| `Framing.EveryNthIsHit` | src/network/message_rw.rs:123-129 | with a constant answer n exactly every n-th message is hit, and none if n is 0 |
| `Framing.OneMoreRead` | src/network/message_rw.rs:123-145 | a message read is handed on exactly when it is not hit or there are no faults |
| `Framing.RotateOnce` | src/network/message_rw.rs:131-132 | the rotated queue shows the faults in cyclic order |
| `Framing.FaultInjectingReader.constructor` | src/network/message_rw.rs:57-70 | starts with nothing read and the configured faults |
| `Framing.FaultInjectingReader.Account` | src/network/message_rw.rs:119-145 | counts the message, hands it on or injects the next fault of the cycle |
| `Framing.FaultInjectingReader.ReadNextMessage` | src/network/message_rw.rs:112-147 | keeps: the counter is the number of messages read, those handed on are exactly the survivors in order, the j-th fault is the configured one in cyclic order; drops go on, an I/O fault ends the call, a call fails otherwise only with the stream's own error behind its last message, nothing of the stream is skipped |
| `Inflight.InflightRequests.constructor` | src/network/inflight.rs:13-15 | an empty table |
| `Inflight.InflightRequests.Add` | src/network/inflight.rs:17-24 | a new receiver is pending under the id; one pending before is dropped |
| `Inflight.InflightRequests.Respond` | src/network/inflight.rs:26-31 | the receiver pending under the message's id is resolved with the message and no longer pending; no other is touched |
| `Inflight.InflightRequests.Discard` | src/network/inflight.rs:33-35 | drops exactly the receiver pending under the id |
| `Inflight.InflightRequests.FailAll` | src/network/inflight.rs:37-41 | fails every pending receiver and leaves none |
| `Inflight.InflightRequests.Clear` | src/network/inflight.rs:43-45 | drops every pending receiver and leaves none |
| `Inflight.InflightRequests.Size` | src/network/inflight.rs:47-49 | the number pending: adds minus resolutions |
| `Inflight.OneIsResolved` | src/network/inflight.rs:26-35 | the receiver pending under an id is resolved as told, and nothing happens to any other |
| `Inflight.AllAreResolved` | src/network/inflight.rs:37-45 | every pending receiver is resolved as told, and none is left |
| `Inflight.AddedIsPending` | src/network/inflight.rs:17-24 | a new receiver is pending under its id, the one pending before is dropped, no other is touched |
| `Inflight.TableStep` | src/network/inflight.rs:17-45 | every operation keeps each receiver either pending or resolved and never changes a resolution |
| `Inflight.Conservation` | src/network/inflight.rs:17-49 | adds = pending + responded + failed + discarded + replaced + cleared |
| `Inflight.EveryRunBalances` | src/network/client.rs:199-226 | that balance holds over every run of calls, timeouts, responses and read failures |
| `Inflight.EveryResponseIsOwn` | src/network/client.rs:273-284 | every response a call returns carries its own correlation id and no error |
| `Inflight.ResolvedOnce` | src/network/inflight.rs:26-45 | each receiver is resolved at most once |
| `Inflight.SendDecides` | src/network/client.rs:205-211 | a new call is pending, awaits its response once sent, and fails at once if it cannot be sent |
| `Inflight.ResolutionReachesCall` | src/network/client.rs:211-225 | how its receiver is resolved is what an awaiting call gets, however much later it wakes |
| `Inflight.ResponseReachesCall` | src/network/client.rs:273-284 | an error-free response for an awaiting call is what that call returns, whatever happens in between |
| `Inflight.CallGetsItsResponse` | src/network/client.rs:199-226 | from end to end: a call begun and sent returns exactly the response that comes in for it |
| `Inflight.ReadErrorReachesCall` | src/network/client.rs:286-293 | a read error fails every pending call |
| `Inflight.ClearReachesCall` | src/network/client.rs:217-220 | clearing the table leaves every pending call with a lost connection |
| `Inflight.TimeoutReturns` | src/network/client.rs:221-224 | a call that times out returns that error and leaves nothing pending under its id |
| `Inflight.DiscardReturns` | src/network/client.rs:213-224 | a failed call returns its error after discarding, and leaves nothing pending under its id |
| `Inflight.ResponsesCameIn` | src/network/client.rs:269-284 | every response a receiver holds came in over the connection |
| `Inflight.ThrottledExactly` | src/network/client.rs:278-281 | the client is throttled exactly when it has been told to slow down |
| `Inflight.DistinctIdsIsolateCalls` | src/network/client.rs:205-225 | with distinct correlation ids no receiver is replaced, and one is discarded only by its own call |
| `Inflight.DiscardedByOwnCall` | src/network/client.rs:205-225 | with distinct correlation ids the step that discards a receiver is the discard of its own call |
| `Inflight.LeftPendingExactly` | src/network/client.rs:205-209 | with distinct ids a call that returns leaves its receiver pending exactly when its request could not be sent |
| `Routing.FilledOneMore` | src/network/group_server.rs:199-211 | what one more event adds to a client's expected messages |
| `Routing.RegisteredExactly` | src/network/group_server.rs:93-101 | a client counts as registered exactly if it ever called |
| `Routing.HistoryIsWhatHappened` | src/network/group_server.rs:189-213 | what was registered and looked up, and the message held in between, are determined by the actions alone |
| `Routing.ClientsGetExactly` | src/network/group_server.rs:189-213 | in every interleaving exactly the registered clients are known, a cached sender is the registered one, and a client is handed exactly the messages addressed to it and looked up after the one that filled its cache entry, as read off the actions |
| `Routing.OwnInboxes` | src/network/group_server.rs:93-101 | no two clients share an inbox |
| `Routing.NobodyRegistered` | src/network/server.rs:300-304 | without registrations, as the server is wired, nothing is ever cached or handed to anybody |
| `Routing.FirstMessageIsLost` | src/network/group_server.rs:203-206 | the message that fills the cache reaches nobody |
| `Routing.GroupServer.constructor` | src/network/group_server.rs:47-58 | nobody is registered, nothing is cached |
| `Routing.GroupServer.HandleClient` | src/network/group_server.rs:93-101 | registers a new client with an empty inbox and leaves a known one alone |
| `Routing.GroupServer.RouteOut` | src/network/group_server.rs:199-211 | hands the message to the cached sender, or fills the cache, or drops it |

## Left out

- Protobuf encoding and decoding: values are abstract with an injective encoding; in particular, the pre-zeroed buffers at src/fsm.rs:242-243 and src/network/group_server.rs:168-169, after which encoded bytes are appended, are not modelled.
- TCP, task scheduling, cancellation tokens and task trackers: only their visible effects appear, as actions of the environment.
- The object store itself: atomic create-only puts are assumed; lexicographic listings only where a lemma says so; path normalisation is not modelled.
- src/error.rs: which error texts are transient; a `Generic` error carries a flag instead.
- Floating-point rounding in the jitter: it is an arbitrary real in [0.1, 1.0).
- Wall-clock time: timeouts and elapsed intervals are choices of the environment.
- `connect` and `follow` of src/fsm.rs and `connect`, `handshake`, `drain_out` and `close` of src/network/client.rs: plain retry loops and connection set-up, which would only add easy members; their outcomes are parts of the script of `join` and actions of the cluster and of the client.
- `handshake`, client handlers and the group table of src/network/server.rs: message plumbing without shared invariants.
- A second life of the drain task after `close` of src/network/group_server.rs: `Routing` covers one drain task and its cache.
- Liveness of joining or reconnecting: the code does not provide it, as `Cluster.LeaderPossibleExactly` shows.
- src/replicator.rs, src/rsm.rs, src/statemachine.rs, src/context.rs, src/config.rs: commented out, stubs or plain data.
- Log.S2cLog.Append: runs for as long as answers are supplied and reports that it is still retrying otherwise, since the source can loop for ever (exactly when, says `Log.AppendRunsOnExactly`); `Log.S2cLog.GetAt` and `Fsm.FSM.DiscoverLeaderState` likewise. A listing is complete: a stream that never ends is not modelled.
- Leader.LeaderLoop.Iterate: the batch handed to `append` is recorded, not its storing; `Cluster.FlushesAreRefused` shows that it is never stored.
- Fsm.FSM.Start: a leader's turn leaves the fields and the store as they are; the loop itself is `Leader.LeaderLoop`, and its flushes are steps of the cluster.
- Joining.JoinTurnIsRun: covers turns with one lookup that ends in a decision; a lookup that fails transiently is repeated by the source and by the cluster alike, and is not spelled out.
