# A verified model of the node's stateful core

This project models, in Dafny, the parts of a Lightning node whose correctness spans many steps: which peers get a
connection slot, how a spliced channel moves in the routing graph, the index of splices kept beside the channel
database, the actor runtime, the preimage beacon, payments sent for the bridge, the balances reported while splices are
pending, and the restoring of channels from a backup. What is proved is proved of every run, every interleaving, every
crash point or every input.

`dafny verify dfyconfig.toml` checks the whole project.

| file | models | in what form |
|---|---|---|
| `AccessManager.dfy` | `accessman.go` | a specification peer by peer, runs of it, and a class with the source's fields refining it |
| `SpliceEdge.dfy` | `moveSpliceEdge` in `server_splice.go` | the writes of a run, stopped anywhere and repeated; a class that performs them |
| `SpliceIndex.dfy` | `spliceGraph` and `spliceStep` in `server_splice.go` | a class, and the system of database, index, events and restarts around it |
| `LockDepth.dfy` | `spliceLockDepth` in `server_splice.go` | a function in the source's integer widths |
| `ActorRuntime.dfy` | `actor/actor.go` | a transition system, and a class for the process loop among callers |
| `PreimageBeacon.dfy` | `witness_beacon.go` | a transition system, and a class for the beacon's methods |
| `BridgePayment.dfy` | `payBridgeInvoice`, `awaitBridgePayment` in `server_bridge.go` | a transition system with the router, and a class whose methods are played in turns with everyone else |
| `Spendable.dfy` | `spendableOutbound` and what it calls in `server_bridge.go` | loops proved against declarative sums and maxima |
| `SpliceBalances.dfy` | `rpcserver_splice.go` and the sum in `rpcserver.go` it corrects | loops proved against declarative minima, maxima and sums |
| `ChanRestore.dfy` | `chanrestore.go` | loops over the backups and over the shells, changed in place |
| `SpliceRecords.dfy`, `Options.dfy` | | the types the others share |

A transition system here is a `State`, a `Can` saying which steps are enabled, a `Do` performing one, and a `Run`
performing a list of them. Every property of a run is a lemma over all lists of steps. `Do` with a step that is not
enabled changes nothing, so no list of steps is left out.

## What is assumed

- `AccessManager`: each operation is atomic, as the source's mutex makes it. Admission, assigning a peer's access and
  then adding the peer, is one step in the main results; what separating the two costs is stated exactly.
- `SpliceEdge`: an edge's id names it, the current funding's id names the edge on it, the channel is not on an output
  it is listed to have left, and an announcement that returns no error took effect. What happens without either of the
  last two is stated exactly.
- `SpliceIndex`: the database is written before the index is told; a channel's splice machine tells of a change before
  it makes the next, or never does; a splice is signed once; and no short channel id, splice transaction or channel name
  is used twice.
- `ActorRuntime`: the mailbox is first in first out, Send fails once it is closed, Close excludes a Send in progress,
  Drain yields everything left; Send may also drop a message.
- `PreimageBeacon`: the witness cache forgets nothing.
- `BridgePayment`: the router records a payment before it sends anything, and the record stays.
- `Spendable`: for the comparison with the reported balance, every candidate commitment pays the current balance
  changed by its splice.
- `ChanRestore`: the tagged hash that derived the old chain hashes of the test networks is a parameter.

## Where the source does not do what was expected

- An entry with no channels in the counts read at the start (`channeldb/db.go:860`) makes its peer count as known, and
  the slot limit is then exceeded: `SlotBoundExact`, `EmptyEntryOverfills`.
- With assigning and adding apart, the limit and a peer's protection can be lost: `LateAddKeepsLimit`,
  `LateAddKeepsProtection` and the two runs beside them.
- `newPendingCloseChan` compares the slots taken with the limit for equality, so past the limit it refuses nobody:
  `PastLimitNothingIsRefused`; `OverfillsFurther` are runs that get as far past it as one likes. A pending count of zero
  wraps around when one more closes, `CountWrapsAround`, as on the run of `WrapsOnRun`; how long the peer then stays
  temporary is `LingersExactly`.
- An edge move deletes the channel's own edge if the channel is on an output it is listed to have left: `OwnEdgeKept`.
- The outputs a channel left are read in the order of their keys, not of the splices. If a further splice locks before
  an unfinished move has deleted its old edges, the next move may carry an older policy; exactly when it cannot is
  `LockKeepsLatestPolicy`, and `OlderPolicyComesBack` is a life in which it does.
- An update of our policy while a move is unfinished is what the move ends with only if it is made on the output that
  leads then: `LatestUpdateWins`, `LeadingAfterStop`.
- The gossiper's refusal of an announcement as outdated or ignored counts as success (`funding/manager.go:3867-3889`),
  and the old edges go; exactly when the policy goes with them is `IgnoredAnnouncement`.
- A splice recorded dead and revived by a reorganisation (`lnwallet/splice/lock.go:1084-1129`) is live, and the index,
  told that it was gone, is never told that it is back: `RevivedIsLost`, `LostUntilRestart`. What the index finds with
  this and every failing read allowed for is `FoundExactly`; all that can make it miss a splice is in
  `EveryLiveSpliceFound`.
- A lock that completes on the link while the machine stops (`lnwallet/splice/lock.go:249-263`) is never told of, and
  the ids go stale: `UntoldLockGoesStale`.
- A load counts as done even where a channel's records were not read, and no later load looks again:
  `UnreadRecordsAreLost`. When a splice locks and the earlier ids cannot be read, they go stale: `UnreadIdsGoStale`.
- A lock tells the index of the splice that locked alone: it is rid of the others exactly when it held none of them,
  `LockLeavesReplacements`; `RetiredReplacementStillFound` is a run that leaves one.
- A splice that is agreed on but not signed is found only if it was on record when the index was read: `FoundExactly`.
- A lookup that fails to read the witness cache looks like a miss; exactly when a notification follows it all the same
  is `FailedReadIsNoMiss`.
- A second call of the closure that cancels a subscription closes a closed channel, which panics:
  `Beacon.CancelSubscription`.
- An actor that is never started leaves every Ask it accepted pending: `UnstartedLeavesAsksPending`.
- A payment of which nothing was sent is reported in flight if another of its hash is on record: `InFlightForAnother`.
- The third test network is not in the table of replaced chain hashes, so a channel restored there from an old backup
  is stored under the old chain hash, `WhereTablesAgree`, and without a height is looked for from the first block,
  `ThirdTestNetworkStart`. An empty batch of backups is accepted and then panics:
  `RestoreChansFromSingles`.
- The comment on the lock depth speaks of a share for each 1/30 of a channel's worth; the code takes the proportion of
  the whole hold, which is that only where the hold is 36 confirmations. The model follows the code.

## Model

| member | source | states |
|---|---|---|
| `AccessManager.MapsAgree` | accessman.go:195-664 | on every run with admission as one step, from counts without empty entries, the two maps agree: restricted peers have no channel info, protected ones an open or closed channel, temporary ones info without one or none after a no-slot close, and an empty entry belongs to a connected peer |
| `AccessManager.StrippedExactly` | accessman.go:331-348 | a temporary peer loses its info exactly when its last pending channel closes with no slot free |
| `AccessManager.SlotBound` | accessman.go:195-664 | on every such run, from any such state within the limit, the slots taken never exceed the limit |
| `AccessManager.SlotBoundExact` | accessman.go:62-190 | the limit holds on every run exactly when it is not negative and no initial entry is empty |
| `AccessManager.EmptyEntryOverfills` | accessman.go:93-112 | for any counts with an empty entry and any limit, a run that takes one slot too many |
| `AccessManager.ProtectionIsPermanent` | accessman.go:93-112 | from any counts, a peer with an open or closed channel has one after any further steps, disconnections included, and is always assigned protected access |
| `AccessManager.FiltersAgree` | accessman.go:492-545 | the inbound filter accepts a peer exactly when assigning would admit it were it not banned, in every state |
| `AccessManager.AssignedExactly` | accessman.go:128-190 | for every row, ban answer and slot state: which access is assigned, and each error, exactly when |
| `AccessManager.BannedGetsNoSlot` | server.go:4755-4770 | in any state, an inbound peer the ban check did not clear leaves the set of restricted peers as it is |
| `AccessManager.NewcomerAdmittedExactly` | server.go:4755-4770 | in any state, an unknown inbound peer is added exactly if it is not banned and a slot is free, and takes that slot; an outbound one always, and takes none |
| `AccessManager.VerdictsExactly` | accessman.go:195-482 | each error of the three transitions, exactly when, and that only a close with no slot free changes anything with an error |
| `AccessManager.CloseUndoesOpen` | accessman.go:195-482 | a pending channel that closes with a slot free restores what was before it opened |
| `AccessManager.VisitLeavesNoTrace` | accessman.go:549-664 | a peer that connects and disconnects is as it was, with the access it was known by in between |
| `AccessManager.AwayIsUntouched` | accessman.go:195-664 | through any run in which a peer does not connect, nothing changes what is known of it |
| `AccessManager.LateAddKeepsLimit` | accessman.go:549-610 | adding with an answer got earlier keeps the limit exactly when it takes no slot or one is still free |
| `AccessManager.LateAddKeepsProtection` | accessman.go:549-610 | adding with an answer got earlier keeps a peer's channel on record exactly when it does not reset the counts of a peer that is away |
| `AccessManager.LateAddOverTheLimit` | accessman.go:128-190 | a run over the limit when assigning and adding are apart |
| `AccessManager.LateAddForgetsChannel` | accessman.go:549-610 | a run that forgets a channel when they are apart |
| `AccessManager.PastLimitNothingIsRefused` | accessman.go:333-348 | past the limit a closed pending channel still takes another slot |
| `AccessManager.OverfillsFurther` | accessman.go:286-359 | for any counts with an empty entry, any limit and any number, a run that takes that many slots too many and one more: past the limit, outbound peers open a channel and lose it again |
| `AccessManager.CountWrapsAround` | accessman.go:306-378 | the pending count goes up on a close exactly when it was zero, and the peer is then temporary, after it disconnects as well |
| `AccessManager.LingersExactly` | accessman.go:195-482 | through any run, such a peer stays temporary exactly until a step finds it connected and opens a channel, wraps its count to zero, or closes the last one counted |
| `AccessManager.LingeringIsAdmitted` | accessman.go:128-150 | meanwhile it is never refused, and takes no slot |
| `AccessManager.WrapsOnRun` | accessman.go:306-378 | a run after which a peer's count has wrapped around |
| `AccessManager.AccessMan.constructor` | accessman.go:62-82 | starts with nobody connected and the given counts |
| `AccessManager.AccessMan.HasPeer` | accessman.go:85-124 | answers the access a peer is known with, and that it is known exactly if either map has it |
| `AccessManager.AccessMan.AssignPeerPerms` | accessman.go:128-190 | decides as specified, with the counter in the place of the number of restricted peers; a peer without channels that is banned, or whose check failed, gets that error, and an unknown one is cleared exactly if a slot is free |
| `AccessManager.AccessMan.CheckAcceptIncomingConn` | accessman.go:492-545 | accepts exactly whom assigning would admit unbanned |
| `AccessManager.AccessMan.NewPendingOpenChan` | accessman.go:195-280 | changes the peer's row as specified and keeps the counter equal to the number of restricted peers |
| `AccessManager.AccessMan.NewPendingCloseChan` | accessman.go:286-396 | the same for a pending channel closed |
| `AccessManager.AccessMan.NewOpenChan` | accessman.go:401-482 | the same for a channel opened |
| `AccessManager.AccessMan.AddPeerAccess` | accessman.go:549-610 | the same for a peer added |
| `AccessManager.AccessMan.RemovePeerAccess` | accessman.go:614-664 | the same for a peer removed |
| `AccessManager.AccessMan.PeerConnected` | server.go:4755-4770 | assigns and adds; an inbound peer is admitted exactly if it has channels, or is not banned and is known or finds a slot free; an outbound one always |
| `SpliceEdge.CrashSafe` | server_splice.go:627-728 | after any number of interrupted runs, with the network updating edges in between, a run that completes leaves our policy on every edge as one uninterrupted run would: the channel's on its current output, none on those it left, all others untouched |
| `SpliceEdge.PolicyNeverLost` | server_splice.go:660-727 | if an edge of the channel holds our policy, then in every later state, whatever crashed or failed, one holds it up to the clamp |
| `SpliceEdge.PolicySurvivesLocks` | server_splice.go:633-728 | through any number of further splices locking while moves are unfinished, some edge of the channel always holds a policy of ours, and only policies held at the start, their maximum lowered at most, are ever held |
| `SpliceEdge.LockKeepsLatestPolicy` | channeldb/splice.go:378-446 | whatever order the outputs left are read in, the move after a further lock carries the policy of the output just left exactly when no edge yet to be deleted holds one that would be carried differently |
| `SpliceEdge.OlderPolicyComesBack` | server_splice.go:666-700 | a life in which an older policy's maximum comes back: a move stops before its deletions and a splice to more capacity locks |
| `SpliceEdge.LatestUpdateWins` | server_splice.go:633-728 | whatever happens before and after an update of our policy, a move that completes ends with its terms exactly if it was made on the output leading then |
| `SpliceEdge.UpdateCarried` | server_splice.go:655-700 | the policy a move ends with after an update, clamped if it has still to be carried over |
| `SpliceEdge.LeadingAfterStop` | server_splice.go:689-721 | after a stop the current output leads exactly if it had a policy or two writes were made |
| `SpliceEdge.IgnoredAnnouncement` | funding/manager.go:3867-3889 | after an announcement the graph ignored and the deletions, the channel has a policy of ours exactly if its current output's edge had one |
| `SpliceEdge.NothingLeftToDo` | server_splice.go:627-728 | a run after a completed one writes nothing, and asks for a public channel's proof exactly while it is missing |
| `SpliceEdge.AsksExactly` | server_splice.go:689-721 | a run asks for the proof once if the channel is public and its edge is announced by the run or without one, and otherwise never |
| `SpliceEdge.UnmovedIsLeftAlone` | server_splice.go:732-750 | a channel no splice moved: nothing is planned and the graph is as it was, wherever a run stops |
| `SpliceEdge.WithoutNewIdNotAnnounced` | funding/splice.go:17-24 | a moved channel still under its old id is not announced, and its old edges go only if nothing was to be announced |
| `SpliceEdge.EdgesLeft` | server_splice.go:655-727 | every edge a completed run leaves, field by field: the one it makes, the one it finds, and all the others |
| `SpliceEdge.DefaultAnnounced` | server_splice.go:702-706 | a channel none of whose edges has a policy of ours ends with the default one |
| `SpliceEdge.CompletesAtDestination` | server_splice.go:633-728 | a completed run leads where the graph it started on says, the proof of an edge that was there kept |
| `SpliceEdge.CarriedFits` | server_splice.go:690-706 | a policy carried over keeps its terms and its maximum is clamped to the capacity |
| `SpliceEdge.Progress` | server_splice.go:633-728 | every prefix of a run's writes keeps the old edges until the new one has the policy |
| `SpliceEdge.HistoryKeepsDestination` | server_splice.go:627-632 | no history of interruptions and updates changes where a move leads |
| `SpliceEdge.OwnEdgeKept` | server_splice.go:666-727 | a run keeps the current output's edge exactly when the output is not listed as left or had no edge |
| `SpliceEdge.FirstPolicyHeld` | server_splice.go:666-687 | the policy carried over is that of the first output left whose edge has one of ours |
| `SpliceEdge.EdgeGraph.LeftBehind` | server_splice.go:666-687 | the loop over the outputs left finds the first policy of ours and every edge to delete |
| `SpliceEdge.EdgeGraph.Announce` | server_splice.go:689-721 | performs the writes that announcing takes, the request for the proof of a public channel among them |
| `SpliceEdge.EdgeGraph.MoveSpliceEdge` | server_splice.go:633-728 | a run stopped after any number of writes leaves exactly that prefix of the plan done; one that is done has asked for the proof exactly if it was due, and a channel no splice moved is left alone |
| `SpliceIndex.EveryLiveSpliceFound` | server_splice.go:444-568 | in every run in which it was not revived, its signing was told or it was on record when the index was read, and its channel's records could be read, a live splice is found with the funding it spends, whenever the load happened |
| `SpliceIndex.OwnSpliceFindsEveryLiveSplice` | server_splice.go:444-499 | at any moment of any run, a query finds a live splice, with the funding it spends, exactly if it is not among those lost, unless the index is still to be told of its signing |
| `SpliceIndex.OneLookupReachesChainEnd` | server_splice.go:502-539 | at any moment of any run, one lookup from any id a channel has had gives the end of its whole chain of moves, and a second finds nothing, unless a lock was or is untold or the earlier ids could not be read |
| `SpliceIndex.FoundExactly` | server_splice.go:444-499 | at any moment of any run, whatever reads failed and whatever was not told, a query finds of the splices on record exactly those seen when the index was read and those whose signing is told, less those lost; each with the funding it spends |
| `SpliceIndex.NothingElseFound` | server_splice.go:473-499 | whatever is found is a splice of a channel that has closed or has it on record, or one whose going is still to be told or never was |
| `SpliceIndex.WholeLoadLosesNothing` | server_splice.go:444-469 | a load that reads everything leaves nothing lost and no channel adrift |
| `SpliceIndex.RestartHeals` | server_splice.go:433-469 | in any run, a whole reading right after a restart finds exactly the splices on record, with nothing lost, untold or adrift |
| `SpliceIndex.RevivedIsLost` | lnwallet/splice/lock.go:1084-1129 | a run that ends with a live splice the index does not hold |
| `SpliceIndex.LostUntilRestart` | server_splice.go:444-499 | whatever happens next, no query finds a signed splice the index does not hold until the node restarts |
| `SpliceIndex.UntoldLockGoesStale` | lnwallet/splice/lock.go:249-263 | in every run, after a lock that is never told of, the id the channel was on leads nowhere new |
| `SpliceIndex.InvOnEveryRun` | server_splice.go:543-593 | index, database and logs agree over opens, closes, agreements, signings, aborts, deaths, revivals, locks, tellings whole and failing, changes never told, queries, failed loads and restarts |
| `SpliceIndex.IndexAsTold` | server_splice.go:543-568 | every event changes the index of the system exactly as telling it, or loading it, changes the index itself |
| `SpliceIndex.LoadKeeps` | server_splice.go:444-469 | a load at any moment, whatever it fails to read, keeps that |
| `SpliceIndex.LockKeepsChan` | channeldb/splice.go:68-156 | a lock leaves no splice on record and one more id, where all others now lead |
| `SpliceIndex.AbortLeaves` | channeldb/splice_records.go:897-960 | an abort leaves every other record, and of its own a retired one exactly if it is kept |
| `SpliceIndex.AbortIsForGood` | channeldb/splice_records.go:897-960 | in every run, an aborted splice is never on record again, and one whose record went never has one |
| `SpliceIndex.UnretiredAreIn` | server_splice.go:457-467 | exactly the unretired records are added, with the current funding |
| `SpliceIndex.PointsAll` | server_splice.go:521-524 | every listed id points at the current one, the others as before |
| `SpliceIndex.UnreadRecordsAreLost` | server_splice.go:454-467 | of any channel in any reading into any unread index: all its unretired splices are found, then and by every later load, exactly when its records were read, or the index had been told of all there are |
| `SpliceIndex.TxidsLoaded` | server_splice.go:454-467 | a load, whatever it fails to read, adds exactly the unretired transactions it read, with the funding read |
| `SpliceIndex.UnreadIdsGoStale` | server_splice.go:516-524 | with the ids unreadable at a lock, every id leads to the new one exactly when the channel had not been spliced before |
| `SpliceIndex.LockLeavesReplacements` | server_splice.go:557-568 | after any lock is told of, the index holds none of the channel's remaining splices exactly when it held none of them before |
| `SpliceIndex.RetiredReplacementStillFound` | server_splice.go:557-568 | a run from the empty node after which a replacement retired by a lock is still found, with a funding the channel has left |
| `SpliceIndex.SpliceGraph.constructor` | server_splice.go:433-439 | starts empty and not loaded |
| `SpliceIndex.SpliceGraph.LoadOnce` | server_splice.go:444-469 | reads every channel once, and not at all if they cannot be read |
| `SpliceIndex.SpliceGraph.LockedLocked` | server_splice.go:511-525 | points the ids of a channel a splice moved at its current one |
| `SpliceIndex.SpliceGraph.OwnSplice` | server_splice.go:473-481 | loads if needed and looks the transaction up |
| `SpliceIndex.SpliceGraph.Pending` | server_splice.go:484-490 | loads if needed and adds the transaction |
| `SpliceIndex.SpliceGraph.Gone` | server_splice.go:493-499 | loads if needed and removes it |
| `SpliceIndex.SpliceGraph.Locked` | server_splice.go:502-508 | loads if needed and updates the ids |
| `SpliceIndex.SpliceGraph.LatestOf` | server_splice.go:529-539 | loads if needed and answers an id that is not the one asked for |
| `LockDepth.DepthWithinBounds` | server_splice.go:179-196 | between the larger of six and the channel's own depth, and the largest of those and the hold |
| `LockDepth.DepthUsesLeastExtra` | server_splice.go:187-195 | what is added to six is the least whole number covering the peer's share of the hold |
| `LockDepth.DepthIsMonotone` | server_splice.go:179-196 | monotone in all three arguments |
| `LockDepth.DepthWithoutStake` | server_splice.go:182-185 | where the peer put nothing in or the hold ends by six, the depth is the larger of six and the channel's own |
| `LockDepth.ProductFits` | server_splice.go:191-192 | the product and the rounding never overflow 64 bits |
| `LockDepth.QuotientFits` | server_splice.go:191-195 | the extra is at least one and at most the rest of the hold, so it fits 32 bits |
| `ActorRuntime.AcceptedOnceAndInOrder` | actor/actor.go:144-173 | in every run, each accepted message is once in exactly one of handled, drained and waiting, and messages are handled in the order sent |
| `ActorRuntime.EveryTellIsAccountedFor` | actor/actor.go:197-217 | once the loop is over, every Tell that returned was exactly one of handled once, dead-lettered once and dropped; dropped exactly if some step of the run drops it, which with a dead letter office is a look after a failed Send that found the context live |
| `ActorRuntime.DroppedExactly` | actor/actor.go:158-217 | in every reachable state a step drops a message exactly when it is a check after a failed Send that finds the context live or no office, a first check that finds the actor stopped and no office, or a drain with no office |
| `ActorRuntime.DroppedByAStep` | actor/actor.go:158-217 | in every run a message is dropped exactly when one of its steps drops it |
| `ActorRuntime.EveryAskIsAnsweredOnce` | actor/actor.go:224-264 | every promise is completed at most once, with a true reason or the behaviour's reply, and none that was returned is pending once the loop is over |
| `ActorRuntime.AnsweredExactly` | actor/actor.go:146-264 | in every reachable state, exactly which step gives an Ask which answer, and that the answer stays |
| `ActorRuntime.GivenUpIsNeverSent` | actor/actor.go:224-243 | in every run, an Ask whose caller has given up before it looked is never accepted or handled, whatever happens later, and is told that it gave up or that the actor stopped |
| `ActorRuntime.TooLateIsNeverSent` | actor/actor.go:197-235 | in every run, a call that has still to look at a stopped actor is never accepted: an Ask is told so, a Tell goes to the office or is lost |
| `ActorRuntime.SignalsExactly` | actor/actor.go:178-184 | in every run the actor's context is done exactly if Stop was called, and a caller's exactly if it gave up after its call began |
| `ActorRuntime.EveryCallReturns` | actor/actor.go:197-264 | whatever the loop and other callers do, a call makes at most five steps of its own, a Tell three, and has one to make until it returned |
| `ActorRuntime.UnstartedLeavesAsksPending` | actor/actor.go:134-141 | without Start, an accepted Ask stays pending on every run |
| `ActorRuntime.InvOnEveryRun` | actor/actor.go:144-264 | the invariants of phase, order, acceptance and each call hold on every run |
| `ActorRuntime.Actor.constructor` | actor/actor.go:83-130 | a new actor: not started, nothing sent |
| `ActorRuntime.Actor.Stop` | actor/actor.go:178-184 | the context is cancelled and nothing else |
| `ActorRuntime.Actor.CompletePromise` | actor/future.go:60-70 | the first completion is the promise's, and a later one leaves it as it is |
| `ActorRuntime.Actor.HandleNext` | actor/actor.go:146-155 | a turn of the loop is receiving the first message and handling it |
| `ActorRuntime.Actor.DrainNext` | actor/actor.go:158-172 | a drained message goes to the office if there is one, and an Ask's promise is completed |
| `ActorRuntime.Actor.HandleAll` | actor/actor.go:146-155 | the loop over the mailbox is a run of such turns, in the order of the mailbox |
| `ActorRuntime.Actor.DrainAll` | actor/actor.go:158-172 | draining empties the mailbox, in order |
| `ActorRuntime.Actor.ProcessAlone` | actor/actor.go:144-173 | with no caller in between, the whole loop of a stopped actor splits the mailbox, in order, into handled and drained |
| `ActorRuntime.Actor.Step` | actor/actor.go:144-173 | the loop's next step is the one the transition system has for its state |
| `ActorRuntime.Actor.Process` | actor/actor.go:144-173 | the loop, whatever callers do between its steps, is what its turns come to, and keeps the invariants |
| `ActorRuntime.PlayedIsRun` | actor/actor.go:144-173 | what turns come to is a run, so all that holds of runs holds of the loop |
| `ActorRuntime.RunIsPlayed` | actor/actor.go:144-173 | every run of a started actor is what some turns come to |
| `ActorRuntime.NeverStalls` | actor/actor.go:144-173 | in every reachable state the loop has a step to make unless it waits for a message or the end of its context |
| `ActorRuntime.DrainingEnds` | actor/actor.go:158-173 | once the mailbox is closed, one turn more than it holds messages ends the loop, whatever callers do |
| `ActorRuntime.StoppedActorEnds` | actor/actor.go:144-173 | a stopped actor's loop, whatever callers do, has closed its mailbox after three turns that look at the context first, and ends after one turn more than that then holds messages |
| `PreimageBeacon.MissedPreimageIsNotified` | witness_beacon.go:179-222 | in every interleaving, a subscriber whose lookup finds a preimage not cached, and that has not cancelled, is in the snapshot of every later call with the preimage that has notified |
| `PreimageBeacon.BatchReceivedInOrder` | witness_beacon.go:66-107 | of each batch a subscriber receives a prefix, in order, nothing twice, all of it once delivery is over unless it cancelled, and only what is cached |
| `PreimageBeacon.MissedPreimageIsReceived` | witness_beacon.go:156-222 | such a subscriber has received the preimage, once cached and nothing is on its way, and every batch it came in whole and in order |
| `PreimageBeacon.FollowedExactly` | witness_beacon.go:66-222 | at any moment of any run, every later quiet moment finds the preimage received, if cached and the subscriber has not cancelled, exactly when now it is not cached or is on its way |
| `PreimageBeacon.LeftOutToTheEnd` | witness_beacon.go:201-216 | otherwise a run leads to a quiet moment at which it has not been received |
| `PreimageBeacon.BatchesMayOvertake` | witness_beacon.go:204-216 | between batches there is no order |
| `PreimageBeacon.FailedReadIsNoMiss` | witness_beacon.go:156-175 | a lookup that finds nothing is followed by the preimage always if the read did not fail, and otherwise exactly when the preimage was not cached or was on its way |
| `PreimageBeacon.FailedReadNotFollowed` | witness_beacon.go:156-175 | a state where a failed read is not followed |
| `PreimageBeacon.CacheExactly` | witness_beacon.go:156-222 | in every run a preimage is found exactly if the cache can be read and held it at the start or some call has written a batch with it |
| `PreimageBeacon.StoppedSendsNoMore` | witness_beacon.go:204-216 | in every run, once a goroutine returned on quit the channel carries no more of its batch |
| `PreimageBeacon.FailedSendsNothing` | witness_beacon.go:195-199 | in every run, a call whose write failed stays failed, and no subscriber is ever sent any of its batch |
| `PreimageBeacon.AddedAlone` | witness_beacon.go:179-222 | a call alone caches exactly its batch and starts a delivery for each subscriber; a failed write caches and sends nothing, and an empty batch does nothing |
| `PreimageBeacon.InvOnEveryRun` | witness_beacon.go:66-222 | the invariants of clients, calls, goroutines and deliveries hold on every run |
| `PreimageBeacon.Beacon.constructor` | witness_beacon.go:52-63 | no subscriber, over the cache given |
| `PreimageBeacon.Beacon.SubscribeUpdates` | witness_beacon.go:66-152 | the subscription is there before the interceptor is asked, and cancelled if it refuses |
| `PreimageBeacon.Beacon.CancelSubscription` | witness_beacon.go:91-107 | removes the subscriber and closes its quit channel; panics exactly when it was closed already |
| `PreimageBeacon.Beacon.LookupPreimage` | witness_beacon.go:156-175 | finds exactly what is cached and read |
| `PreimageBeacon.Beacon.AddPreimages` | witness_beacon.go:179-222 | copy, write, then notify, whatever others do before the write and before the notification; nothing after a failed write; nothing at all for an empty batch |
| `PreimageBeacon.Beacon.StartDeliveries` | witness_beacon.go:201-216 | one goroutine for each subscriber, in whatever order |
| `BridgePayment.NotSentMeansNothingSent` | server_bridge.go:321-401 | in every interleaving, a payment reported not sent had no HTLC sent by this call, and none is sent afterwards |
| `BridgePayment.NotSentExactly` | server_bridge.go:365-401 | without failed lookups or another payment of the hash, exactly those payments the router never recorded are reported not sent |
| `BridgePayment.AnswerIsTheRouters` | server_bridge.go:427-461 | a payment is left to the router only after the context ended and a record was reported; otherwise the report is the send's own answer |
| `BridgePayment.AnswerInWins` | server_bridge.go:435-461 | in every run, from the moment an answer is in with a look to come, no record is asked for whatever happens later, and the report is that answer |
| `BridgePayment.FailedLookupKeepsInFlight` | server_bridge.go:365-481 | a lookup that fails counts as a record, while waiting and after the router gave up |
| `BridgePayment.InFlightForAnother` | server_bridge.go:463-481 | a run in which a payment nothing of which was sent is reported in flight, for another of its hash |
| `BridgePayment.SentAtMost` | server_bridge.go:321-401 | in every run no HTLC is counted that the router did not send |
| `BridgePayment.SentIsReported` | server_bridge.go:321-401 | the run in which a payment is sent and answered: settled with the preimage if paid, in flight if not |
| `BridgePayment.RefusedIsReported` | server_bridge.go:365-401 | the run in which a payment is refused before it is on record: not sent |
| `BridgePayment.FailedOnceExactly` | server_bridge.go:463-481 | in every run a lookup counts as failed exactly if one failed while waiting or after the router gave up |
| `BridgePayment.StopIsNotHeldUp` | server_bridge.go:427-461 | once told to stop with the payment recorded, the bridge no longer waits after three steps of its own, on every interleaving, and while it waits it always has a step to make |
| `BridgePayment.InvOnEveryRun` | server_bridge.go:321-461 | the invariants of router, bridge and verdict hold on every run |
| `BridgePayment.RunIsPlayed` | server_bridge.go:321-461 | every run of the system is what some turns of the calls below come to |
| `BridgePayment.PlayedIsRun` | server_bridge.go:321-461 | what turns come to is a run of the system |
| `BridgePayment.NeverStalls` | server_bridge.go:427-461 | the bridge waits only where it has no step to make, and each step it makes is one it can |
| `BridgePayment.Call.FirstSelect` | server_bridge.go:435-439 | an answer, or the end of the context, or either where both are there |
| `BridgePayment.Call.LookForAnswer` | server_bridge.go:445-450 | an answer already in wins over a record |
| `BridgePayment.Call.CheckRecord` | server_bridge.go:451-453 | a record, or a failed lookup, ends the wait |
| `BridgePayment.Call.AwaitTick` | server_bridge.go:455-459 | an answer or the next tick |
| `BridgePayment.Call.AwaitBridgePayment` | server_bridge.go:427-461 | the wait, whatever the router and others do between its steps, is what its turns come to, and ends with an answer, a record, or no turns left |
| `BridgePayment.Call.Report` | server_bridge.go:354-400 | what the wait came to is reported as the system concludes it |
| `BridgePayment.PayBridgeInvoice` | server_bridge.go:321-401 | reports what a run of the system ends in; so a payment it reports not sent had no HTLC sent and never will, and one it reports settled the router answered paid |
| `Spendable.LeastLocalBalance` | server_bridge.go:672-690 | the balance less the largest outflow of an unretired splice, floored at zero |
| `Spendable.LargestIsLargest` | server_bridge.go:672-690 | that outflow is the maximum, and zero if none flows out |
| `Spendable.LargestOfSameRecords` | server_bridge.go:672-690 | neither the order nor the repetition of records matters |
| `Spendable.SpliceSafeLocalBalance` | server_bridge.go:656-668 | a channel whose records cannot be read counts as empty |
| `Spendable.SpendableOutbound` | server_bridge.go:615-650 | the sum over the channels there, not pending and with a live link, of what is above the reserve |
| `Spendable.SpendableExactly` | server_bridge.go:615-650 | when a channel can send something, exactly, and how much |
| `Spendable.SpendableIsAdditive` | server_bridge.go:615-650 | the sum is of the channels one by one, however they are divided |
| `Spendable.FitsOnEveryFunding` | server_bridge.go:652-690 | whichever funding a channel ends on, what it can send is there above the reserve |
| `Spendable.SpendableIsReported` | server_bridge.go:615-690 | what the bridge counts on never exceeds the balance reported |
| `Spendable.SafeExactly` | server_bridge.go:672-690 | a channel with readable records counts for no more than its least balance exactly when no candidate's commitment lags behind the balance by more than the largest outflow |
| `Spendable.LaggingCandidateOverstates` | server_bridge.go:672-690 | a channel with one that lags by more |
| `SpliceBalances.LeastCandidateIsMinimum` | rpcserver_splice.go:777-791 | the least of the channel's balance and those on its live candidates' commitments, and one of them |
| `SpliceBalances.LeastCandidateBalance` | rpcserver_splice.go:777-791 | the loop computes that minimum |
| `SpliceBalances.PreferenceIsAnOrder` | rpcserver_splice.go:793-817 | alive, then fee rate, then position is a strict total order |
| `SpliceBalances.BestIsUnique` | rpcserver_splice.go:793-817 | at most one record is preferred to all others not retired |
| `SpliceBalances.ShownSplice` | rpcserver_splice.go:796-817 | the loop finds that record, or none exactly when all are retired |
| `SpliceBalances.BestMeans` | rpcserver_splice.go:793-817 | a record is the best exactly if it is not retired and no other passes it, spelled out on deadness, fee rate and position |
| `SpliceBalances.PendingSplice.constructor` | rpcserver_splice.go:820-854 | the state a record is shown with |
| `SpliceBalances.PendingSplice.SetDepth` | rpcserver_splice.go:766-772 | a confirmation makes a broadcast splice confirmed |
| `SpliceBalances.StateNeverMovesBack` | rpcserver_splice.go:766-854 | over any history of a record that only gains signatures, locks and confirmations, the state shown never moves back |
| `SpliceBalances.StateMeans` | rpcserver_splice.go:820-854 | each state shown, exactly when, in terms of signatures, lock and confirmations |
| `SpliceBalances.AmountsMean` | rpcserver_splice.go:737-762 | what goes in and what goes to the wallet, exactly when and how much, and never both |
| `SpliceBalances.AmountsShownMean` | rpcserver_splice.go:893-910 | a channel's amounts are the best record's, and nothing if the backend refused it or all are retired |
| `SpliceBalances.NothingPendsOnceConfirmed` | rpcserver_splice.go:742-762 | over any history of a record that only grows, nothing goes to the wallet from the first confirmation on |
| `SpliceBalances.AmountsShown` | rpcserver_splice.go:895-910 | the amounts of the one splice shown, none if the backend refused it |
| `SpliceBalances.BalanceResponse.constructor` | rpcserver.go:3984-3987 | the local balance is the sum over the open channels |
| `SpliceBalances.BalanceResponse.AddSpliceBalances` | rpcserver_splice.go:880-926 | what is subtracted is the sum of the differences, never more than the sum of the balances; the pending amounts are the channels' |
| `SpliceBalances.ChannelBalance` | rpcserver.go:4037-4068 | the balance reported is the sum over the channels of their least balance, for any records |
| `SpliceBalances.SumsAreAdditive` | rpcserver_splice.go:880-926 | each sum is of its channels one by one, however they are divided |
| `SpliceBalances.ReportedIsNeverMore` | rpcserver_splice.go:876-926 | no choice of the funding each channel ends on leaves less than the balance reported |
| `SpliceBalances.ReportedIsReached` | rpcserver_splice.go:876-926 | some choice leaves exactly that |
| `ChanRestore.CheckBackupChain` | chanrestore.go:89-122 | accepts a batch exactly when every backup names our chain or its old name, refuses without a chain, and otherwise names the first foreign one |
| `ChanRestore.TakenExactly` | chanrestore.go:100-110 | a network of the table takes exactly the backups that name it by its genesis or by what that replaced; any other its own and those under the tag's hash |
| `ChanRestore.StoredUnderOurs` | chanrestore.go:134-140 | every accepted chain hash is stored as ours exactly when the two sources of the old one agree |
| `ChanRestore.AcceptedBatchIsSound` | chanrestore.go:389-473 | every accepted batch leaves all its channels under our chain exactly then |
| `ChanRestore.WhereTablesAgree` | legacychain/legacychain.go:25-54 | they agree on the five networks of the table, and on the third test network only if the tag maps its genesis to itself |
| `ChanRestore.NoNetworkTakesAnothers` | chanrestore.go:100-110 | no network of the table takes a backup of another, under either name |
| `ChanRestore.FirstHeightIsLeast` | chanrestore.go:394-410 | the running minimum is the least nonzero height, and the sentinel exactly when there is none |
| `ChanRestore.EveryChannelIsWatchable` | chanrestore.go:442-473 | every channel restored has a nonzero height and index, or no height and a nonzero broadcast height: the least of the batch for one without a height, its own for one that encoded it |
| `ChanRestore.RestLeftAlone` | chanrestore.go:442-473 | a confirmed channel keeps its id, an unconfirmed one loses its height alone, which becomes the broadcast height |
| `ChanRestore.StartWithoutHeights` | chanrestore.go:412-440 | an accepted batch without heights is looked for from our chain's own start, under whichever name the backups give the chain |
| `ChanRestore.ThirdTestNetworkStart` | chanrestore.go:412-440 | on the third test network an accepted batch without heights is looked for from the launch block exactly if its first backup names the genesis, and otherwise from the first block |
| `ChanRestore.SetHeights` | chanrestore.go:448-473 | the second pass changes each channel in place as specified, and no other |
| `ChanRestore.RestoreChansFromSingles` | chanrestore.go:389-473 | exactly when a batch is refused, fails, panics or is stored, and every channel stored |

## Left out

- SpliceEdge.EdgeGraph.MoveSpliceEdge: deletes the stale edges one at a time where the source hands all their ids to the graph at once, so it allows for more crash points than there are.
- ActorRuntime.Actor.Process: models Tell and Ask, between its steps, as the steps of the transition system and not as methods.
- PreimageBeacon.Beacon.AddPreimages: models what others do in between as steps of the transition system.
- BridgePayment.Call.AwaitBridgePayment: models the tick of its clock as ready whenever the bridge looks.
- SpliceBalances.PendingSplice.constructor: leaves out the fee, the initiator and the amounts of the description.
- Wrap-around of int64 and uint64 sums of amounts (all are bounded by the coins there are), of the client counter and of the HTLC count.
- spliceStep's gone and locked are one step of the system.
- releaseForgottenSpliceLeases, updateForwardingPolicies, reconcileSpliceEdges and the splice-aware graph: single loops of filters and renames.
- spliceOverdue, bridgeNet, bridgeSendRequest, bridgeInvoiceAbsent: pure expressions that would add easy members.
- The mailbox's TrySend, the backpressure mailbox's choice of what to drop, futures' callbacks and the actor system around one actor.
- The interceptor's answer in SubscribeUpdates beyond refusing, and the packet it is asked about.
- Key derivation, the channel type switch and the splices restored in a shell: each is one flag, restorable or not.
- The database's insert of the shells and everything that connects to the peers afterwards.
- Logging, RPC marshalling, the wallet, the notifier and the wire protocol; wall-clock time, of which only the order of events is kept.
