# Verification of the ticket cluster

A Dafny model of the distributed help-desk system: branches (sucursales) that share engineers, tickets and
devices through a lock arbitrated by a master, majority commits, a reverse-bully election, a failure
detector and tables sharded by branch.

Each core file has a class (or methods) that changes the same fields step by step as the source does, proved
against functions on values. The cluster modules run those functions against each other: a state machine
takes one critical section, channel operation, delivery or loss at a time, with messages in a multiset
(elections: a list with deadlines), reordered and delivered at most once. Main theorems are about every
state of every behaviour.

| file | models |
|---|---|
| LockEngine.dfy, LockProtocol.dfy | the lock engine, and every interleaving of it under one fixed master |
| LockLiveness.dfy, LockRecovery.dfy, LockChannels.dfy | how the lock gets stuck, exactly when it can still be acquired, and which channels stay behind |
| TicketWorkflow.dfy, TicketPaths.dfy, TicketConditions.dfy, DoubleBooking.dfy, WorkflowRows.dfy | raising and closing tickets on top of the lock protocol, the exact conditions for a double booking or a lost engineer, and what that means for the rows of the branches |
| NodeState.dfy, ElectionEngine.dfy, Election.dfy, ElectionTermination.dfy, ElectionOutcome.dfy, ElectionFailures.dfy, ElectionCascade.dfy | who is alive, the election engine, its safety, termination and result, and what defeats it |
| ConsensusEngine.dfy, Consensus.dfy, ConsensusProgress.dfy | rounds and votes, majority commit across the cluster, and exactly which proposals can still be committed |
| Tables.dfy, Shards.dfy | the commit handler and the tables, and the cluster against one central database |
| Gather.dfy | the scatter/gather latch and the routing of answers |
| Ids.dfy, Assignment.dfy, Redistribution.dfy, Heartbeat.dfy | id generation and seeding, the choice of engineers, the tickets of a dead branch, the failure detector |
| Options.dfy, Sequences.dfy | helpers |

## Hypotheses

- Lock: one master for the whole run; request ids are never drawn twice.
- Tickets: a safe run applies each mark before its release, closes name the engineer of an open ticket, and
  no redistribution takes place. `DoubleBooking` says exactly when each of these, left out, allows a double
  booking. A ticket counts as open until its close is committed; ticket ids are new.
- Elections: crashes are final, no live node is suspected, each message to a live node is handled within
  `delay` and 2 * `delay` < `okTimeout`, the configured master has the lowest id, StartElection is one step.
  Nodes are named by the rank of their id.
- Shards: all nodes apply the commits in one order. `Tables.OrderMattersIffConflict` says which commits may be
  exchanged; the hub delivers each message in its own goroutine, so the pairs it lists are exposed.
- Devices: a fixed set of engineers, one distribution at a time, listings fully answered, new ids, no device
  inserted otherwise. A new engineer starts with no device, so the spread is not bounded across hires.

Where the code does less than its comments say, the model follows the code: a grant to a caller that has given
up is never released, a GRANT to the own node may come before its channel is stored, the failure to mark an
engineer is only a warning, a redistributed ticket has no folio, the master redistributes none of the tickets of
a peer it has declared dead because it no longer lists them (`Redistribution.MovesIffDeadAnswers`), the channel of
a successful remote acquisition is never deleted, and the quorum is counted over all configured nodes although
AlivePeers is said to serve for it.

## Model

| member | source | states |
|---|---|---|
| LockEngine.MutexEngine.TakeOrQueue | internal/mutex/mutex.go:98-109 | a local caller takes a free lock and otherwise joins the queue at its end; nothing else of the engine changes |
| LockEngine.MutexEngine.Register | internal/mutex/mutex.go:111-114 | the waiter's own channel is stored under its request, in a step of its own |
| LockEngine.MutexEngine.Unregister | internal/mutex/mutex.go:190-195 | a remote caller that fails or times out removes its channel and only that |
| LockEngine.MutexEngine.ReleaseLocal | internal/mutex/mutex.go:126-150 | a stale release changes nothing; the holder's release passes the lock to the head of the queue, by one token into its channel if that is registered and by a GRANT otherwise |
| LockEngine.MutexEngine.HandleLockRequest | internal/mutex/mutex.go:203-228 | a request is granted if the lock is free and otherwise queued behind all others and answered with DENY |
| LockEngine.MutexEngine.HandleLockGrant | internal/mutex/mutex.go:230-243 | a GRANT puts one token into the channel of its own request and touches no other; without such a channel it is dropped and nothing changes |
| LockEngine.StaleReleasesAreInert | internal/mutex/mutex.go:126-131 | a release leaves the arbiter and its callers as they are exactly if it does not name the holder |
| LockEngine.FreeLockHasEmptyQueue | internal/mutex/mutex.go:98-150 | whatever arrives and is released, a free lock has nobody waiting |
| LockEngine.OneEventKeepsOrder | internal/mutex/mutex.go:98-150 | one arrival or release moves requests between the queue and the turns taken without reordering them |
| LockEngine.FirstComeFirstServed | internal/mutex/mutex.go:98-150 | over every history the turns taken followed by the requests still queued are the arrivals in their order |
| LockEngine.MovesUpOnePerRelease | internal/mutex/mutex.go:126-136 | after k effective releases the request at queue index i stands at index i - k |
| LockEngine.HolderAfterOneMoreRelease | internal/mutex/mutex.go:126-136 | the request at queue index i becomes holder at the (i+1)-st effective release and not before |
| LockProtocol.StepInv | internal/mutex/mutex.go:98-259 | every step of the protocol (critical sections, channel operations, deliveries, losses, timeouts, cancellations) keeps the invariant: one piece of evidence for the holder, none for anybody else |
| LockProtocol.MutualExclusion | internal/mutex/mutex.go:98-259 | in every reachable state at most one caller is between Acquire and release, and it is the arbiter's holder |
| LockProtocol.SendsNeverBlock | internal/mutex/mutex.go:237-242 | at most one token ever enters a grant channel, so the send of HandleLockGrant finds it empty, also when a local waiter is granted before it registers its channel |
| LockProtocol.HandOverNeverBlocks | internal/mutex/mutex.go:133-141 | the channel that releaseLocal sends on while it holds the mutex is empty in every reachable state |
| LockProtocol.HoldsUntilRelease | internal/mutex/mutex.go:182-189 | nothing but its own release takes a caller out of the critical section |
| LockLiveness.StuckExactlyByFatalSteps | internal/mutex/mutex.go:98-259 | a step takes the lock from a turn that can end to one that cannot exactly if it loses a GRANT or RELEASE, looks a GRANT up before its channel is stored, or leaves the lock with a caller that gives up or has given up |
| LockLiveness.StuckStep | internal/mutex/mutex.go:116-121 | no step takes the lock from a holder that has given up or from which no evidence is left |
| LockLiveness.StuckForever | internal/mutex/mutex.go:116-149 | from then on nobody is inside the critical section in any continuation |
| LockRecovery.StepTracked | internal/mutex/mutex.go:111-189 | every step keeps: a waiting caller's channel is registered or holds its token, and no grant is left for a caller that is done |
| LockRecovery.AcquirableIffNotDoomed | internal/mutex/mutex.go:98-259 | in every reachable state: in some continuation somebody new acquires the lock, if and only if the lock is not stuck and the end of the current turn will not hand it to a caller that has given up |
| LockRecovery.TimeoutLosesTheLock | internal/mutex/mutex.go:116-121 | stuck states are reachable: a queued local caller times out and the holder then releases |
| LockRecovery.EarlyGrantLosesTheLock | internal/mutex/mutex.go:108-114 | ... also without a timeout or a loss: the holder releases before the queued local caller has stored its channel, and the GRANT to the own node is looked up first |
| LockRecovery.FailedReleaseLosesTheLock | internal/mutex/mutex.go:182-189 | ... and in every turn of a remote caller, by a LOCK_RELEASE whose send error is ignored |
| LockRecovery.RemoteTurn | internal/mutex/mutex.go:155-190 | a caller at any node but the master can have such a turn |
| LockChannels.ChannelStep | internal/mutex/mutex.go:111-195 | exactly which steps store or delete a channel: a remote caller deletes its own on a send error or a timeout, not when cancelled, and the arbiter that of the local caller it hands the lock to |
| LockChannels.ChannelsPileUp | internal/mutex/mutex.go:155-196 | in every reachable state the channel of every remote acquisition that succeeded is still in the map of its node, so the map grows with each of them |
| TicketWorkflow.StepCore | internal/service/ticket_service.go:217-299 | from whatever state, every safe step keeps: one busy ticket per engineer, and none of a busy engineer who may be chosen |
| TicketWorkflow.StepInv | internal/service/ticket_service.go:223-299 | every safe step of lock, raise and close keeps: one busy ticket per engineer, and a busy engineer's row says available only until the current caller's mark is applied |
| TicketWorkflow.NeverDoubleBooked | internal/service/ticket_service.go:217-299 | in every reachable state of safe runs each engineer has at most one open ticket, although rows are read one at a time and closes take no lock |
| TicketWorkflow.AtMostOneOpenRow | internal/db/db.go:300-307 | of tickets with no close on its way, at most one row per engineer says ABIERTO |
| TicketWorkflow.ReadsStayTrue | internal/service/ticket_service.go:230-243 | an engineer that the caller holding the lock has seen available is still available and without a ticket when it chooses |
| TicketConditions.StepLosesExactly | internal/service/ticket_service.go:260-299 | a safe step loses an engineer (no ticket, and unavailable now or after the pending mark) exactly if it is a close that reaches the engineer's row while that still says available, and no safe step brings a lost one back |
| TicketConditions.EarlyMeansBeforeMark | internal/service/ticket_service.go:277-299 | that is, exactly while the mark of the same ticket is still to be applied |
| TicketConditions.StrandedExactlyByEarlyCloses | internal/service/ticket_service.go:260-299 | in every safe run, with nobody in the critical section: an engineer is unavailable without a ticket exactly if such a close happened before |
| TicketConditions.AvailabilityIsExact | internal/service/ticket_service.go:277-299 | a row that says available exactly if its engineer has no ticket to work on is thus equivalent to there having been no such close |
| TicketPaths.Drain | internal/service/ticket_service.go:217-289 | if the current turn can end and nobody in the queue has given up, all callers can come to their end and leave the lock free, with the tickets as they were |
| DoubleBooking.BookableIffCoreIsBroken | internal/service/ticket_service.go:217-299 | from any state, whatever led there, in which that is so: safe steps can book some engineer twice exactly if two busy tickets share one, or a busy engineer is available (but for a pending mark) or relied on by the current caller |
| DoubleBooking.BookableIffExposed | internal/service/ticket_service.go:217-299 | with the lock free that means: a busy engineer's row says available or two busy tickets share one |
| DoubleBooking.BookableWhenStuck | internal/service/ticket_service.go:217-299 | with the lock stuck nobody is booked twice any more who is not already |
| DoubleBooking.ReachableBase | internal/service/ticket_service.go:217-352 | what these need holds in every reachable state of every run, safe or not |
| DoubleBooking.UnsafeStepsExactly | internal/service/ticket_service.go:260-352 | exactly when a missed mark, a stray close or a redistribution does no harm, in any state of the lock |
| DoubleBooking.UnsafeStepBooksExactly | internal/service/ticket_service.go:217-352 | if the current turn can end and nobody in the queue has given up, each of them lets safe steps book somebody twice exactly if it does harm |
| DoubleBooking.MissedMarkDoubleBooks | internal/service/ticket_service.go:277-282 | so a mark that is missed, at whatever node, does exactly if the row says available and the ticket still keeps the engineer busy |
| DoubleBooking.StrayCloseDoubleBooks | internal/service/ticket_service.go:291-299 | a close that names an engineer without closing that engineer's ticket does exactly if there is one and its mark is not just pending |
| DoubleBooking.ReassignDoubleBooks | internal/service/ticket_service.go:337-352 | a redistribution, which never marks its engineer, does unless that engineer is just being marked for a ticket that was freed meanwhile |
| DoubleBooking.HarmIsReached | internal/service/ticket_service.go:291-352 | safe behaviours reach states in which a stray close and a redistribution do harm |
| DoubleBooking.HarmfulMissIsReached | internal/service/ticket_service.go:277-282 | and so they do for a missed mark, from every safe state with the lock free and an engineer available |
| TicketConditions.EarlyCloseStrands | internal/service/ticket_service.go:260-299 | every engineer that is available while the lock is free can be stranded, by a close that overtakes the mark of its ticket |
| TicketConditions.StrandedForever | internal/service/ticket_service.go:236-246 | no safe continuation gives a stranded engineer work again |
| TicketConditions.MissedThenMarked | internal/service/ticket_service.go:277-282 | a missed mark that is applied next does what one in time does |
| TicketConditions.LateMarkStrandsExactly | internal/service/ticket_service.go:277-282 | a mark that comes late strands its engineer exactly if the ticket was freed meanwhile, and nobody else |
| WorkflowRows.HireByRows | cmd/main.go:190-198 | the commit that inserts an engineer is the hiring step on the engineer's branch and nothing elsewhere |
| WorkflowRows.InsertByRows | cmd/main.go:210-223 | the commit that inserts a ticket is the insert step on the ticket's branch and nothing elsewhere |
| WorkflowRows.MarkByRows | cmd/main.go:248-253 | the mark is applied when its commit reaches the engineer's branch and by no other delivery |
| WorkflowRows.FolioByRows | cmd/main.go:225-233 | the folio update changes nothing the workflow looks at, wherever it arrives |
| WorkflowRows.ElsewhereByRows | cmd/main.go:178-253 | nor does any commit that is for the rows of other branches, or for users or devices |
| WorkflowRows.CloseByRows | cmd/main.go:235-246 | a close that reaches a branch closes the ticket's row if that is there and frees the engineer's row if that is there |
| WorkflowRows.ReadByRows | internal/service/ticket_service.go:514-525 | an engineer's row says available exactly if the workflow does |
| WorkflowRows.JointStepInv | cmd/main.go:178-253 | callers, lock and commits delivered branch by branch: every step keeps the invariant of the workflow and the match of all rows with it |
| WorkflowRows.ReachableMatch | cmd/main.go:178-253 | in every reachable state of such a run from empty tables the rows are those the workflow says |
| WorkflowRows.OneOpenRowPerEngineer | internal/service/ticket_service.go:217-299 | no double booking row by row over all branches, in every reachable state: two ABIERTO rows of one engineer with no close on its way are the same row |
| NodeState.Membership.constructor | internal/nodestate/state.go:22-28 | at the start exactly the configured nodes count as alive |
| NodeState.Membership.Peers | internal/nodestate/state.go:43-53 | the configured nodes but this one, in their order |
| NodeState.PeersExact | internal/nodestate/state.go:43-53 | that list holds every other configured node and nobody else |
| NodeState.PeersSelected | internal/nodestate/state.go:43-54 | ... in the configured order and as often as configured |
| NodeState.Membership.AlivePeers | internal/nodestate/state.go:57-67 | the peers believed alive, in their order |
| NodeState.AliveExact | internal/nodestate/state.go:57-67 | that list holds exactly the listed nodes that are believed alive |
| NodeState.AliveSelected | internal/nodestate/state.go:57-67 | ... in the order of the list |
| NodeState.Membership.MarkAlive | internal/nodestate/state.go:83-87 | adds one node to those believed alive |
| NodeState.Membership.MarkDead | internal/nodestate/state.go:90-94 | takes one node from those believed alive |
| NodeState.Membership.MasterIsKnown | internal/nodestate/state.go:124-135 | a master node is found exactly if the believed master is a configured node |
| ElectionEngine.Engine.LowerNodes | internal/election/election.go:168-176 | the alive peers with a smaller id |
| NodeState.LowerExact | internal/election/election.go:168-176 | that list holds exactly those nodes |
| NodeState.LowerSelected | internal/election/election.go:168-176 | ... in the order of the list |
| ElectionEngine.Engine.StartElection | internal/election/election.go:43-80 | does nothing while an election runs, claims victory if no lower node is believed alive, and otherwise asks each of them and arms the timer |
| ElectionEngine.Engine.DeclareVictory | internal/election/election.go:93-107 | stops the election, becomes master and tells every configured peer |
| ElectionEngine.Engine.TimerFires | internal/election/election.go:70-78 | an expired timer leads to victory only if the election still runs |
| ElectionEngine.Engine.ClaimMastership | internal/election/election.go:84-89 | the configured master announces itself without an election |
| ElectionEngine.Engine.HandleElection | internal/election/election.go:112-134 | only a node of higher priority answers OK, and it then starts an election of its own |
| ElectionEngine.Engine.HandleElectionOK | internal/election/election.go:138-148 | an OK ends the election and stops its timer |
| ElectionEngine.Engine.HandleCoordinator | internal/election/election.go:152-164 | an announcement is believed as it comes |
| Election.NobodyLowerIsAlive | internal/election/election.go:70-78 | derived from the round-trip bound: a timer that fires while its election runs fires at a node below which nobody lives |
| Election.StepInv | internal/election/election.go:43-164 | every step keeps: no id above the lowest live one is believed or announced, and a running election awaits an answer, in time, of every live lower node |
| Election.MasterNeverAboveLowestLive | internal/election/election.go:93-107 | every live node's master and every COORDINATOR in flight is at most the lowest live id, in every reachable state, over crashes and stale announcements |
| Election.NoSplitBrain | internal/nodestate/state.go:118-122 | at most one live node takes itself for master, and live nodes that believe in a live master agree |
| Election.TimerFiresAtLowestLive | internal/election/election.go:70-78 | the same for reachable states: only the live node of highest priority wins by timeout |
| ElectionTermination.StepMeasure | internal/election/election.go:43-176 | each delivery, drop, spawned start and expiry lowers a measure in which an ELECTION to rank j weighs (n+3)*2^j; crashes and time do not raise it |
| ElectionTermination.WorkIsPaidFor | internal/election/election.go:43-176 | in every run the steps done plus the measure left are at most the measure at the start plus what spontaneous starts added |
| ElectionTermination.OneElectionTerminates | internal/election/election.go:43-176 | one suspicion at rank j in a quiet cluster of n nodes causes at most (n+3)*2^j - 3 further steps |
| ElectionTermination.NeverStuck | internal/election/election.go:66-80 | a cluster that is not quiet can go on, at once or when the next timer expires |
| ElectionOutcome.StepDecides | internal/election/election.go:43-164 | every step but a crash of the lowest live node, suspicions and claims included, keeps: that node competes or has won, and nobody else announces himself |
| ElectionOutcome.QuietAgainMeansAgreement | internal/election/election.go:93-107 | from then on, in every run in which it stays alive (any suspicions, claims and other crashes), every live node believes in it whenever the cluster is quiet |
| ElectionOutcome.QuietClusterAgreesExactly | internal/election/election.go:43-107 | from a quiet cluster, in such a run, a quiet end is agreement on the lowest live node exactly if anybody suspected or claimed something, or all who are left agreed already |
| ElectionFailures.CrashDefeatsElection | internal/election/election.go:112-148 | that it stays alive is needed, in every quiet cluster of two or more live nodes: it answers the next one and crashes, the next one stands down, and nobody who is left believes in a live master |
| ElectionFailures.AgreementHangsOnAnnouncements | internal/election/election.go:152-164 | once only answers and announcements are in flight, every order of arrival ends in agreement on a node exactly if all live nodes know it or will be told, and are told of nobody else |
| ElectionFailures.LateAnnouncementIsBelieved | internal/election/election.go:84-107 | in clusters of every size a claim can outlive its claimant: the successor is elected, the old COORDINATOR arrives last, and the quiet cluster's lowest live node believes in the crashed master |
| ElectionCascade.StepProper | internal/election/election.go:43-164 | every step keeps: candidates sign with their own rank, answers come from a higher priority, and a timer is armed only while an election runs |
| ElectionCascade.CascadeAgreesExactly | internal/election/election.go:43-164 | in any state in which nobody else is on his way to being announced: without further suspicions, claims and crashes every quiet end is agreement on the lowest live node exactly if it has won, or if no answer on its way stops it and it competes or some live node is sure to ask it |
| ConsensusEngine.Quorum | internal/consensus/consensus.go:89-94 | the threshold is the least number that is more than half of all configured nodes |
| ConsensusEngine.Engine.Begin | internal/consensus/consensus.go:96-107 | a round starts with no votes and a threshold over all configured nodes |
| ConsensusEngine.Engine.VoteForSelf | internal/consensus/consensus.go:118-126 | the proposer's vote counts once and commits at once if it completes the majority |
| ConsensusEngine.Engine.HandleVote | internal/consensus/consensus.go:152-177 | a vote changes its own round only, and signals at most once without blocking when the threshold is met |
| ConsensusEngine.Engine.Forget | internal/consensus/consensus.go:109-113 | a round leaves the map when propose returns |
| Consensus.NextInv | internal/consensus/consensus.go:88-198 | every step keeps: votes counted equal distinct voters, each peer is asked, answers and is counted at most once per round |
| Consensus.CommitHasMajority | internal/consensus/consensus.go:141-149 | a COMMIT in the network means that strictly more than half of all configured nodes voted yes for that very round |
| Consensus.YesCountsDistinctVoters | internal/consensus/consensus.go:152-177 | yes is the self-vote plus the distinct peers whose vote for this round was consumed |
| Consensus.NoLostWakeup | internal/consensus/consensus.go:118-138 | a waiting proposer has exactly one result to take if the threshold is met, and none before |
| Consensus.CommitsOnce | internal/consensus/consensus.go:123-134 | doCommit is entered exactly once in a round that decides and never in another |
| Consensus.EveryPeerIsTold | internal/consensus/consensus.go:141-149 | every peer of a committed round was sent COMMIT exactly once; while it commits, each peer was sent it once or is still to be sent it; nobody else ever is |
| Consensus.EveryPeerIsAsked | internal/consensus/consensus.go:115-116 | every peer of a round is sent PROPOSE exactly once before the self-vote and sends one vote at most, which is the one that is counted |
| Consensus.VoteIsCounted | internal/consensus/consensus.go:152-177 | a vote that arrives is counted exactly while its round is in the map, also before the self-vote and during the COMMIT broadcast |
| ConsensusProgress.CommittableIffOpen | internal/consensus/consensus.go:88-198 | in every reachable state, for every round: some continuation commits it if and only if it has decided, or has not failed and a majority has voted, is asked or is still to be asked |
| Consensus.QuorumsIntersect | internal/consensus/consensus.go:89-94 | any two decided rounds, of any proposers with any views of who is alive, share a voter |
| Consensus.PartitionsExclude | internal/consensus/consensus.go:89-94 | two groups without a common node never both commit |
| Consensus.MinorityViewNeverCommits | internal/consensus/consensus.go:89-94 | a proposer that believes at most half of the nodes alive, itself included, never commits |
| Consensus.FailedForGood | internal/consensus/consensus.go:135-139 | a timed-out or cancelled attempt never changes again: votes for it are not counted for a later one and it never commits |
| Consensus.GivenUpNeverCommits | internal/consensus/consensus.go:135-139 | after a timeout or cancellation the round is never committed and nobody is ever sent COMMIT for it |
| Tables.Store.PutIngeniero | internal/db/db.go:140-146 | an existing row is kept as it is; a new engineer starts available, whatever the data says |
| Tables.Store.PutTicket | internal/db/db.go:284-292 | an existing ticket is kept as it is, whatever is inserted under its id; otherwise the row is added |
| Tables.Store.MarkFolio | internal/db/db.go:295-298 | changes the folio of one ticket if it is here |
| Tables.Store.MarkClosed | internal/db/db.go:301-307 | changes the state of one ticket if it is here |
| Tables.Store.MarkDisponible | internal/db/db.go:180-183 | changes the availability of one engineer if it is here |
| Tables.Store.Commit | cmd/main.go:177-259 | the handler applies an operation to this node's tables row by row: inserts add at most the row of its own branch and keep every row that is there, updates change one column of one row; data that does not decode is an error that changes nothing |
| Tables.RowByRow | cmd/main.go:177-253 | the same of the function that the other theorems use |
| Tables.NoRowIsReplaced | internal/db/db.go:140-307 | no sequence of commits removes or replaces a row, or opens a closed ticket again, whatever is inserted again under its id |
| Tables.NoConflictCommutes | cmd/main.go:178-253 | commits that do not conflict leave any node with the same tables in either order |
| Tables.OrderMattersIffConflict | cmd/main.go:178-253 | exactly the conflicting pairs of commits (listed case by case) are sensitive to the order of delivery at some node |
| Tables.Converges | cmd/main.go:178-253 | any permutation of commits without conflicts leaves every node with the same tables |
| Tables.InsertsConverge | cmd/main.go:180-223 | any permutation of inserts with pairwise distinct ids per table leaves every node with the same tables |
| Tables.DeliveredTwiceIsOnce | cmd/main.go:178-253 | an operation delivered twice in a row does what one delivery does |
| Shards.CommitRefines | cmd/main.go:177-259 | a commit at a node does to its shard what one central database does to its tables |
| Shards.ClusterRefinesCentral | cmd/main.go:177-259 | for every sequence of operations in one order, each node holds the central tables restricted to its branch |
| Shards.CentralRowByRow | internal/db/db.go:140-307 | what one operation does to the central tables, row by row: inserts keep every row that is there |
| Shards.CentralIsKeyed | internal/db/db.go:61-92 | rows never change branch or id, so no two central rows are the same |
| Shards.Merge | internal/service/ticket_service.go:424-435 | the merged result is the local rows followed by the answers in the order of arrival |
| Shards.ConcatInOrder | internal/service/ticket_service.go:424-435 | each answer stands after those before it and before those after it |
| Shards.GatherIsCentral | internal/service/ticket_service.go:360-435 | answers of distinct nodes, in any order and each listing its rows in any order, add up to the central rows of their branches, each once |
| Shards.ListAllIsCentral | internal/service/ticket_service.go:360-435 | the same for all four tables after any sequence of operations from empty tables |
| Gather.SplitQueryID | internal/service/ticket_service.go:613-620 | without a bar no id and the whole text as table; otherwise the id has no bar and id, bar and table are the text |
| Gather.SplitUndoesJoin | internal/service/ticket_service.go:613-620 | splitting recovers id and table from their join exactly if the id has no bar |
| Gather.AnswersComeBack | internal/service/ticket_service.go:361-386 | with the ids ListAll makes, that is exactly if the table name has no bar |
| Gather.QueryIDsDiffer | internal/service/ticket_service.go:361 | ids of queries that differ in table, node or time differ, so an answer finds the collector of its own query only |
| Gather.Collector.CheckDone | internal/service/ticket_service.go:392-398 | the latch is open afterwards exactly if it was or if enough answers are in; closing an open one again, which panics, is excluded by the precondition of Close |
| Gather.Service.Register | internal/service/ticket_service.go:364-371 | a query waits for as many answers as there are peers believed alive |
| Gather.Service.Adjust | internal/service/ticket_service.go:387-399 | peers that could not be reached are no longer expected |
| Gather.Service.HandleQueryResponse | internal/service/ticket_service.go:471-494 | an answer reaches the collector whose id it carries and no other |
| Gather.ClosedWhenCountWasReached | internal/service/ticket_service.go:387-399 | it is closed exactly if at some event the answers had reached the count expected then |
| Gather.OpensExactlyWhenAllReachableAnswered | internal/service/ticket_service.go:387-403 | it is open exactly when all reachable peers have answered and the correction, if one is due, is made |
| Ids.NodeAndCounterRecoverable | internal/service/ticket_service.go:25-36 | node and counter can be read off an id while the counter stays below 10^10 |
| Ids.CollideExactly | internal/service/ticket_service.go:25-36 | two ids below that bound, of one process or two, are equal exactly if node and counter are |
| Ids.StepInv | internal/service/ticket_service.go:33-50 | no interleaving of newID, load and compare-and-swap lowers the counter or draws a number twice |
| Ids.IdsAreUnique | internal/service/ticket_service.go:33-36 | all ids a process draws, for whatever nodes, are distinct while its counter stays below 10^10 |
| Ids.SwapReachesMinimum | internal/service/ticket_service.go:40-50 | a SetMinIDCounter call returns only when the counter has reached its minimum |
| Ids.Counter.NewID | internal/service/ticket_service.go:33-36 | one number per id |
| Ids.Counter.SetMin | internal/service/ticket_service.go:40-50 | the compare-and-swap loop against any interference by other goroutines |
| Ids.SetMinRaises | internal/service/ticket_service.go:40-50 | it ends at the minimum or above, keeps the ids drawn meanwhile and overshoots by no more than those |
| Ids.SeedIngenieros | internal/db/seed.go:56-66 | inserts the engineers of this branch and raises the running maximum to the largest counter their ids use |
| Ids.Seed | internal/db/seed.go:49-90 | a node with engineers is left alone; otherwise its tables are those after committing the seed rows: every row that is there is kept, every id of the data's rows of this branch has a row, a new one that of its first row (engineers available), and the result is the largest counter a seeded id of this node uses |
| Ids.SeedStocks | internal/db/seed.go:56-88 | the same of the sequence of commits that seeding amounts to |
| Ids.StockedIDs | internal/db/seed.go:56-88 | so each of the three tables has exactly the ids it had and those of the data's rows of this branch |
| Ids.NewIDsExceedCounter | internal/service/ticket_service.go:33-50 | in no interleaving does a process draw an id up to the one its counter stands for |
| Ids.Boot | cmd/main.go:102-114 | opening a database, seeding and raising the counter against any interference: after a first boot the tables have the rows that Seed promises and no id drawn for the node equals a seeded one; a later boot changes nothing |
| Assignment.ChooseAvailable | internal/service/ticket_service.go:236-246 | the first engineer of the list whose row says available, or none if there is none |
| Assignment.CountDevices | internal/service/ticket_service.go:147-152 | the number of devices of every engineer |
| Assignment.LoadCountsPositions | internal/service/ticket_service.go:147-152 | that is the number of listed devices with the engineer's id, and none for id 0 |
| Assignment.LeastLoaded | internal/service/ticket_service.go:154-166 | the first engineer with the fewest devices |
| Assignment.DistributeDevice | internal/service/ticket_service.go:132-184 | the proposal puts the device, with its name and type, on that engineer and on the engineer's branch, with the next id of that branch |
| Assignment.StoredOnEngineersBranch | cmd/main.go:200-208 | a device with a new id is stored, field by field as proposed, on its engineer's branch and nowhere else |
| Assignment.CommittedProposalDistributes | internal/service/ticket_service.go:132-184 | between the listing that is counted and the next one, the commit of the proposal among any others that insert no device gives one device more to a least loaded engineer, over the tables of all nodes |
| Assignment.DistributionKeepsSpread | internal/service/ticket_service.go:132-184 | a distribution never widens a spread of at least one |
| Assignment.SpreadStaysBounded | internal/service/ticket_service.go:130-184 | from any start the spread never exceeds the larger of one and what it was |
| Assignment.DevicesAreBalanced | internal/service/ticket_service.go:130-184 | from none, m devices over k engineers leave each with floor(m/k) or ceil(m/k) |
| Assignment.CommittedSpreadStaysBounded | internal/service/ticket_service.go:130-184 | the bound on the spread over commits and listings at the nodes: engineers and devices listed in any order, rows of engineers changing, other commits in between |
| Assignment.CommittedDevicesAreBalanced | internal/service/ticket_service.go:130-184 | the balance over the same histories, from the choice of the engineer to the rows listed next |
| Redistribution.Redistribute | internal/service/ticket_service.go:303-354 | the open tickets of the dead branch, in the order listed, are proposed to the available engineers elsewhere, in the order listed, one each until one of the two lists ends |
| Redistribution.RedistributionMatches | internal/service/ticket_service.go:325-348 | as many tickets move as the lists have open tickets of the dead branch or available engineers elsewhere, whichever are fewer; no engineer takes two and no ticket goes to two; each row is that of such a ticket but for engineer, branch and an empty folio |
| Redistribution.OwnTicketsOnly | cmd/main.go:210-245 | whatever is committed to a node, its table of tickets has rows of its own branch only |
| Redistribution.MovesIffDeadAnswers | internal/service/ticket_service.go:303-354 | whatever was committed where: a redistribution moves a ticket if and only if the dead node is itself among the nodes listed and has an open ticket, and an engineer elsewhere is available |
| Redistribution.NothingIsRedistributed | internal/heartbeat/heartbeat.go:157-165 | so the master that has just declared a peer dead, and lists its own rows and those of the peers it believes alive, moves none of its tickets |
| Heartbeat.LongRunAppears | internal/heartbeat/heartbeat.go:26-28 | a run of three or more misses shows with its third miss and with no other outcome |
| Heartbeat.DetectorEqualsHistory | internal/heartbeat/heartbeat.go:112-147 | the counter is the number of trailing misses, alive means fewer than three, and there is one death per maximal run of three or more misses |
| Heartbeat.Monitor.BeginPing | internal/heartbeat/heartbeat.go:91-98 | at most one ping of a peer is in flight |
| Heartbeat.Monitor.EndPing | internal/heartbeat/heartbeat.go:112-138 | an outcome changes this peer only; the third miss in a row or a later one of a peer still counted alive leads to what DeclareDead does, and nothing else leads to anything |
| Heartbeat.Monitor.DeclareDead | internal/heartbeat/heartbeat.go:144-175 | a peer already dead is left alone; otherwise it is marked dead, and the master's death starts an election, the master redistributes, another node tells the master, or does nothing if the master is not a configured node |

## Left out

- TCP, connection pools, JSON, logging, configuration, command line, message history: plumbing; messages are typed values.
- SQL: a table is a map from id to row; closing times, schema migration and simple getters are left out.
- Retry loops around Acquire, Propose and RaiseTicket: each attempt is a fresh request or round of its machine.
- Change of master while the lock is in use: the code keeps no lock state across masters, so exclusion is not claimed.
- Liveness of the lock: it can be lost by timeouts, losses and an early GRANT; `LockRecovery.AcquirableIffNotDoomed` says exactly when it is. That a lock which can be acquired will be is not claimed: it needs fair scheduling.
- Restart of a node, false suspicion, and ELECTION_OK between the sends of StartElection and the arming of its timer: excluded by the hypotheses.
- Agreement after a crash of the lowest live node during an election, or with older announcements in flight: it does not hold in general, see `ElectionFailures`; safety is claimed there. `ElectionCascade` gives the exact condition when nothing of the kind is left.
- LockEngine.MutexEngine.ReleaseLocal: requires room in the waiter's channel, where the source would block while holding its mutex; `LockProtocol.HandOverNeverBlocks` shows that there always is.
- LockEngine.MutexEngine.HandleLockGrant: requires room in the channel, where the source would block; `LockProtocol.SendsNeverBlock` shows that there always is. Its look-up and its send are one step here and two in LockProtocol.
- DoubleBooking.BookableIffCoreIsBroken: requires that nobody in the queue has given up, because then only the turns before that caller are left for further tickets; whether they suffice is not counted. One half (`DoubleBooking.CoreIsNotBookable`) and the stuck lock (`DoubleBooking.BookableWhenStuck`) need nothing of the kind.
- Ids drawn by two processes for one branch (a device's id is drawn by the master): they collide exactly if both counters stand at the same number (`Ids.CollideExactly`); uniqueness is stated for one process. A later boot does not raise the counter, so ids drawn before it may be drawn again.
- 64-bit overflow of ids and counters: integers are unbounded.
- The effect of a stale PONG and of a cancelled ping round on the failure detector: the history is that of the outcomes it observed.
- VOTE_NO in the cluster machine: no node sends it; ConsensusEngine.Engine.HandleVote covers it.
