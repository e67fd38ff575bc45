# Raftra, verified

A Dafny model of the Raft key-value store `raftra`: the consensus engine as a
whole cluster, its two storage backends, its state machine, the simulator that
runs Raft in the browser, and the per-client rate limiter. Everything below is
proved for all inputs, all runs and all reachable states.

Check it with `dafny verify dfyconfig.toml`.

## How the project is laid out

**Abstract Raft, proved once.** `AbstractRaft.dfy` is Raft without a network:
nodes act on facts of a growing history (campaigns, votes with the voter's log,
leaderships with the log they started from and grew to, acknowledgements), so a
message in flight is a fact that stays true and loss, delay, reordering and
repetition need no action. `AbstractInvariants`, `AbstractPreservation` and
`AbstractSafety` prove that every action keeps the invariants and that Log
Matching and Leader Completeness follow (sections 5.2 to 5.4 of the extended
Raft paper).

**The engine.** `RaftNode.dfy` is the node as an object with the fields of
`RaftNode` and the loops of its handlers; each method is proved to compute, field
by field and storage transaction by storage transaction, a function of
`Engine.dfy`. `EngineCluster.dfy` puts those same functions on N nodes and a
network: calls are answered at most once and read at most once, in any order and
arbitrarily late; timers fire at any time; storage appends and truncations may
fail; and a crash may fall between any two storage transactions of a handler,
with the call in hand left unanswered. `EngineSteps`, `EngineRefinement` and
`EngineCrash` prove that each event, crashes included, is a sequence of abstract
actions. `EngineSafety`, `EngineGuarantees`, `EngineLoops`, `EngineStorage` and
`PreVote` say what holds in every run.

*What the engine answers.* `EngineAnswers` says of each kind of event, without the
functions that model the handlers, what comes of it: exactly when a vote, a
pre-vote or an entry is accepted, what a candidate, a new leader, a follower and a
leader's books look like afterwards. `EngineClients` follows a client's command into
the log and back. `EngineCommits` shows that no node ever leaves behind what it could
commit, apply or answer.

*What the engine can still do.* `EngineElection`, `EngineProgress` and `EngineWrites`
continue any run: an up-to-date node wins, its majority commits and applies
everything, and a write given to a leader succeeds. Those continuations are *calm*:
timers, time, deliveries and answers with working storage, and no crash, loss or
timeout of a client.

**The simulator.** `SimProtocol.dfy` is the browser's Raft (no pre-vote, no
no-op, votes as a set, batches of eight, commit indices kept over crashes),
`SimRefinement` proves that it refines the same abstract Raft, `SimSafety` states
what every run has, `SimAnswers` what one delivery does, `SimProgress` what a run can
still reach, and `SimObject.dfy` is the object the page runs, whose past is always
such a run.

**Around it.** `Storage.dfy` has the positional store and the byte-keyed,
cursor-driven database store and proves that they answer every sequence of
operations alike. `KVStore.dfy` is the table. `RateLimit.dfy` is the token bucket,
with the exact condition under which a request is admitted.

Conventions: node ids are numbers, an empty vote is `None`. A log leaves the
sentinel out (position i holds index i + 1) except in storage, where position 0
is the sentinel. A *run* starts with empty nodes; `run[i]` is its i-th state.
`proposals` is the record of what each client sent and was told.

## Model

| member | source | states |
|---|---|---|
| RaftNodeObject.RaftNode.constructor | internal/raft/raft.go:66-107 | a restarted node has the durable term, vote and log and nothing volatile |
| RaftNodeObject.RaftNode.StepDownIfOlder | internal/raft/election.go:12-41 | a higher term clears vote, role, leader state and every waiting client, and reaches storage before the new vote does |
| RaftNodeObject.RaftNode.AbortPending | internal/raft/election.go:28-32 | every waiting client is sent one failure on a channel that is still empty; nobody waits afterwards |
| RaftNodeObject.RaftNode.StartElection | internal/raft/election.go:48-118 | the timer opens a pre-vote round without any state change, or campaigns at once when there are no peers |
| RaftNodeObject.RaftNode.HandlePreVoteReply | internal/raft/election.go:92-115 | a pre-vote answer is dropped when stale, and a majority starts exactly one campaign |
| RaftNodeObject.RaftNode.Campaign | internal/raft/election.go:123-205 | a campaign stores term then vote and asks every peer with the candidate's own last index and term |
| RaftNodeObject.RaftNode.HandleVoteReply | internal/raft/election.go:169-204 | a granted vote of the current campaign is counted, and a majority makes a leader |
| RaftNodeObject.RaftNode.BecomeLeader | internal/raft/election.go:209-252 | the winner starts fresh books, appends a no-op of its own term unless storage fails, commits what it can alone and sends to all |
| RaftNodeObject.RaftNode.HandlePreVote | internal/raft/election.go:321-329 | a pre-vote is answered without changing the voter at all |
| RaftNodeObject.RaftNode.HandleRequestVote | internal/raft/election.go:269-313 | one vote per term, only for an up-to-date log, on disk before the answer |
| RaftNodeObject.RaftNode.CandidateLogUpToDate | internal/raft/election.go:335-343 | a later last term wins, then the longer log |
| RaftNodeObject.RaftNode.HandleAppendEntries | internal/raft/election.go:346-474 | refuses older terms and inconsistent logs, otherwise merges and takes over the commit index, with exactly the writes of the merge |
| RaftNodeObject.RaftNode.SkipMatching | internal/raft/election.go:398-447 | the loop stops at the first sent entry that is missing or has another term |
| RaftNodeObject.RaftNode.MergeEntries | internal/raft/election.go:395-448 | the merge loop, with failing transactions, keeps memory and storage equal and does one append after at most one truncation |
| RaftNodeObject.RaftNode.AdvanceFollowerCommit | internal/raft/election.go:450-468 | the commit index moves to min(leaderCommit, last new index) if that is higher, and everything up to it is applied |
| RaftNodeObject.RaftNode.ProposeCommand | internal/raft/replication.go:22-65 | a leader appends at its last index + 1 and gives the client an own empty channel; others change nothing |
| RaftNodeObject.RaftNode.GiveUp | internal/raft/replication.go:79-83 | a timed-out client takes the waiter at its index off the list and nothing else |
| RaftNodeObject.RaftNode.RequestFor | internal/raft/replication.go:109-143 | a request carries the previous entry's term, at most 256 entries from nextIndex on, and the commit index |
| RaftNodeObject.RaftNode.HandleAppendReply | internal/raft/replication.go:144-188 | late, stale and failed answers move nextIndex and matchIndex as the handler does, and may commit or retry |
| RaftNodeObject.RaftNode.CheckAndUpdateCommitIndex | internal/raft/replication.go:196-235 | the upward scan ends at the greatest committable index and applies up to it |
| RaftNodeObject.RaftNode.ApplyCommittedEntries | internal/raft/replication.go:239-271 | applies every committed entry once, in order, waking the client that waits at each decodable one |
| AbstractPreservation.RunKeeps | internal/raft/election.go:269-313 | every run of abstract Raft keeps the protocol invariants, with no bound on nodes, terms or steps |
| AbstractSafety.LeaderCompleteness | internal/raft/election.go:335-343 | quorum intersection and the up-to-date vote rule put what a term settled into the starting log of every later leader |
| EngineCrash.DiskOk | internal/raft/election.go:35-36 | a crash after any number of a handler's storage transactions leaves a term, vote and log that Raft itself could reach |
| EngineCrash.DiskMatchesMemory | internal/raft/election.go:403-444 | after every handler the stored term, vote and log equal those in memory, whichever append or truncate transaction failed |
| EngineCrash.EventOk | internal/raft/raft.go:66-107 | every event of a cluster, crashes between transactions included, is a sequence of abstract Raft actions |
| EngineSafety.EngineRefinesRaft | internal/raft/election.go:1-474 | every run of an engine cluster follows a run of abstract Raft state by state |
| EngineSafety.ElectionSafety | internal/raft/election.go:178-201 | over a whole run, restarts included, two leaders of one term are the same node |
| EngineSafety.LogMatchingOverRun | internal/raft/election.go:375-448 | two logs at any two times with the same term at an index are equal up to it |
| EngineSafety.LogsWellFormed | internal/raft/replication.go:32-48 | terms never fall along a log, none exceeds the node's term, and entry i carries index i |
| EngineSafety.LeaderAppendOnly | internal/raft/election.go:363-368 | while a node leads a term its log only grows at the end |
| EngineSafety.StateMachineSafety | internal/raft/replication.go:239-271 | any two nodes at any two times agree on every entry both have committed |
| EngineSafety.LeaderCompletenessOverRun | internal/raft/replication.go:207-232 | what any node has committed is in the log of every leader of a later term, and of its own term from then on |
| EngineSafety.TableIsFold | internal/raft/replication.go:239-271 | lastApplied <= commitIndex <= last index, and the table is the fold of the applied entries |
| EngineSafety.TablesAgree | internal/raft/raft.go:76-104 | equal lastApplied means equal tables, on two nodes or before and after a restart |
| EngineGuarantees.WaitersAreLeaders | internal/raft/replication.go:60-62 | a client waiting at an index waits on a leader whose entry there, of the current term, carries the very command it sent |
| EngineGuarantees.ChannelsStayFree | internal/raft/election.go:28-32 | every waiter's one-slot channel is empty and its own, so no send under the lock blocks |
| EngineGuarantees.SuccessIsApplied | internal/raft/replication.go:260-263 | a client told of success has the command it sent applied at its index on the node that told it |
| EngineGuarantees.SuccessIsDurable | internal/raft/replication.go:71-78 | a write reported successful is at its index, with the client's command, in every later leader's log, through any crashes |
| EngineGuarantees.SuccessIsAgreed | internal/raft/replication.go:71-78 | every node that ever commits that far has committed exactly that entry, with the client's command, there |
| EngineGuarantees.AnsweredIffDecodable | internal/raft/replication.go:245-263 | of the clients whose entries are applied exactly those with a decodable command are told; the others keep waiting |
| EngineGuarantees.LeaderNeverFollowsItself | internal/raft/election.go:363-368 | a node is never sent AppendEntries of a term it leads |
| EngineGuarantees.NeverCutsCommitted | internal/raft/election.go:415-433 | no handler ever truncates at or below the node's commit index or applied index, although nothing in it checks that |
| EngineGuarantees.InFlightMatching | internal/raft/replication.go:124-143 | a request in flight and any log with the same term at one of its indices agree on all it carries up to there |
| EngineGuarantees.BookkeepingSound | internal/raft/replication.go:151-186 | under any order of replies 1 <= nextIndex <= last + 1, matchIndex <= last, and a peer in the leader's term holds the leader's log up to matchIndex |
| EngineGuarantees.IndicesOnlyGrow | internal/raft/replication.go:196-271 | between any two moments of a run terms never go back, even over crashes; within one incarnation neither do commitIndex and lastApplied |
| EngineLoops.MergeKeeps | internal/raft/election.go:446-447 | a request whose entries are all there changes nothing and writes nothing |
| EngineLoops.MergeTakesOver | internal/raft/election.go:395-446 | otherwise the log becomes prefix[..k] + entries[k..] at the first missing or conflicting k |
| EngineLoops.MergeFails | internal/raft/election.go:403-444 | a failed transaction leaves the old log or the log cut at that k, in memory as in storage |
| EngineLoops.RedeliveryChangesNothing | internal/raft/election.go:395-448 | in any run a request once accepted in the current term, merged again however late, leaves the log as it is |
| EngineLoops.ScanIsGreatest | internal/raft/replication.go:206-232 | the scan's result is the greatest n > commitIndex of the current term held by a majority, or commitIndex; nothing else is |
| EngineLoops.FollowerCatchesUp | internal/raft/replication.go:124-186 | every run can be continued by at most (nextIndex - 1) + max(1, ceil(last / 256)) rounds of heartbeat, handling and answer, after which matchIndex = last, the follower's log equals the leader's and all that the leader had committed is committed on it |
| EngineLoops.RoundIsExchange | internal/raft/replication.go:109-188 | one such round of the cluster is exactly one exchange of the two nodes |
| EngineAnswers.VoteGrantedExactly | internal/raft/election.go:276-312 | a vote is granted if and only if the term is not older, no other vote was cast in it and the candidate's log is not behind; if and only if the vote is the last thing written; the answer carries the higher term |
| EngineAnswers.PreVoteGrantedExactly | internal/raft/election.go:321-329 | a pre-vote is granted if and only if its term is newer, no leader is alive for the voter and the log is not behind; the voter is unchanged |
| EngineAnswers.VotesCountExactly | internal/raft/election.go:178-201 | a granted vote of the campaign under way counts once and more than half of all nodes make the leader, nothing else does |
| EngineAnswers.PreVotesCountExactly | internal/raft/election.go:97-115 | a granted pre-vote of an open round counts once and more than half of all nodes start its one campaign |
| EngineAnswers.CandidatesAskAll | internal/raft/election.go:123-172 | whoever enters a new term as a candidate has voted for itself and asks every peer, with its own last index and term |
| EngineAnswers.NewLeaderAppendsNoOp | internal/raft/election.go:209-241 | an election won with working storage leaves an empty entry of the leader's own term at the end of its log, and fresh books |
| EngineAnswers.SentIsRequests | internal/raft/replication.go:98-143 | the calls that leave a node are the requests its handler sends, one for each peer |
| EngineAnswers.LeaderIsHeeded | internal/raft/election.go:346-371 | an AppendEntries of an older term changes nothing; any other makes its receiver a follower of the sender, in its term, heard now |
| EngineAnswers.AppendSucceedsExactly | internal/raft/election.go:350-393 | it succeeds only if the term is not older and the previous entry fits, and with working storage always then |
| EngineAnswers.SuccessCommits | internal/raft/election.go:450-468 | after a success commitIndex = lastApplied = max(commitIndex, min(leaderCommit, prevLogIndex + entries)), after a failure it is as before |
| EngineAnswers.SuccessHolds | internal/raft/election.go:398-447 | after a success the follower's log holds the sent entries at their indices |
| EngineAnswers.SuccessIsCounted | internal/raft/replication.go:163-174 | a success raises the peer's indices to what was sent and commits, and applies, up to the greatest index the raised books allow |
| EngineAnswers.FailureBacksOff | internal/raft/replication.go:175-186 | a failure lowers nextIndex by one, not below 1, changes nothing else and asks again from there |
| EngineClients.ClientCommandIsAppended | internal/raft/replication.go:22-65 | a leader puts the client's own command, its term and the next index at the end of its log and registers the client there; others, and failing storage, change nothing |
| EngineClients.ProposalHasItsClient | internal/raft/replication.go:36-48 | every proposal on record was made by a client event of the run that brought exactly that command |
| EngineClients.LostLeadershipTellsAll | internal/raft/election.go:13-37 | a leader that learns of a newer term tells every waiting client of failure at once |
| EngineCommits.CommittedIsApplied | internal/raft/replication.go:239-271 | in every state of every run lastApplied = commitIndex and the table is the fold of all that is committed |
| EngineCommits.NothingLeftToCommit | internal/raft/replication.go:206-234 | in every state of every run an entry of a leader's own term that it knows a majority to hold is at or below its commitIndex |
| EngineCommits.OnlyUndecodableWait | internal/raft/replication.go:245-263 | a client still waiting at an applied index sent an empty or undecodable command |
| EngineElection.UpToDateNodeWins | internal/raft/election.go:48-252 | every run can calmly be continued to where any node that does not lead, not behind some majority of others that do not lead, leads the next term with its no-op, the others having at most voted |
| EngineProgress.MajorityCommits | internal/raft/replication.go:98-271 | every run can calmly be continued to where a leader, and any majority that knows no later term, have the leader's whole log committed and applied, with equal tables |
| EngineProgress.ClusterRecovers | internal/raft/election.go:232-245 | from any state an electable node and its majority can get to where everything in its log, older terms included, is committed and applied on all of them |
| EngineWrites.WriteSucceeds | internal/raft/replication.go:22-78 | a command given to a leader that a majority can follow can always still be committed and applied on all of them, its client told of success if it decodes, and a value that was set reads back on each |
| PreVote.PreVoteStability | internal/raft/election.go:69-117 | a pre-vote round never starts a campaign while a majority without the node leads, has heard a leader recently or is in that term already |
| PreVote.AnswersNeverCampaign | internal/raft/election.go:92-115 | in that time an answer of the round, read to its end or cut short by a crash, brings to memory and storage at most a newer term with a cleared vote |
| BigEndian.RoundTrip | internal/storage/bbolt_store.go:23-35 | the 8-byte key of an index reads back as that index |
| BigEndian.KeyOrder | internal/storage/bbolt_store.go:21-27 | byte order of keys is numeric order of indices, and different indices have different keys |
| BboltStorage.BboltStore.constructor | internal/storage/bbolt_store.go:56-102 | opening a database keeps what is there and adds the sentinel exactly when the log is empty |
| BboltStorage.CursorAt | internal/storage/bbolt_store.go:199-208 | in a stored log the cursor goes from index to index in order and stops after the last |
| BboltStorage.BboltStore.GetEntriesFrom | internal/storage/bbolt_store.go:195-212 | the cursor loop returns exactly the suffix of the stored sequence |
| BboltStorage.BboltStore.AppendEntries | internal/storage/bbolt_store.go:154-172 | puts under big-endian keys extend the stored sequence |
| BboltStorage.BboltStore.TruncateFrom | internal/storage/bbolt_store.go:216-237 | deleting the collected keys cuts the stored sequence at the index |
| BboltStorage.BboltStore.LastIndex | internal/storage/bbolt_store.go:240-252 | the last key in byte order decodes to the last index |
| BboltStorage.BboltStore.LoadTerm | internal/storage/bbolt_store.go:118-129 | the saved term reads back, 0 if none was saved |
| StorageAgreement.Ask | internal/storage/memory_store.go:55-114 | one operation gets the same answer from both backends and leaves both with the same term, vote and log |
| StorageAgreement.AskAll | internal/storage/bbolt_store.go:154-290 | every sequence of contiguous appends, cuts above the sentinel and reads gets the same answers from both backends, those of one stored term, vote and log that each write changes and each read sees |
| StorageAgreement.LastIndices | internal/storage/memory_store.go:93-97 | the two backends report the same last index if and only if the log holds at least the sentinel |
| EngineStorage.EngineAsksThePossible | internal/raft/election.go:395-448 | in any run every handler's writes are contiguous appends and cuts above the sentinel of the stored log, so within 64 bits both backends agree on them |
| KeyValueStore.FoldReadsLastWrite | internal/kvstore/kvstore.go:21-30 | after any log, a key reads as the last command that set or deleted it says |
| SimProtocol.SameMerge | site/js/raft-sim.js:128-132 | the entry-by-entry merge gives the same log as the engine's merge |
| SimProtocol.SameScan | site/js/raft-sim.js:93-103 | on a log whose terms never fall, the scan that stops at an older term finds what the engine's full scan finds |
| SimAnswers.VoteGrantedExactly | site/js/raft-sim.js:105-115 | a vote is granted, and answered so, if and only if the term is not older, no other vote was cast in it and the log is not behind |
| SimAnswers.VotesCountExactly | site/js/raft-sim.js:74-121 | a granted vote of the candidate's term joins its set and more than half of all nodes make it leader, with fresh books and on record |
| SimAnswers.EntriesAcceptedExactly | site/js/raft-sim.js:122-137 | entries are accepted if and only if the term is not older and the previous entry fits; the answer says how far, and commitIndex becomes max(commitIndex, min(leaderCommit, that)) |
| SimAnswers.SuccessIsCounted | site/js/raft-sim.js:138-143 | a success raises matchIndex, sets nextIndex behind it and commits the greatest index the books then allow |
| SimAnswers.RefusalBacksOff | site/js/raft-sim.js:144-147 | a refusal lowers nextIndex by one, not below 1, and asks again from there |
| SimProgress.UpToDateNodeWins | site/js/raft-sim.js:62-121 | every run can be continued to where any live node not behind a live majority of two or more leads the next term |
| SimProgress.LoneNodeNeverLeads | site/js/raft-sim.js:116-121 | one node alone is never elected, because only another node's answer makes a leader: the engine has a fast path for that, the simulator has none |
| SimProgress.CatchesUp | site/js/raft-sim.js:83-149 | every run can be continued by heartbeats and their answers to where a live follower has the leader's log and all the leader had committed |
| SimProgress.MajorityCommits | site/js/raft-sim.js:83-149 | with a live majority, a leader whose newest entry is of its own term can get all of its log committed on all of them |
| SimProgress.WriteCommits | site/js/raft-sim.js:200-209 | so a value given to a live leader with a live majority can still be committed on all of them |
| SimSafety.ScansAgree | site/js/raft-sim.js:93-103 | in every run that condition holds, so the two scans agree on every node |
| SimRefinement.EventOk | site/js/raft-sim.js:105-150 | every delivery, timeout, heartbeat, toggle and write is a sequence of abstract Raft actions |
| SimSafety.SimulatorRefinesRaft | site/js/raft-sim.js:62-209 | every run of the simulator ends in a state that mirrors one abstract Raft reaches |
| SimSafety.OneLeaderIdPerTerm | site/js/raft-sim.js:74-80 | the history of leaders never has two ids for one term |
| SimSafety.EveryLeaderIsRecorded | site/js/raft-sim.js:74-80 | whoever leads at any moment is in that history from then on |
| SimSafety.CommittedPrefixesEqual | site/js/raft-sim.js:133-134 | any two nodes, dead or alive, at any two moments, agree on what both have committed |
| SimSafety.LeadersKeepCommitted | site/js/raft-sim.js:93-103 | what a node has committed is in the log of every later leader of the same or a later term |
| SimSafety.CommitNeverFalls | site/js/raft-sim.js:178-189 | commit indices never fall, crashes and restarts included |
| SimSafety.LeaderNeverHearsItsTerm | site/js/raft-sim.js:124-124 | no AppendEntries of a leader's own term ever reaches it, so nothing demotes it within the term |
| SimSafety.BooksAreFull | site/js/raft-sim.js:78-79 | a leader keeps 1 <= nextIndex <= last + 1 and a matchIndex within its log for every node |
| SimObject.Simulator.constructor | site/js/raft-sim.js:18-28 | a new simulation has n live followers with ids 1..n and nothing under way |
| SimObject.Simulator.StartElection | site/js/raft-sim.js:62-72 | a timeout makes a candidate of the next term that asks all others |
| SimObject.Simulator.MergeEntries | site/js/raft-sim.js:128-132 | the loop over the entries computes the merge |
| SimObject.Simulator.AdvanceCommit | site/js/raft-sim.js:93-103 | the downward loop computes the scan |
| SimObject.Simulator.Deliver | site/js/raft-sim.js:105-150 | one delivery is one step of the protocol, whatever its message |
| SimObject.Simulator.DeliverDue | site/js/raft-sim.js:152-159 | exactly the due messages whose receiver is up and on the sender's side are delivered, in order of arrival then of number, each as one step of the run |
| SimObject.Simulator.RunTimers | site/js/raft-sim.js:160-170 | exactly the heartbeats and elections that are due happen, node by node, each as one step of the run |
| SimObject.Simulator.Tick | site/js/raft-sim.js:152-171 | a tick is those deliveries and then timers only, and nothing else |
| SimObject.Simulator.Step | site/js/raft-sim.js:173-176 | the clock ends dt ticks later and everything that happened extends the object's run |
| SimObject.Simulator.ToggleNode | site/js/raft-sim.js:178-189 | a crash loses nothing but life; a restart loses role and votes only |
| SimObject.Simulator.SetPartition | site/js/raft-sim.js:191-195 | the first two nodes are on one side, the rest on the other, and nobody on both |
| SimObject.Simulator.ClientWrite | site/js/raft-sim.js:200-209 | exactly the live nodes that believe they lead take the value, at the end of their logs, and they are counted |
| SimObject.PageIsSafe | site/js/raft-sim.js:18-209 | after any use of the object: one leader id per term in its history and pairwise equal committed prefixes |
| RateLimit.SweepingChangesNothing | internal/transport/ratelimit.go:73-84 | for every request sequence on a clock that never goes back, the decisions are those of a limiter that never sweeps |
| RateLimit.WindowBound | internal/transport/ratelimit.go:46-68 | in any window of length L a client is admitted at most burst + rate * L times, whatever came before |
| RateLimit.AdmittedExactly | internal/transport/ratelimit.go:46-68 | a request is admitted if and only if, counted from every earlier request, it and what its client was granted since stay within burst + rate * time |
| RateLimit.BurstIsAdmitted | internal/transport/ratelimit.go:53-67 | a client that has made no more requests than the burst, this one included, is not refused, however close they come |
| RateLimit.SpacedIsAdmitted | internal/transport/ratelimit.go:59-67 | a request at least 1/rate after all earlier ones of its client is never refused |
| RateLimit.IdleIsFull | internal/transport/ratelimit.go:78-80 | the refill time, although rounded down to nanoseconds, is long enough to fill any bucket |
| RateLimit.RateLimiter.constructor | internal/transport/ratelimit.go:31-43 | a missing burst defaults to the rate rounded up, so there is always room for one token |
| RateLimit.RateLimiter.Allow | internal/transport/ratelimit.go:46-68 | over the object's whole life, on a clock that never goes back, the answer is yes if and only if that condition holds of the requests it was asked and the answers it gave |
| RateLimit.RateLimiter.Decide | internal/transport/ratelimit.go:50-67 | one request sweeps, refills, decides and spends as the step of the model does |
| RateLimit.RateLimiter.Sweep | internal/transport/ratelimit.go:73-84 | at most once a minute, exactly the buckets idle beyond the refill time go |

## Where code and description differ

- The engine's code never checks that a truncation stays above the commit index
  or that a leader does not truncate; `NeverCutsCommitted`, `LeaderAppendOnly` and
  `LeaderNeverFollowsItself` hold because of the global invariants alone.
- Committed is not the same as answered: an entry with an empty or undecodable
  command is skipped before the client is woken. `AnsweredIffDecodable` gives the
  exact condition.
- An empty in-memory store reports 2^64 - 1 as its last index, an empty database
  0, and only then do they differ (`LastIndices`). The engine never removes the
  sentinel (`EngineAsksThePossible`).

## Left out

- gRPC, the HTTP gateway, the command line, metrics, logging, the page's drawing
  and its event log: plumbing and user interface.
- Encodings of commands and log entries: decoding is a parameter that may fail;
  that entries survive the database unchanged is taken for granted.
- Timers and goroutine scheduling: timers may fire at any time, a superset of
  what deadlines allow, and handlers are atomic because the node's lock makes them so.
  The clock appears only in the pre-vote rule and the rate limiter.
- Errors on storing or reading term, vote and last index, which the code ignores:
  such a transaction succeeds or the node crashes. Failures of log appends and
  truncations are modelled, as a fault of the call rather than of the store.
- Machine wrap-around of terms and indices (natural numbers; storage keys are 64
  bits wide) and rounding of floating-point tokens (reals).
- A stopped node (`Stop`) and a node that is down: it is a node that takes no
  step until its restart, so crash and restart are one event.
- Answers to calls of an earlier incarnation of a process are never read.
- Membership changes and snapshots: the source has neither.
- Liveness of a schedule: that a calm continuation exists from every state is proved, not that timers and the network take it, nor when.
- RaftNodeObject.RaftNode.RequestFor: leaves out resetting a nextIndex of 0 to 1, because `BooksOk` shows it never is 0.
- Catching up while other requests to the same follower are under way: the bound counts one exchange at a time with working storage.
- The simulator's nodes are values in a map of its object rather than objects of their own, so aliasing between nodes is not captured.
- `SimProtocol` delivers any message ever sent any number of times, a superset of the page's network; latencies, partition and delivery order are in `SimObject`.
- Client addresses and proxies (`clientIP`): a key is any string.
