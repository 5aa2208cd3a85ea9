# A model of yqkv, with proofs

yqkv is a key-value store whose shards live on Raft-replicated groups and move between them while
clients are being served. This project models its three layers and proves what each is there to guarantee.

- **Shard migration** (`Session.dfy`, `Server.dfy`, `Effects.dfy`, `Replay.dfy`, `Loops.dfy`, `Migration*.dfy`,
  `Replica.dfy`, `Answer*.dfy`, `TwoGroupRuns.dfy`). A group is a deterministic state machine driven by its log. Any number of groups run
  interleaved; requests, answers and proposals may be lost, delayed, repeated and reordered, and a pull
  or delete may be answered from any prefix of a log, as a replica that lags behind would answer it.
  `ReplicatedGroup.dfy`, `GroupInvariant.dfy` and `GroupTheorems.dfy` put the service on top of Raft, with
  the entry in flight between them, and say exactly when every replica is at such a prefix;
  `GroupMigration.dfy` joins the two.
  Main results: the whole system behaves as one map, every request takes effect at most once, at most one
  group serves a shard, adoption takes exactly what was frozen, nothing is wiped before it is adopted, a move that has begun can
  always be completed.
- **Raft** (`Raft*.dfy` but `RaftWire.dfy`, `Handlers.dfy`, `CompactedLog.dfy`, `Calls.dfy`, `Persister.dfy`,
  `Backoff.dfy`). Each region under the server's lock is one step; servers crash and restart at any step.
  Main results: election safety, log matching, leader completeness, state machine safety, soundness of
  the CommitTerm rule, durability down to the persisted bytes, when exactly each handler grants, accepts, commits
  and installs, and that the back-off finds the last agreement.
- **Wire format** (`Wire.dfy`, `Records.dfy`, `Malformed.dfy`, `Merging.dfy`, `RaftWire.dfy`, `ShardWire.dfy`). The backward-writing
  encoders on arrays and the forward decoding loops. Main results: round trips for every persisted Raft
  state and every migrated shard in any map order, exact sizes, indifference to unknown fields, and refusal of what is
  cut short or wrongly tagged.

The code that updates fields or buffers step by step is modelled by classes and methods with loops
(`Sessions.SessionMap`, `Replicas.Shard`, `Replicas.ShardKV`, `CompactedLog.RaftLog`, `RaftNode.Raft`,
`Persistence.Persister`, the `Marshal*`, `Unmarshal*`, `Write*` and `Read*` methods). Their contracts tie
the new state to the functions about which the theorems are proved: `StateMachines.Apply` and
`RaftProtocol.Take` and the functions it is made of.

## Properties that fail

Four races in the code break what it is for; an answer, and a shard, can be lost without any. For each there
is a run that shows it, and the exact condition under which it does not happen.

- **A stale launch.** A ticker reads its term, and `launchElection` (raft/raft.go:605, 918-944) takes that
  term plus one later, without a look at what has happened since. `RaftLaunch.UnfairLaunchIsUnsafe`: three
  servers with two leaders in term 1, which apply different commands at index 1.
  `RaftLaunch.FairExactlyWhenVotesStay`: in any run whatever, no server goes back to an earlier term or
  changes its vote within a term if and only if every launch is fair (`RaftProtocol.MayLaunch`: the
  new term is ahead of the server's, or is the server's and its vote in it is free or its own).
- **A late vote.** `sendRequestVoteToAll` (raft/raft.go:955-973) counts every granted reply and makes the server
  a leader on a majority, whatever its role and term are by then; stepping down clears the count, but does not
  end the counting (raft/raft.go:904-916). `RaftVotes.LateVotesAreUnsafe`: three servers, fair launches, no
  snapshots; two votes of term 1 reach a follower of term 2 and make it the second leader of term 2, and the
  two apply different commands at index 1. `RaftVotes.TimelyExactlyWhenCurrent`: where launches are fair, every
  vote that a server holds has been granted to it in its current term, at all moments, if and only if each vote
  is counted in the term of its reply (`RaftProtocol.CountsInTime`). The role need not be looked at.
- **A snapshot inside a contradicting log.** `CompactForSnapshot` (raft/raft_log.go:64-72), when
  `CondInstallSnapshot` calls it, keeps the entries behind the snapshot's index even if the server's own
  entry at that index has another term. `RaftConflict.UnsafeRunExists`: five servers, fair launches and timely
  counts, two of which apply different commands at index 1. `RaftConflict.CleanExactlyWhenLogsHold`: where
  launches are fair and counts timely, the logs hold together at all moments if and only if no installation
  meets `RaftProtocol.KeepsConflict`.
- **A snapshot behind an entry in flight.** `applyCommittedLogs` (raft/raft.go:846-862) lets go of the lock
  before it sends, and `CondInstallSnapshot` (raft/raft.go:217) may set `lastApplied` back meanwhile.
  `GroupLoss.ReplicasCanDiffer`: two replicas with the same AppliedIndex of which one has lost a client's
  append, in a run in which Raft does nothing wrong. `GroupTheorems.AtHandExactlyWhenInStep`: where Raft is
  clean, every replica's state is made of a gapless beginning of the log, now and after delivering what is in
  flight, at all moments, if and only if no snapshot is installed further than one index behind the entry in
  flight (`ReplicatedGroup.InstallsAtHand`). `GroupTheorems.PassedOverIsLost`: an entry that has gone in out of
  order stays out of order, whatever is delivered later.
- **A refusal that outlives the execution.** A group that has refused a request because it did not hold the
  shard keeps its refusal when the shard arrives with the answer (session/session.go:106-115). `TwoGroupRuns.AnswerIsLost`:
  a write that was executed once and is refused at every retry. `AnswerRuns.RetryGetsTheAnswer`: a retry gets
  the answer of the execution if and only if the serving group has not gone past the client's number and holds
  no refusal for it.
- **A shard that nobody had.** A group that gains a shard from gid 0, in any but the first configuration, marks it
  PULLING (server/server.go:396-410), and there is nobody to pull it from. `MigrationProgress.WaitingHappens` and
  `WaitsForever`: it waits for good, and never enters another configuration. `MigrationProgress.MoveCompletes`: a
  shard is sure to be movable when its former owner is a group and has entered the configuration, too; and
  `ServedOnlyIfAlwaysOwned`: a shard is served only if every configuration from the first on has given it to a group.

The first three conditions together are `RaftSafety.CleanRun`, under which the theorems in `RaftTheorems`,
`Backoff` and `Calls` hold; the first two are enough for `RaftVotes.OneLeaderPerTerm`, the first for
`RaftVotes.OneVotePerTerm`. The theorems in `GroupTheorems` about logs add the fourth. The migration layer takes
every replica to be at a prefix of its group's log, so it stands on all four; `GroupMigration` says so.

The conditions are exact for the integrity of votes, logs and states' inputs, not for what is applied in a
particular run: a kept conflict need never be committed, two leaders of a term need never replicate, and an
entry that is passed over may have had no effect. So `RaftTheorems.StateMachineSafety` and
`GroupTheorems.ReplicasAgree` go one way, and the runs above show that they fail without the conditions.

## How the source is read

The repository is work in progress; where a line cannot be meant literally, the model follows the
intent that the rest of the code shows.

Migration:
- `INSERT_SHARDS` (server/server.go:198) reaches `applyInsertShards`, which the switch lists under
  `PULL_SHARDS` (server/server.go:290).
- All shards exist from the start, empty and SERVING (server/server.go:519 against 397-407); a wiped
  shard (server/server.go:345) has an empty map, not a nil one.
- `DeleteShards` answers OK even if `Execute` failed (server/server.go:156-157): kept as it is.
- Encoding and decoding a snapshot gives back the state machine.
- The hash from key to shard, and the history of configurations, with `configs(n).num == n`, are
  parameters; gid 0 stands for nobody. An INSERT_SHARDS proposal carries a header its clerk has not
  used before, as `NextHeader` hands out.

Raft:
- `rf.log` and `RaftState.Log` are one log, initially empty (raft/raft.go:109-110, 184).
- The vote rule is the one in the comment at raft/raft.go:720-721, and a vote is forgotten only when the
  term grows; raft/raft.go:716, 722, 830 and the restart at 1041 say otherwise. On disk, no vote is 0 and
  server v is v + 1, since 0 is also a server's number.
- Each server is asked once in an election, so that `rf.votes` is the number of voters counted. An election is
  counted until it is won, until the next launch of that server, or until it crashes; replies that the
  collector still holds when its context is cancelled are dropped.
- The error test at raft/raft.go:298 is inverted; replies are allocated objects.
- Candidates claim only their snapshot position (raft/raft.go:270-271): kept as it is.
- The term sent with a snapshot (raft/raft.go:771) is that of its last entry.
- `CondInstallSnapshot` raises `Commit` to the snapshot's index (raft/raft.go:217).
- A reply is looked at only in the leadership that sent the request (raft/raft.go:426-429, 906-908).
- A panic is a crash, as the step Restart has it; so `Snapshot` for an index before the last snapshot is no
  step of its own.

Wire format:
- A `|=` of shifted groups of seven bits is a sum, because the bits do not overlap; what is shifted
  out of 64 (or 32) bits is dropped by a remainder. Lengths are int64s, field numbers int32s.
- A nil and an empty byte slice, and a nil and an empty map, are the same value.

## Model

The results that the others serve are marked as main.

| member | source | states |
|---|---|---|
| Sessions.MergeIsLeastUpperBound | session/session.go:106-115 | merging sessions never takes one back, takes all of both sides, and nothing beyond: every table ahead of both is ahead of the merge |
| Sessions.SessionMap.HasSession | session/session.go:58-63 | true exactly for clients with a session |
| Sessions.SessionMap.CreateSession | session/session.go:41-50 | a new client gets an empty session, an existing one is refused, the others keep theirs |
| Sessions.SessionMap.IsDuplicate | session/session.go:65-76 | true exactly when a number at least as large has been processed for that client |
| Sessions.SessionMap.GetResponse | session/session.go:78-82 | the stored answer only for exactly the last processed number, otherwise an error |
| Sessions.SessionMap.SetResponse | session/session.go:84-90 | records number and answer of that client and of nobody else |
| Sessions.SessionMap.Merge | session/session.go:106-115 | whatever the order of the map walk, the result is the merge that MergeIsLeastUpperBound is about |
| Loops.StatusLoopEffect | server/server.go:396-410 | the loop over shard ids sets BE_PULLING on exactly the shards given away, PULLING on exactly those gained, and leaves contents and other shards alone |
| Loops.InsertLoopEffect | server/server.go:412-425 | exactly the shards that were PULLING and are in the response change, to GC with contents from the response |
| Loops.DeleteLoopEffect | server/server.go:336-351 | BE_PULLING shards on the list are emptied, GC ones become SERVING with their contents, all others are as before, also when the list repeats an id |
| Effects.AgainIsIgnored | server/server.go:274-279 | a number that the client has got past, or is at, changes nothing, whatever the command |
| Effects.EmptyEffect | server/server.go:281-304 | an empty entry under a new number changes nothing but the client's session |
| Effects.GetEffect | server/server.go:306-316 | a read under a new number answers the value that the served shard holds for the key, or that there is none, or refuses, and changes nothing else |
| Effects.PutEffect | server/server.go:318-325 | a put under a new number sets one value of one served shard, or is refused |
| Effects.AppendEffect | server/server.go:327-334 | an append puts the old value, if any, and what is appended behind it |
| Effects.DeleteEffect | server/server.go:336-351 | **Main.** garbage collection in its own configuration empties the named shards that are BE_PULLING and makes the named GC ones SERVING with their contents; every other shard, and both configurations, stay |
| Effects.InsertEffect | server/server.go:412-426 | **Main.** a pulled answer gives the awaited shards the contents named first for them, as GC, leaves all others, and takes the sessions that are ahead; one of an earlier configuration does nothing |
| Effects.ReconfigureEffect | server/server.go:384-410 | **Main.** exactly the next configuration is entered, the current one becomes the last, shards given away are held back, shards gained are awaited, contents stay |
| Replay.ApplyAdvancesSessions | server/server.go:270-304 | no entry takes any session back, and an applied entry is a duplicate from then on |
| Replay.LogAdvancesSessions | server/server.go:270-304 | the same over whole logs, for all the entries in them |
| Replay.ReplayIsHarmless | server/server.go:274-279 | **Main.** entries already reflected in the state, in any order and number, change nothing |
| Replay.SnapshotThenOldQueue | server/server.go:447-461 | a snapshot, followed by a queue that starts at or before it, ends in the state of the log applied once |
| Replay.QueueBeyondSnapshotLoses | server/server.go:447-461 | for every snapshot and every later start of the queue there is a log for which it does not |
| MigrationInvariant.OneServer | server/server.go:353-366 | **Main.** by induction down the chain of owners, two groups that pass checkShard for a shard are one |
| MigrationInvariant.ServerIsLatest | server/server.go:353-366 | whoever serves a shard is at a later configuration than every owner that has moved on |
| MigrationInvariant.NothingPending | server/server.go:121-142 | while somebody serves a shard, no older copy of it is still waiting to be adopted |
| MigrationCommit.CommitClient | server/server.go:306-334 | executing a client command, or refusing it, keeps every invariant of the history, with the event it adds |
| MigrationCommit.CommitInsert | server/server.go:412-426 | committing any pulled response, however old, keeps every invariant; only awaited copies are adopted |
| MigrationCommit.CommitDelete | server/server.go:336-351 | committing any delete command, however late, keeps every invariant |
| MigrationCommit.CommitReconfigure | server/server.go:384-394 | entering the next configuration keeps every invariant |
| MigrationSafety.AnswerIsOk | server/server.go:121-142 | **Main.** a pull answered from any applied prefix carries, for every shard not yet adopted elsewhere, all its data and sessions that know of every request in that data |
| MigrationSafety.PendingStays | server/server.go:121-142 | what clients do elsewhere leaves a copy that is waiting to be adopted up to date, in transit or at rest |
| MigrationSafety.StepKeeps | server/server.go:121-304 | every step of any group, client or message keeps the invariant of the system |
| MigrationSafety.RunKeeps | server/server.go:88-426 | **Main.** every reachable world satisfies the invariant |
| MigrationTheorems.ExclusiveService | server/server.go:353-366 | **Main.** at any moment at most one group passes checkShard for a shard, though groups may be at different configurations |
| MigrationTheorems.AnswersFromOneStore | server/server.go:306-334 | **Main.** the i-th executed request is answered from one map changed by exactly the puts and appends executed before it, on whatever groups |
| MigrationTheorems.StoreHoldsLastValue | server/server.go:318-334 | that map holds, for each key, the value put last with all that has been appended since, and nothing for keys never written |
| MigrationTheorems.ReadsAnswerTheLastValue | server/server.go:306-316 | **Main.** every executed read of every run, on whatever group, answers OK with that value, or that there is no such key |
| MigrationTheorems.ReadBehindWrite | server/server.go:306-334 | **Main.** a read behind a put of its key, with no write of it between, answers the value put; behind an append, the value before with what was appended |
| MigrationTheorems.OnlyClientsChangeTheStore | server/server.go:318-334 | **Main.** a step either leaves that map as it is, or is the commit of a put or append with answer OK and makes exactly its change |
| MigrationTheorems.AtMostOnce | session/session.go:65-76 | **Main.** over all groups, a client's executed requests on a shard have strictly increasing numbers |
| MigrationTheorems.AdoptionIsExact | server/server.go:418-422 | **Main.** what is adopted equals what the former owner held frozen at every moment it did |
| MigrationTheorems.WipedOnlyAfterAdoption | server/server.go:231-248 | **Main.** once a source has given up a frozen shard, the new owner's log contains the adoption of exactly those contents |
| MigrationTheorems.ReconfiguresOnlyWhenSettled | server/server.go:160-187 | **Main.** a group enters the next configuration, always the next in number, only with all shards SERVING, although only the proposer looked |
| MigrationTheorems.LastConfigNamesTheTrueSource | server/server.go:214-229 | **Main.** the last configuration names the true former owner of every PULLING or GC shard |
| MigrationTheorems.NoPanic | server/server.go:270-304 | **Main.** every proposal, committed at any time, applies without panic |
| MigrationProgress.SourceHoldsBack | server/server.go:214-229 | while a group waits for a shard, the former owner, once in the same configuration, holds it back |
| MigrationProgress.MoveCompletes | server/server.go:189-248 | **Main.** from every reachable world in which a group waits for a shard and its former owner is in the same configuration, a continuation ends with exactly those contents SERVING at the new owner and an empty shard at the former, all else in both as before |
| MigrationProgress.WaitsForever | server/server.go:396-410 | **Main.** a shard gained from nobody is awaited, in the same configuration, at every later entry of the group's log |
| MigrationProgress.WaitingHappens | server/server.go:396-410 | a run in which that happens |
| MigrationProgress.ServedOnlyIfAlwaysOwned | server/server.go:353-366 | a shard is served only if every configuration from the first to the server's own gave it to a group |
| GroupInvariant.DeliveredImage | server/server.go:270-304 | delivering any committed entry, the next one, an old one or one too far ahead, leaves the state that of the entries in the order in which they first went in |
| GroupInvariant.RunMakes | server/server.go:250-461 | in every run clean for Raft, gaps or not, all states, stored snapshots and snapshots on their way are made so, of committed entries |
| GroupInvariant.DeliveredReplica | server/server.go:270-304 | delivering the entry in flight, next or old, keeps the state gapless and the replica in step with its server |
| GroupInvariant.InstalledReplica | server/server.go:447-461 | so does installing a snapshot at or ahead of one index behind the entry in flight |
| GroupInvariant.StepKeeps | server/server.go:250-461 | every step of service and Raft together keeps the invariant, under the four conditions |
| GroupInvariant.RunKeeps | server/server.go:250-461 | every system reached under them satisfies it |
| GroupTheorems.GaplessExactlyWhenInOrder | server/server.go:250-268 | **Main.** in any run whatever, all states are made of the first entries of the log, in its order, at all moments, if and only if each delivery is of the next entry or of one that has gone in before |
| GroupTheorems.AtHandExactlyWhenInStep | raft/raft.go:846-868 | **Main.** where Raft is clean, no snapshot is installed behind an entry in flight if and only if at all moments every state is gapless and would be so after delivering what is in flight |
| GroupTheorems.PassedOverIsLost | server/server.go:250-268 | **Main.** what has gone into a state stays, in its order, at every later moment until a snapshot is installed or the server restarts, so a state once out of order stays so, whatever is delivered |
| GroupTheorems.StateIsWhatWentIn | server/server.go:250-304 | **Main.** in every run clean for Raft a state is what the entries that went into it make, in the order of their first delivery, each committed at its index |
| GroupTheorems.ReplicaFollowsLog | server/server.go:250-304 | **Main.** every replica is in the state of a committed beginning of its log, as long as AppliedIndex says unless it was just handed an entry its snapshot covers |
| GroupTheorems.StoredStandsForLog | server/server.go:432-445 | **Main.** what is stored as a snapshot is the state of exactly the compacted entries |
| GroupTheorems.ReplicasAgree | server/server.go:250-304 | **Main.** gapless replicas into which equally many entries have gone, at any two moments of a run clean for Raft, across crashes, delayed snapshots and entries in flight, are in the same state |
| GroupLoss.ReplicasCanDiffer | raft/raft.go:846-868 | **Main.** a run, clean for Raft, in which one of two replicas with the same AppliedIndex has lost a client's append, its second entry having gone in last |
| GroupMigration.HistoryIsDriven | server/server.go:270-304 | a group's history in the migration layer is what its committed commands make of the initial state, one after the other |
| GroupMigration.ReplicaIsAtAState | server/server.go:121-142 | **Main.** in every run of a group on Raft under the four conditions, each replica is in a state of that group's history in the migration layer |
| GroupMigration.PullIsAnswerPull | server/server.go:121-142 | what a replica answers a pull with is what the step AnswerPull of the migration layer sends |
| Answers.AnswerIsStored | server/server.go:297-300 | right after an entry is applied, what is stored for it is what its execution answered |
| AnswerRuns.StoredIsAnswerOrRefusal | server/server.go:270-300 | what any group stores for the number of an executed request is that request's answer or a refusal, never the answer of anything else |
| AnswerRuns.RetryGetsTheAnswer | server/server.go:270-300 | **Main.** the group that serves the shard of an executed request, after any number of moves, never executes it again, and answers a retry as the execution did if and only if it has not gone past the number and holds no refusal for it |
| AnswerRuns.RetryBeforeTheNext | session/session.go:78-82 | as long as the client has used no later number, a retry gets the answer of the execution or a refusal |
| TwoGroupRuns.AnswerIsLost | session/session.go:106-115 | **Main.** a run of two groups in which a write has been executed and every retry is refused by the group that serves the shard |
| TwoGroupRuns.BothSettle | server/server.go:121-248 | **Main.** a run of the same groups in which the move completes: both have all shards SERVING in configuration 2, and the new owner answers a read with what was written to the former one |
| Answers.AnswerAfterMerge | session/session.go:106-115 | a retry gets the answer of an execution elsewhere if and only if the local session is behind the request or has that answer already |
| Answers.RefusalOutlivesAnswer | session/session.go:106-115 | a refusal stored for the same request survives the merge with the answer |
| Answers.RefusedStaysRefused | server/server.go:270-300 | a request refused for want of the shard is never executed by that group, the shard's arrival included |
| Replicas.Shard.Get | server/shard.go:24-29 | the value of a key that is present, otherwise an error |
| Replicas.Shard.Put | server/shard.go:31-34 | sets that key, keeps the others and the status |
| Replicas.Shard.Append | server/shard.go:36-39 | appends to the value, or to nothing, of that key |
| Replicas.Shard.Empty | server/shard.go:41-43 | true exactly for a shard without keys |
| Replicas.Shard.SetStatus | server/shard.go:61-63 | sets the status and keeps the contents |
| Replicas.ShardKV.checkShard | server/server.go:353-366 | true exactly for a shard held as SERVING or GC and assigned to this group |
| Replicas.ShardKV.applyGet | server/server.go:306-316 | the answer that StateMachines.Execute gives, and no change |
| Replicas.ShardKV.applyPut | server/server.go:318-325 | changes the state as StateMachines.Execute does |
| Replicas.ShardKV.applyAppend | server/server.go:327-334 | changes the state as StateMachines.Execute does |
| Replicas.ShardKV.applyDeleteShards | server/server.go:336-351 | the loop in place computes the function that DeleteLoopEffect is about |
| Replicas.ShardKV.applyInsertShards | server/server.go:412-426 | the loop in place computes the function that InsertLoopEffect is about, then merges sessions |
| Replicas.ShardKV.updateShardsStatus | server/server.go:396-410 | the loop in place computes the function that StatusLoopEffect is about |
| Replicas.ShardKV.applyReconfigure | server/server.go:384-394 | enters the next configuration or refuses, as StateMachines.Execute does |
| Replicas.ShardKV.apply | server/server.go:270-304 | **Main.** one log entry takes the whole state where StateMachines.Apply does; duplicates change only the applied index |
| Replicas.ShardKV.PullShards | server/server.go:121-142 | refuses unless leading and while behind the requested configuration, otherwise answers with copies of the shards and all sessions, and changes nothing |
| Replicas.ShardKV.settled | server/server.go:162-177 | true exactly when all shards are SERVING |
| Replicas.ShardKV.getGid2ShardsOnLastConfigByStatus | server/server.go:216-229 | every shard of the status appears under the group that the last configuration names, and nothing else does |
| RaftInvariant.SameTermSamePrefix | raft/raft.go:640-683 | logs of leaders' entries that agree in term at an index agree up to it |
| RaftInvariant.TermsAscend | raft/raft.go:976-986 | terms never decrease along such a log |
| RaftInvariant.MajoritiesMeet | raft/raft.go:516-523 | two majorities of a cluster share a server |
| RaftInvariant.VoteCarriesOver | raft/raft_log.go:111-120 | a voter's log that had a committed prefix forces it on the winner |
| RaftInvariant.LeaderCompleteness | raft/raft.go:702-732 | **Main.** every later leader was elected with all that a majority ever acknowledges in an earlier term |
| RaftInvariant.CommittedAgree | raft/raft.go:506-524 | two committed prefixes agree as far as both reach |
| RaftElection.LaunchStep | raft/raft.go:918-944 | launching an election in whatever term keeps the invariant, if the launch is fair |
| RaftSteps.SeesHigherTermStep | raft/raft.go:297-300 | stepping down for a higher term in a reply keeps the invariant |
| RaftElection.NewBallotOk | raft/raft.go:720-729 | a ballot is fair to the voter's log, and agrees with any cast before in that term |
| RaftElection.AnswerVoteStep | raft/raft.go:702-732 | granting or refusing a vote keeps the invariant |
| RaftElection.NobodyElse | raft/raft.go:958-966 | a term in which a candidate has a majority has no other winner |
| RaftElection.CountVoteStep | raft/raft.go:946-974 | counting a vote in the term of its reply, in whatever role, and winning by it, keeps the invariant |
| RaftReplication.StartStep | raft/raft.go:448-471 | the leader's append keeps the invariant |
| RaftReplication.MergeFollowsLeader | raft/raft.go:666-683 | **Main.** after both loops the follower has the leader's entries up to the last one sent, is otherwise unchanged or exactly that prefix, and has lost nothing that agreed with the leader |
| RaftReplication.CommitTermRule | raft/raft.go:685-693 | **Main.** when the rule advances Commit, to an index at most LeaderCommit, the two logs agree up to there |
| RaftReplication.HandleAppendStep | raft/raft.go:620-700 | AppendEntries, whatever the request's age, keeps the invariant |
| RaftSteps.HandleReplyStep | raft/raft.go:386-393 | taking a match and committing by counting keeps the invariant |
| RaftSteps.RestartOk | raft/raft.go:180-197 | after a restart a server is in order, with term, vote, log and snapshot as they were |
| RaftSnapshot.SnapshotIsAhead | raft/raft.go:209-215 | a snapshot that is not refused lies ahead of the server's own and continues it |
| RaftSnapshot.CondInstallStep | raft/raft.go:203-224 | installing a snapshot that leaves no conflict keeps the invariant |
| RaftSafety.StepKeeps | raft/raft.go:203-986 | every step of any server keeps the invariant |
| RaftSafety.RunKeeps | raft/raft.go:203-986 | **Main.** every world reached by a clean run satisfies the invariant |
| RaftTheorems.LogMatching | raft/raft.go:640-683 | **Main.** two servers' logs with the same term at an index agree up to it |
| RaftTheorems.LogsAreOrdered | raft/raft.go:976-986 | **Main.** indexes count from one, terms never decrease and never exceed the server's |
| RaftTheorems.LeadersHaveTheCommitted | raft/raft.go:506-524 | **Main.** a leader has all that any server has committed, now or earlier, in its term or before |
| RaftTheorems.CommittedPersists | raft/raft.go:551-560 | what has been committed stays committed |
| RaftTheorems.CommittedPrefixesNest | raft/raft.go:551-560 | **Main.** of the committed prefixes of any two servers at any two moments one begins the other |
| RaftTheorems.StateMachineSafety | raft/raft.go:846-868 | **Main.** no two servers, nor one server twice, ever apply different entries at one index |
| RaftTheorems.AppliedStaysCommitted | raft/raft.go:846-868 | **Main.** what was once applied anywhere is in every committed prefix that reaches it, at all later moments |
| RaftTheorems.CommitFollowsLeader | raft/raft.go:685-693 | **Main.** whenever a request advances a follower's Commit, its log up to there is the sending leader's |
| Handlers.StatusExactly | raft/raft.go:620-700 | each status of the answer to AppendEntries for exactly one reason, with the receiver's term before the request |
| Handlers.HintsExactly | raft/raft.go:649-662 | the hints of NotContain are the end of a short log, or the term found and the first retained entry of it |
| Handlers.SuccessIsAMatch | raft/raft.go:620-700 | **Main.** in a clean run the receiver never panics; it answers Success exactly when it has what the request builds on, then and only then a match is acknowledged, and its log begins with the sender's up to the last entry sent; otherwise its log and Commit stay |
| Handlers.StepsDown | raft/raft.go:620-640 | a request of a later term makes the receiver a follower of it with a free vote; any other leaves term, role and vote alone |
| Handlers.CommitAdvancesExactly | raft/raft.go:685-693 | **Main.** an accepted request brings Commit to the smaller of LeaderCommit and the log's length exactly when that is ahead and the entry there has the term of the sender's at LeaderCommit |
| Handlers.GrantedExactly | raft/raft.go:702-732 | **Main.** a vote is granted exactly to a candidate not behind in term, with a claim as good as the voter's log, while the vote is free or its own; the voter is a follower of that term either way, with its vote on disk |
| Handlers.LeaderCommitsExactly | raft/raft.go:506-524 | **Main.** in a clean run a reported match brings the leader's Commit there exactly when it is ahead, of the leader's own term, and a majority has matched it |
| Handlers.InstallsExactly | raft/raft.go:203-224 | **Main.** in a clean run a snapshot of any age is installed exactly when it covers more than the server's own, with the entries behind it kept |
| RaftTheorems.RestartLosesNothing | raft/raft.go:180-197 | **Main.** at every moment a restart would bring back term, vote, whole log and snapshot, as a follower that goes on from the snapshot; only Commit may fall behind |
| RaftTheorems.AcknowledgedIsKept | raft/raft.go:976-986 | **Main.** an acknowledged prefix is still there, unless a later leader was elected without it |
| RaftTheorems.StaleRequestsAreHarmless | raft/raft.go:666-683 | **Main.** a duplicated or stale request never shortens the follower's agreement with its sender |
| RaftVotes.OneVotePerTerm | raft/raft.go:720-729 | **Main.** with fair launches a server grants its vote to one candidate in a term, crashes or not |
| RaftVotes.TimelyExactlyWhenCurrent | raft/raft.go:955-973 | **Main.** where launches are fair, votes are counted only in the term of the reply if and only if at all moments every vote held has been granted in the holder's current term |
| RaftVotes.NoOtherWinner | raft/raft.go:958-966 | a majority of the ballots of a term leaves no other winner of it, whatever is in the logs |
| RaftVotes.OneLeaderPerTerm | raft/raft.go:815-844 | **Main.** with fair launches and timely counts, whatever snapshots are installed: whoever leads in a term, at any two moments, is one server |
| RaftVotes.LateVotesAreUnsafe | raft/raft.go:946-974 | **Main.** a run of three servers with fair launches and no conflicting installation, in which late votes make a second leader of term 2 and the two apply different entries at index 1 |
| RaftConflict.InstalledLogOkIff | raft/raft_log.go:64-72 | after an installation the log is made of leaders' entries if and only if no conflict was kept |
| RaftConflict.CleanExactlyWhenLogsHold | raft/raft_log.go:64-72 | **Main.** where launches are fair and counts timely, the logs hold together at all moments if and only if no installation keeps a conflict |
| RaftConflict.UnsafeRunExists | raft/raft.go:203-224 | **Main.** a run of five servers with fair launches and timely counts in which two of them apply different entries at index 1 |
| RaftLaunch.StepKeepsVotes | raft/raft.go:918-944 | a step takes back a term or changes a vote exactly if it is an unfair launch |
| RaftLaunch.FairExactlyWhenVotesStay | raft/raft.go:918-944 | **Main.** in any run, all launches are fair if and only if no server goes back in term or changes its vote within one, crashes included |
| RaftLaunch.VotesStand | raft/raft.go:720-729 | with fair launches a vote stands at every later moment of its term |
| RaftLaunch.UnfairLaunchIsUnsafe | raft/raft.go:918-944 | **Main.** a run of three servers with timely counts and clean installations and two leaders of term 1, which apply different entries at index 1 |
| Calls.RequestsAreInOrder | raft/raft.go:620-700 | every request delivered in a clean run has consecutive entries and meets an ascending log and no leader of its term |
| Calls.SnapshotsFitLeader | raft/raft.go:203-224 | a snapshot that reaches a leader in a clean run covers no more than its log, and any snapshot has its entries at their indexes |
| CompactedLog.RaftLog.EntryAt | raft/raft_log.go:26-44 | from the included index on, term and index are those of the full log; before it, a panic |
| CompactedLog.RaftLog.LastEntry | raft/raft_log.go:46-52 | term and index of the full log's last entry, compacted or not |
| CompactedLog.RaftLog.Append | raft/raft_log.go:54-58 | appends exactly the entry that follows the last one |
| CompactedLog.RaftLog.EntriesAfter | raft/raft_log.go:60-62 | the full log from that index on, wherever it is still held |
| CompactedLog.RaftLog.CompactForSnapshot | raft/raft_log.go:64-72 | **Main.** stands for the snapshot's log followed by the entries behind its index, also at the included index, where uint64 wraps |
| CompactedLog.RaftLog.DiscardAfterAnd | raft/raft_log.go:74-76 | stands for the full log before that index |
| CompactedLog.RaftLog.Search | raft/raft_log.go:82-107 | the binary search finds a place where terms step over the given one: the first entry of at least that term, where terms ascend |
| CompactedLog.RaftLog.FirstEntryAtTerm | raft/raft_log.go:82-94 | a retained entry of the term or none: the first, where terms ascend |
| CompactedLog.RaftLog.LastEntryAtTerm | raft/raft_log.go:96-109 | as coded: a retained entry of a later term or none; where terms ascend, the one behind the last of the term |
| CompactedLog.RaftLog.NotUpToDateThan | raft/raft_log.go:111-120 | compares with the full log's last entry |
| RaftNode.Raft.persist | raft/raft.go:159-177 | the bytes of term, vote, commit, log and snapshot position are on disk, the snapshot untouched |
| RaftNode.Raft.persistRaftStateData | raft/raft.go:168-177 | RaftWire.Marshal's bytes of the compacted log stand for the full state |
| RaftNode.Raft.convertToFollower | raft/raft.go:904-916 | takes the step StepDown of the protocol and persists it |
| RaftNode.Raft.launchElection | raft/raft.go:918-944 | becomes a candidate of the term it is given, old or new, the vote for itself persisted |
| RaftNode.Raft.RequestVote | raft/raft.go:702-732 | grants exactly when the protocol does, and is in its state afterwards, persisted |
| RaftNode.Raft.countVote | raft/raft.go:958-966 | counts a granted reply in whatever role and term, and leads exactly with a majority |
| RaftNode.Raft.convertToLeader | raft/raft.go:815-844 | leads as in the protocol, with nextIndex behind its last entry everywhere |
| RaftNode.Raft.Start | raft/raft.go:448-471 | a leader appends, persists and matches the command at the index it returns; others change nothing |
| RaftNode.Raft.appendEntryToLog | raft/raft.go:976-986 | appends and persists the entry that follows, ignores any other |
| RaftNode.Raft.newAppendEntriesArgs | raft/raft.go:313-340 | the request describes the leader's full log from nextIndex on, and its Commit |
| RaftNode.Raft.checkIfEntryShouldBeCommitted | raft/raft.go:506-524 | the counting loop commits exactly when a majority has matched an entry of the current term |
| RaftNode.Raft.onSuccess | raft/raft.go:386-393 | takes the protocol's step for a match |
| RaftNode.Raft.onNotContain | raft/raft.go:395-423 | turns nextIndex back as Backoff's theorems are about |
| RaftNode.Raft.discardConflict | raft/raft.go:666-678 | cuts the log at the first entry of another term, if there is one |
| RaftNode.Raft.appendEntries | raft/raft.go:680-683 | adds exactly the entries that the log does not reach |
| RaftNode.Raft.merge | raft/raft.go:666-683 | the two loops on the compacted log compute the merge of the full logs |
| RaftNode.Raft.AppendEntries | raft/raft.go:620-700 | **Main.** takes the protocol's step for the request and answers with the right status and hints |
| RaftNode.Raft.Snapshot | raft/raft.go:231-246 | for any index: a panic exactly before the last snapshot, otherwise compaction within the log, the full log kept, and state and snapshot stored in one write |
| RaftNode.Raft.CondInstallSnapshot | raft/raft.go:203-224 | refuses old snapshots, otherwise takes the protocol's step and stores state and snapshot in one write; panics exactly for a snapshot before its own |
| RaftNode.Raft.applyCommitted | raft/raft.go:846-868 | hands over the next committed entry of the full log, if any |
| RaftNode.Raft.Restart | raft/raft.go:180-197 | **Main.** from the persisted bytes alone, is the server that the protocol's Restart gives |
| Persistence.SavedIsRead | raft/raft.go:168-197 | the persisted bytes decode to the saved state |
| Persistence.RestoredIs | raft/raft.go:180-197 | the decoded state has the server's term, vote, commit and retained log |
| Persistence.Persister.SaveRaftState | raft/persister.go:39-43 | replaces the state and not the snapshot |
| Persistence.Persister.SaveStateAndSnapshot | raft/persister.go:59-64 | replaces both at once |
| Backoff.RoundLowersNextIndex | raft/raft.go:395-423 | with both logs fixed, a NotContain round lowers nextIndex and keeps it at least 1, on all three branches |
| Backoff.NothingJumped | raft/raft.go:395-423 | **Main.** a round turns back over no agreement above the leader's snapshot |
| Backoff.LeavesATerm | raft/raft.go:395-423 | a round that fails again within the follower's log does so at an earlier term of it |
| Backoff.Rounds | raft/raft.go:395-423 | **Main.** all rounds end: at the last agreement before nextIndex, or below the leader's snapshot with no agreement above it, or at once at a follower that has compacted further; after at most one refusal for each of the follower's terms and one for its length |
| Backoff.SnapshotDespiteAgreement | raft/raft.go:395-423 | at the index of the leader's own snapshot an agreement can be turned back over |
| Backoff.BackoffProgresses | raft/raft.go:649-662 | **Main.** in every clean run a follower not ahead in term answers without panicking and the leader turns back |
| Wire.VarintRoundTrip | raft/raftpb/raft.pb.go:1350-1360 | every uint64 is read back from its varint, whatever follows |
| Wire.SovIsExact | raft/raftpb/raft.pb.go:1604-1606 | sov is exactly the number of bytes of the varint |
| Wire.VarintAtMostTen | raft/raftpb/raft.pb.go:1705-1720 | every uint64 fits in ten bytes, the decoder's limit |
| Wire.ReadIsLocal | raft/raftpb/raft.pb.go:1705-1720 | what a varint reads as does not depend on what follows it |
| Wire.SkipTakesOneRecord | raft/raftpb/raft.pb.go:3143-3220 | **Main.** skipping takes exactly one well-formed record, with all its members if it is a group, at any nesting depth |
| Wire.SkipIsLocal | raft/raftpb/raft.pb.go:3143-3220 | a successful skip does not depend on what follows |
| Wire.EncodeVarint | raft/raftpb/raft.pb.go:1350-1360 | writes the varint so that it ends at the given offset, and nothing else |
| Wire.DecodeVarint | raft/raftpb/raft.pb.go:1705-1720 | the shift loop reads what ReadUint does, or fails; never outside the buffer |
| Wire.SkipRecord | raft/raftpb/raft.pb.go:3143-3220 | the depth loop skips what Skip does, always forward, never reading outside the buffer |
| Records.FieldsRoundTrip | raft/raftpb/raft.pb.go:1698-1819 | any list of fields that fit, written one behind the other, is read back, and reading goes on behind it |
| Records.FieldsOfConcat | raft/raftpb/raft.pb.go:1698-1819 | decoding the concatenation of two buffers is decoding one after the other |
| Records.UnknownFieldsAreIgnored | raft/raftpb/raft.pb.go:1803-1818 | **Main.** a well-formed record of an unknown field between any records of a buffer changes nothing |
| Malformed.ReadsExactlyVarints | raft/raftpb/raft.pb.go:1705-1720 | a varint is read exactly where at most ten bytes end with the first one below 128 |
| Malformed.EndlessFails | raft/raftpb/raft.pb.go:1705-1720 | ten bytes with the high bit, or fewer up to the end of the buffer, are no number |
| Malformed.CutFieldFails | raft/raftpb/raft.pb.go:1698-1819 | **Main.** a buffer that ends anywhere inside a field, behind any fields, is refused |
| Malformed.CutUnknownFails | raft/raftpb/raft.pb.go:3143-3220 | so is one that ends anywhere inside a record of an unknown field, nested groups included |
| Malformed.WrongTagFails | raft/raftpb/raft.pb.go:1720-1731 | a known field of another wire type, the end of a group not begun, field number 0, and wire types that do not exist are refused |
| Malformed.IllegalFieldFails | raft/raftpb/raft.pb.go:1719-1725 | a field number that is zero or negative as an int32 is refused, however wide the number was |
| Malformed.TornStateFails | raft/raftpb/raft.pb.go:3021-3142 | **Main.** a stored state cut short anywhere, but exactly between its two parts, is refused |
| Malformed.BadPartSpoils | raft/raftpb/raft.pb.go:2899-3142 | a nested part that cannot be read spoils the message that holds it, at every level |
| Malformed.UnknownInPair | yqkvpb/yqkvpb.pb.go:1746-1759 | an unknown record inside a map entry is passed over if it fits into the entry, refused if it runs past it |
| Malformed.LoneGroupEndFails | raft/raftpb/raft.pb.go:3202-3205 | the end of a group that has not begun is not skipped, inside a map entry either |
| Malformed.CutIDsFail | yqkvpb/yqkvpb.pb.go:1320-1340 | a list of packed ids that ends too soon is refused |
| Malformed.BadLengthFails | raft/raftpb/raft.pb.go:1784-1793 | a length that is negative, or reaches beyond the buffer, is refused, in known fields and unknown ones |
| Records.WriteUint | raft/raftpb/raft.pb.go:853-857 | writes tag and number backwards, or nothing for zero, and touches nothing else |
| Records.WriteBytes | raft/raftpb/raft.pb.go:843-849 | writes payload, length and tag backwards, or nothing when empty |
| Records.ReadPieceAt | raft/raftpb/raft.pb.go:1698-1819 | one turn of an Unmarshal loop: a known field, a skipped one, or failure |
| RaftWire.EntrySizeIsExact | raft/raftpb/raft.pb.go:838-861 | Size of an entry is the length of its encoding |
| RaftWire.LogSizeIsExact | raft/raftpb/raft.pb.go:1566-1585 | Size of a log with any entries is the length of its encoding |
| RaftWire.StateSizeIsExact | raft/raftpb/raft.pb.go:1587-1602 | **Main.** Size of a state is the length of its encoding |
| RaftWire.EntryRoundTrip | raft/raftpb/raft.pb.go:1698-1819 | an entry is read back |
| RaftWire.HardRoundTrip | raft/raftpb/raft.pb.go:2792-2898 | a hard state is read back |
| RaftWire.LogRoundTrip | raft/raftpb/raft.pb.go:2899-3020 | a log with any list of entries is read back, in order |
| RaftWire.StateRoundTrip | raft/raftpb/raft.pb.go:3021-3142 | **Main.** every RaftState is read back, with either part present or absent |
| Merging.EntryOntoEntry | raft/raftpb/raft.pb.go:1698-1819 | decoding on top of an entry replaces its data, and each number that is not zero |
| Merging.LogOntoLog | raft/raftpb/raft.pb.go:2899-3020 | the entries that are decoded are added behind those the log holds, and its numbers replaced where the new ones are not zero |
| Merging.StateOntoState | raft/raftpb/raft.pb.go:3021-3142 | decoding on top of any state: parts are decoded onto parts, and kept where there is nothing new |
| Merging.StatesInARow | raft/raftpb/raft.pb.go:3021-3142 | **Main.** two stored states one behind the other are decoded as the second over the first |
| RaftWire.UnknownFieldsInState | raft/raftpb/raft.pb.go:3122-3137 | unknown fields in stored bytes do not change what is restored |
| RaftWire.MarshalEntry | raft/raftpb/raft.pb.go:838-861 | fills exactly Size bytes before `end` with the encoding |
| RaftWire.MarshalHard | raft/raftpb/raft.pb.go:1233-1254 | fills exactly Size bytes before `end` with the encoding |
| RaftWire.MarshalEntries | raft/raftpb/raft.pb.go:1286-1299 | the loop from the last entry to the first writes them in order |
| RaftWire.MarshalLog | raft/raftpb/raft.pb.go:1271-1301 | fills exactly Size bytes before `end` with the encoding |
| RaftWire.MarshalState | raft/raftpb/raft.pb.go:1318-1348 | fills exactly Size bytes before `end` with the encoding |
| RaftWire.Marshal | raft/raftpb/raft.pb.go:1303-1311 | **Main.** a buffer of Size bytes is filled completely |
| RaftWire.UnmarshalEntry | raft/raftpb/raft.pb.go:1698-1819 | the loop computes the decoding that the round trip is about, for every byte string |
| RaftWire.UnmarshalHard | raft/raftpb/raft.pb.go:2792-2898 | the same for a hard state, on top of what it already holds |
| RaftWire.UnmarshalLog | raft/raftpb/raft.pb.go:2899-3020 | the same for a log and its nested entries |
| RaftWire.Unmarshal | raft/raftpb/raft.pb.go:3021-3142 | **Main.** the same for a state and its nested messages |
| ShardWire.NegativeTakesTen | yqkvpb/yqkvpb.pb.go:615-633 | every negative id takes exactly ten bytes |
| Malformed.SignedExactly | yqkvpb/yqkvpb.pb.go:1618-1782 | the id that is read is the int64, and the status the int32, that differs from the number by a multiple of two to its width |
| ShardWire.PackedRoundTrip | yqkvpb/yqkvpb.pb.go:1288-1341 | **Main.** packed ids, negative ones included, are read back, and the index ends behind them |
| ShardWire.PackedFitsScratch | yqkvpb/yqkvpb.pb.go:615-616 | ten bytes an id are enough for the scratch buffer |
| ShardWire.PairReads | yqkvpb/yqkvpb.pb.go:1665-1762 | a written map entry is read back as its key and value |
| ShardWire.ShardMapRoundTrip | yqkvpb/yqkvpb.pb.go:744-779 | **Main.** a shard is read back for every order in which its map may be walked |
| ShardWire.SizeOfAnyOrder | yqkvpb/yqkvpb.pb.go:993-1015 | Size does not depend on the order of the walk |
| ShardWire.PackIDs | yqkvpb/yqkvpb.pb.go:616-628 | the forward loop fills the scratch buffer with the packed ids, within its bounds |
| ShardWire.MarshalIDs | yqkvpb/yqkvpb.pb.go:615-633 | writes the packed field before `end`, or nothing for an empty list |
| ShardWire.UnpackIDs | yqkvpb/yqkvpb.pb.go:1320-1340 | the inner loop reads what ReadPacked does |
| ShardWire.SizeOfPairs | yqkvpb/yqkvpb.pb.go:1002-1009 | whatever the walk, the bytes that the pairs take in any order |
| ShardWire.MarshalPairs | yqkvpb/yqkvpb.pb.go:754-771 | whatever the walk, each pair of the map is written once, and the room of Size is enough |
| ShardWire.MarshalShard | yqkvpb/yqkvpb.pb.go:729-737 | **Main.** the buffer of Size bytes is filled exactly, though Size and the writer walk the map in orders of their own |
| ShardWire.ReadPairAt | yqkvpb/yqkvpb.pb.go:1665-1762 | the loop inside the map field reads what ReadPair does |
| ShardWire.UnmarshalShard | yqkvpb/yqkvpb.pb.go:1588-1800 | **Main.** the loop computes the decoding that the round trip is about, for every byte string |

## Left out

- Goroutines, channels, timers, contexts, locks and gRPC: each locked region is one atomic step, a timeout is a step that may always be taken.
- shardctl, the lafikl/consistent ring and the client clerk: configurations and request headers are arbitrary inputs.
- Liveness, but for the back-off; a group may stay stuck, for example when a leader ignores OldSnapshot replies.
- The identity of errors: a decoder either returns a message or fails.
- session/sessionpb, shardctl/shardctlpb and the other messages of raftpb and yqkvpb: the same generated patterns as the ones modelled.
- The unpacked form of ShardIDs (yqkvpb/yqkvpb.pb.go:1270-1287) and the other fields of Args.
- gob snapshots, types.Any packing, deep copies, checkQuorum, waiting for an index to be applied.
- Rewriting the vote to None in convertToLeader and in a restart: see the reading of the vote rule above.
- A reply taken from the channel after its election was cancelled, which a Go select may still pick: dropped, as the cancelled context intends.
- RaftTheorems.StateMachineSafety: for clean runs, and not conversely; without the conditions it is false, see RaftVotes.LateVotesAreUnsafe, RaftConflict.UnsafeRunExists and RaftLaunch.UnfairLaunchIsUnsafe.
- RaftVotes.OneLeaderPerTerm: for fair launches and timely counts; RaftLaunch.UnfairLaunchIsUnsafe and RaftVotes.LateVotesAreUnsafe show it false without either.
- RaftVotes.OneVotePerTerm: for fair launches; RaftLaunch.FairExactlyWhenVotesStay says when votes stand in any run.
- RaftVotes.TimelyExactlyWhenCurrent: for fair launches; after an unfair one a vote of the current term may belong to an older election.
- RaftElection.CountVoteStep: for a vote counted in the term of its reply, see above.
- Handlers.InstallsExactly: for an installation that keeps no conflict, as in CleanRun.
- MigrationProgress.MoveCompletes: for a former owner that is a group and has entered the configuration; WaitsForever shows the first condition needed, and a group ahead of its source can only wait for it.
- Backoff.NothingJumped: above the leader's snapshot; Backoff.SnapshotDespiteAgreement shows that at it the code does turn back over an agreement, and sends a snapshot instead.
- AnswerRuns.RetryGetsTheAnswer: for clients that give a number to one command.
- RaftElection.LaunchStep: for fair launches, see above.
- GroupTheorems.ReplicasAgree: for gapless states, which runs at hand have; without that it is false, see GroupLoss.ReplicasCanDiffer.
- GroupMigration.ReplicaIsAtAState: takes it that the system's run commits, for the group, what its servers know to be committed: the two runs are put side by side, not one built from the other.
- RaftNode.Raft.CondInstallSnapshot: asks that a snapshot reaching a leader covers no more than its log, which Calls.SnapshotsFitLeader proves.
- RaftNode.Raft.countVote: asks for an election still being counted and a voter that has not answered it yet, as the collector has it.
- Replay.SnapshotThenOldQueue: for a queue that starts at or before the snapshot; Replay.QueueBeyondSnapshotLoses shows why.
- RaftNode.Raft.AppendEntries: asks for consecutive entries and no leader of the request's term, which Calls.RequestsAreInOrder proves of every delivered request, and for log lengths below 2^64; the answer is pinned down where terms ascend, as in every clean run.
- RaftNode.Raft.Restart: for numbers that fit their Go type, uint64, and commands that are bytes.
- CompactedLog.RaftLog.DiscardAfterAnd: a slice bound beyond the length but within the capacity, which Go allows, counts as a panic.
- CompactedLog.RaftLog.Search: which place it finds is left open for logs whose terms do not ascend; likewise what FirstEntryAtTerm, LastEntryAtTerm and onNotContain make of it.
- RaftNode.Raft.onSuccess: for replies of other servers, the only ones that are asked (raft/raft.go:482, 535).
- RaftNode.Raft.onNotContain: for replies of other servers; the new nextIndex is pinned down where terms ascend.
- Replicas.ShardKV.PullShards: the marshalling of the reply.
