# Verified model of a Raft key/value service, a lock, a shard balancer and MapReduce

This project models the hard parts of a set of distributed systems exercises in
Go and proves what they promise. Everything is a for-all statement: over every
run, every reachable state, every log, every configuration or every schedule.

**Raft** (`RaftTypes`, `RaftHandlers`, `Cluster`). A server is a peer, the
reader loop above it and the key/value machine. Each critical section is one
atomic step. The network is a growing set of messages: a lost message is never
picked, a late one is picked late, a duplicate is picked twice. A vote reply is
counted once per peer and term. A crash keeps only what the last save wrote;
a term raised in memory without a save is lost. The safety proof carries a ghost
history of reigns, votes, acknowledgements and commits (`History`, `Growth`,
`Completeness`, `Compaction`, the `*Steps` modules, `Runs`). `RaftSafety` states
the theorems about states and messages of runs only. `RaftEffects` states the
other half: what each step of a run does to entries, positions and messages.
`RaftPeer` is the peer as an object with loops and updates in place; each method
is proved to do what the handler of the safety proof does.

**Replicated machine and clerk** (`KvMachine`, `KvServer`, `KvModel`,
`SubmitAnswers`, `KvClerk`). Replies, snapshots, restarts and the deduplication
table all agree with a plain fold over one log, and that fold follows the
one-key specification used to judge histories. The clerk's reports are given
their meaning in terms of that log. The log order respects real time, so with
the answers it is a linearization of the submissions.

**Lock** (`KvStore`, `LockProtocol`, `LockSafety`, `LockTheorems`,
`LockClient`). Any number of clients run Acquire and Release through the clerk's
retry loop. Requests and replies may be lost, and a request may reach the server
at any later time. Each request is executed at most once.

**Shards** (`ShardSpec`, `ShardBalance`, `ShardConfig`). The configuration
object with its loops, proved against a function of the shards and group ids.

**MapReduce** (`MrSpec`, `MrWorker`, `MrCoordinator`, `MrRuns`). Coordinator,
any number of workers, and the sequential program as the specification.

Things the code does that a reader may not expect, kept as they are:

- An append request below the follower's snapshot is rejected without a hint;
  the leader then restarts at index 1. That is a step back exactly when the
  rejected index was not 0. At 0 the leader repeats the request until it has
  compacted its own log.
- A rejected append request can raise the term without saving it, so a term can
  drop across a crash. No vote or acknowledgement is lost by it.
- A match index can go down after a late snapshot answer. The proof uses that
  every match index is backed by an acknowledgement or by a commit.
- A waiter that gives up can delete the entry of a later waiter at the same
  index. That loses a reply and never misroutes one.
- A refused Join or Leave keeps the part it did before it was refused, and for
  Join that part depends on map order.

`dafny verify dfyconfig.toml` checks the whole project.

## Model

| member | source | states |
|---|---|---|
| `RaftSafety.StateMachineSafety` | src/raft1/raft.go:820-867 | One log explains the whole run: every server at every moment has committed and compacted prefixes of it, every delivered command or snapshot tells of it, and every machine is the fold of exactly the commands up to the position its last delivery or restart left it at (empty before the first). |
| `RaftSafety.LeaderCompletenessInRuns` | src/raft1/raft.go:497-517 | What any server has marked committed at any moment is held, in log or snapshot, by every leader of a later term at any moment. |
| `RaftSafety.LogMatchingInRuns` | src/raft1/raft.go:259-358 | Two servers that, at any two moments, hold an entry with the same index and term agree on every index up to there, across compaction. |
| `RaftSafety.ElectionSafety` | src/raft1/raft.go:700-818 | At most one server is ever leader in a term, at any two moments of a run with crashes and unsaved terms. |
| `RaftSafety.BackupInRuns` | src/raft1/raft.go:519-554 | A rejection with a hint, handled by the same-term leader, sets nextIndex between 1 and the rejected index. |
| `RaftSafety.NoHintRestarts` | src/raft1/raft.go:286-291 | A rejection without a hint makes the same-term leader resume at exactly 1, no later than the rejected index if and only if that was not 0; the next request is then a snapshot if and only if the leader has compacted, and starts at 0 otherwise. |
| `RaftSafety.FollowerCommitIsExact` | src/raft1/raft.go:347-351 | Every request sent has a commit index within the entries it sends, so the follower commits exactly up to the smaller of that index and the last sent entry. |
| `RaftSafety.IndicesInRange` | src/raft1/raft.go:102-211 | In every reachable state the indices are ordered, log and snapshot on disk are those in memory, a leader's nextIndex is within 1 and last index + 1, and the reads of the send and apply loops are in range. |
| `RaftSafety.AnswerInRange` | src/raft1/raft.go:497-517 | The append reply closure reads the log only inside its bounds in every run. |
| `RaftSafety.ApplyStreamOrder` | src/raft1/raft.go:820-867 | After a restart or delivery that leaves the machine at p, the next message is command p + 1 or a snapshot beyond p, whatever happens in between. |
| `RaftSafety.FirstMessage` | src/raft1/raft.go:982-985 | A machine that was never restarted and has had no message gets command 1 first, or a snapshot. |
| `Runs.RunHistory` | src/raft1/raft.go:957-991 | Every run has a history of reigns, votes, acknowledgements and commits that satisfies the invariant at every state. |
| `Runs.StepKeeps` | src/raft1/raft.go:259-940 | Every action of every server keeps the cluster invariant, for a history that only grows. |
| `Runs.InitInv` | src/raft1/raft.go:957-985 | A freshly made cluster of any size satisfies the invariant. |
| `RaftEffects.LeaderCommits` | src/raft1/raft.go:497-517 | A success handled by the same-term leader raises the sender's match index to what was sent and moves the commit index to the largest index a majority has reached, exactly when the entry there is held and of the leader's term; nothing else changes. |
| `RaftEffects.VoteGrantedIff` | src/raft1/raft.go:570-629 | A vote is granted if and only if the voter is in no later term, has cast no other vote in it, and the candidate's log when it stood was at least as recent as the voter's; the vote is saved with the answer. |
| `RaftEffects.TimeoutStands` | src/raft1/raft.go:713-740 | A timeout makes a candidate of the next term with its own vote saved and asks with the index and term of its last entry. |
| `RaftEffects.VoteCounted` | src/raft1/raft.go:757-809 | An answer counts once for its election; the candidate leads exactly when more than half the cluster is counted, and then sends from the end of its log. |
| `RaftEffects.RequestSent` | src/raft1/raft.go:736-756 | Every vote request in the network was sent by a timeout of its candidate, with the end of the candidate's log then. |
| `RaftEffects.LeaderSends` | src/raft1/raft.go:386-464 | A leader sends its snapshot to a peer behind it, and to any other every entry from the next index to the end. |
| `RaftEffects.CommandAppended` | src/raft1/raft.go:676-698 | A leader appends a submitted command in its own term, saves it, returns its index and the submitter waits there; any other peer does nothing. |
| `RaftEffects.AppendAnswered` | src/raft1/raft.go:259-325 | An append request succeeds if and only if it fits the log; otherwise the hint names the end of a short log, or the conflicting term with its first index, or nothing below the snapshot, and only the term may change, unsaved. |
| `RaftEffects.AppendAccepted` | src/raft1/raft.go:327-358 | A request that fits leaves every sent entry in place and all before untouched, saved; a log that had them all keeps its tail and any other ends with the last one sent. |
| `RaftEffects.LeaderBacksUp` | src/raft1/raft.go:519-554 | After a rejection the leader resumes at the end of a short log, after its own last entry of the conflicting term, or at the first index of that term. |
| `RaftEffects.AnswerOfOtherTerm` | src/raft1/raft.go:477-495 | An answer to an older call is ignored, and a higher term is followed and saved. |
| `RaftEffects.SnapshotTaken` | src/raft1/raft.go:187-211 | A snapshot compacts exactly up to the machine's position; the end of the log, the entries above and all positions stay. |
| `RaftEffects.SnapshotInstalled` | src/raft1/raft.go:882-940 | A snapshot not older in term or index replaces the log up to its index; entries above stay if and only if its last entry was known. |
| `RaftEffects.SnapshotAnswered` | src/raft1/raft.go:409-437 | The leader takes the peer to hold exactly the snapshot, even if it had been further. |
| `RaftEffects.BatchCollected` | src/raft1/raft.go:820-867 | The next batch is the snapshot for a peer behind it, and else every command up to the commit index, in order. |
| `RaftEffects.Restarted` | src/raft1/raft.go:957-991 | A restarted server is a follower with the saved term, vote, log and snapshot, standing at its snapshot, with nobody waiting. |
| `RaftEffects.RestartedInTerm` | src/raft1/raft.go:893-898 | A crash right after a higher term was saved restarts in that term with no vote cast. |
| `Completeness.LeaderCompleteness` | src/raft1/raft.go:570-629 | A committed entry is in the log every later leader was elected with. |
| `Completeness.RecentLogHolds` | src/raft1/raft.go:597-616 | The vote rule's log comparison makes a winner hold what its voter held. |
| `Completeness.VoterHolds` | src/raft1/raft.go:596-629 | A voter of a later leader that acknowledged a commit still has it when it votes. |
| `Completeness.QuorumsMeet` | src/raft1/raft.go:787-787 | Two majorities of the same cluster share a server, for every size. |
| `Completeness.LogMatching` | src/raft1/raft.go:327-342 | Two logs built from leaders' logs that have the same term at an index agree up to it. |
| `Completeness.CommittedAgree` | src/raft1/raft.go:509-514 | Of two committed prefixes the shorter is a prefix of the longer. |
| `LeaderSteps.MedianIsMajority` | src/raft1/raft.go:502-508 | Element (n-1)/2 of the sorted match indices is reached by a majority, and no larger index is. |
| `LeaderSteps.CommitRule` | src/raft1/raft.go:509-514 | What the commit rule marks is acknowledged by a majority in the leader's own term, or was committed before. |
| `LeaderSteps.BackupProgress` | src/raft1/raft.go:519-554 | Resuming after a rejection gives an index that can be sent from, and one at most the rejected index when there was a hint. |
| `LeaderSteps.LastOfTermBefore` | src/raft1/raft.go:532-547 | The leader's last entry of the conflicting term lies before the rejected index, by log matching. |
| `LeaderSteps.SentAppend` | src/raft1/raft.go:442-464 | A request carries the leader's log from nextIndex to its end, with a commit index within it. |
| `LeaderSteps.SentSnapshot` | src/raft1/raft.go:392-400 | A snapshot request carries the state of a committed prefix. |
| `LeaderSteps.StartNode` | src/raft1/raft.go:676-698 | A leader that accepts a command still satisfies the invariant, with the command at the index returned. |
| `ElectionSteps.WinnerIsFirst` | src/raft1/raft.go:777-807 | A candidate with a majority stands in a term that has no leader, and each counted voter voted for it. |
| `ElectionSteps.CastVote` | src/raft1/raft.go:596-628 | A granted vote is backed by a log as recent as the voter's and keeps what the voter acknowledged on record. |
| `ElectionSteps.StandNode` | src/raft1/raft.go:713-740 | Standing for election keeps the peer's invariant, with its own vote saved. |
| `FollowerSteps.AcceptedPointMatches` | src/raft1/raft.go:286-325 | A request that passes all checks starts at a point where follower and leader logs agree, also when that point is the follower's snapshot and no term is compared. |
| `FollowerSteps.MergedNode` | src/raft1/raft.go:327-354 | The log after the merge stands for the merged whole log, and the commit index is the smaller of the leader's and the last index. |
| `FollowerSteps.AcceptedLog` | src/raft1/raft.go:327-354 | An accepted request leaves a log that stands for the follower's log with the leader's prefix adopted. |
| `FollowerSteps.AcceptedNode` | src/raft1/raft.go:259-358 | A follower that accepts keeps its invariant: nothing acknowledged or committed is lost. |
| `FollowerSteps.InstalledNode` | src/raft1/raft.go:882-940 | A follower that installs a snapshot keeps its invariant. |
| `Compaction.EntryAt` | src/raft1/raft.go:164-174 | Every retained entry is where the logical index says. |
| `Compaction.MergeAdopts` | src/raft1/raft.go:327-342 | The merge keeps a log that already has the sent entries, tail included, and otherwise makes it exactly the leader's prefix. |
| `Compaction.MergeRepresents` | src/raft1/raft.go:327-342 | Merging into the compacted log is merging into the whole log it stands for. |
| `Compaction.SnapshotRepresents` | src/raft1/raft.go:187-211 | Taking a snapshot leaves the logical log and the term at the snapshot index unchanged. |
| `Compaction.InstallRepresents` | src/raft1/raft.go:905-923 | Installing a snapshot keeps the suffix exactly when the snapshot's last entry matches, and else leaves the leader's prefix. |
| `ServiceSteps.DeliveredService` | src/raft1/raft.go:820-867 | The next message of a batch continues the stream at the machine's position and leads to the state of the longer prefix. |
| `ServiceSteps.BootNode` | src/raft1/raft.go:957-991 | A peer restarted from its persister keeps its invariant, whatever unsaved term it had seen. |
| `RaftPeer.Peer.constructor` | src/raft1/raft.go:957-991 | Starting from a persister gives the recovered state with commit and apply positions at the snapshot. |
| `RaftPeer.Peer.Persist` | src/raft1/raft.go:102-122 | Saves log, term, vote, snapshot index, snapshot term and snapshot together. |
| `RaftPeer.Peer.StartElection` | src/raft1/raft.go:713-740 | Stands in the next term with its own vote saved, and asks with its last index and term. |
| `RaftPeer.Peer.RequestVote` | src/raft1/raft.go:570-629 | Does what the vote handler of the safety proof does, reply included. |
| `RaftPeer.Peer.VoteAnswer` | src/raft1/raft.go:757-809 | Counts one vote answer as the handler of the safety proof does. |
| `RaftPeer.Peer.BecomeLeader` | src/raft1/raft.go:787-803 | The loop sets every match index to 0 but its own, and every next index to last index + 1. |
| `RaftPeer.Peer.Start` | src/raft1/raft.go:676-698 | Appends and saves a command on a leader and returns its index; changes nothing elsewhere. |
| `RaftPeer.Peer.AppendRequest` | src/raft1/raft.go:442-464 | The copy loop sends the whole log suffix from nextIndex. |
| `RaftPeer.Peer.FirstOfTerm` | src/raft1/raft.go:360-369 | The scan finds the first real entry of a term, or -1. |
| `RaftPeer.Peer.AppendEntries` | src/raft1/raft.go:259-358 | Every branch does what the append handler of the safety proof does, hints included. |
| `RaftPeer.Peer.Accept` | src/raft1/raft.go:327-354 | Merging, following the commit index and saving do to the fields what the handler of the safety proof does. |
| `RaftPeer.Peer.MergeLog` | src/raft1/raft.go:327-342 | The merge loop in place equals the recursive merge. |
| `RaftPeer.Peer.AppendAnswer` | src/raft1/raft.go:473-554 | Every branch of the reply closure does what the handler of the safety proof does. |
| `RaftPeer.Peer.Acknowledge` | src/raft1/raft.go:497-502 | Records a success in the match and next indices. |
| `RaftPeer.Peer.BackUp` | src/raft1/raft.go:519-554 | Sets nextIndex of the peer alone to the backup index. |
| `RaftPeer.Peer.AdvanceCommit` | src/raft1/raft.go:503-514 | Moves the commit index to the largest index a majority has reached, if the entry there is of the leader's term and ahead, and nowhere else. |
| `RaftPeer.Peer.LastOfTerm` | src/raft1/raft.go:533-544 | The scan ends with the last real entry of a term. |
| `RaftPeer.Peer.Snapshot` | src/raft1/raft.go:187-211 | Compacts in place as the handler of the safety proof does. |
| `RaftPeer.Peer.Retained` | src/raft1/raft.go:907-917 | The scan keeps exactly what follows a matching entry. |
| `RaftPeer.Peer.InstallSnapshot` | src/raft1/raft.go:882-940 | Every branch does what the snapshot handler of the safety proof does. |
| `RaftPeer.Peer.Replace` | src/raft1/raft.go:900-933 | Puts the snapshot in place, keeps the matching suffix and saves. |
| `RaftPeer.Peer.SnapshotAnswer` | src/raft1/raft.go:403-437 | Handles a snapshot answer as the handler of the safety proof does. |
| `RaftPeer.Peer.Collect` | src/raft1/raft.go:820-867 | Collects the snapshot or the committed commands above lastApplied, in order. |
| `SubmitAnswers.AnswersFromOneLog` | src/kvraft1/rsm/rsm.go:100-216 | For every run one log explains all servers, deliveries and machine states, and a submitter answered OK got the result of its own operation at the index Start gave it, on the fold of all earlier commands; each channel gets at most one value; each operation is logged only at its own index; the log order respects real time; every delivery sends the waiter at its index exactly that result or, for another operation, a refusal, and nobody else anything. |
| `SubmitAnswers.RealTime` | src/kvraft1/rsm/rsm.go:100-158 | An operation submitted only after another one's result was sent gets a later index. |
| `SubmitAnswers.SignalledInRun` | src/kvraft1/rsm/rsm.go:195-211 | The submitter waiting at a delivered index gets exactly one value: the result on the commands before if the operation is its own, a refusal if not; no other channel changes. |
| `SubmitAnswers.OwnAnswer` | src/kvraft1/rsm/rsm.go:195-210 | When the delivered operation has the waiting id, the machine's answer to it is its result on the committed prefix. |
| `SubmitAnswers.StillWaiting` | src/kvraft1/rsm/rsm.go:120-149 | A submitter still registered after a delivery was not the one signalled, so none is signalled twice. |
| `SubmitAnswers.RsmStep` | src/kvraft1/rsm/rsm.go:100-216 | Every action keeps waiters on their own server and index and answers tied to executed commands. |
| `KvServer.KvServer.constructor` | src/kvraft1/server.go:173-189 | A new server has empty maps. |
| `KvServer.KvServer.DoOp` | src/kvraft1/server.go:46-84 | Updates the two maps in place and answers as the machine of the log does; an OK leaves the Put remembered. |
| `KvServer.KvServer.Snapshot` | src/kvraft1/server.go:86-101 | Saves both maps. |
| `KvServer.KvServer.Restore` | src/kvraft1/server.go:103-125 | Loads both maps, or changes nothing for an absent image. |
| `KvServer.Rsm.constructor` | src/kvraft1/rsm/rsm.go:74-91 | On a peer made from the persister it is the server a crash leaves in the cluster model: snapshot restored, nobody waiting. |
| `KvServer.Rsm.Submit` | src/kvraft1/rsm/rsm.go:108-122 | Submit up to its wait is the cluster's submission step, for every state of the rest of the cluster: the command is logged, the waiter registered at its index and the index returned on a leader, and nothing changes elsewhere. |
| `KvServer.Rsm.Read` | src/kvraft1/rsm/rsm.go:160-216 | One turn of the reader is the cluster's delivery step, signal included, followed by taking a snapshot exactly when the limit is exceeded and the index is above the last snapshot. |
| `KvModel.StateRefinesModel` | src/kvraft1/server.go:46-84 | For every log and key the stored value and version are those of the one-key specification run on that key's operations: deduplication is invisible to the state. |
| `KvModel.AnswerRefinesModel` | src/models1/kv.go:49-67 | An answer is admitted by the specification if and only if it is not to a Put that repeats the clerk's last effective Put on the key; such a repeat is answered OK where the specification says ErrVersion. |
| `KvModel.DedupIsLast` | src/kvraft1/server.go:51-66 | For every log, key and clerk the table has an entry if and only if a Put of that clerk on the key took effect by the specification, and it is the version of the last one. |
| `KvModel.PutAnswerIs` | src/kvraft1/server.go:51-74 | A Put is answered OK if and only if the specification is at its version or it repeats the clerk's last effective Put on the key, and ErrVersion otherwise. |
| `KvModel.GetAnswerIs` | src/kvraft1/server.go:75-80 | A Get is answered with the specification's value and version, or ErrNoKey if and only if no Put on the key took effect. |
| `KvModel.TookIsApplied` | src/kvraft1/server.go:60-66 | A Put takes effect by the machine's own test exactly when it does by the specification. |
| `KvModel.DedupAlways` | src/kvraft1/server.go:51-66 | After every log each remembered version is below the stored version of its key. |
| `KvModel.OkMeansAppliedOnce` | src/kvraft1/server.go:51-67 | A Put answered OK has been applied exactly once, for its own clerk, key and version. |
| `KvModel.ErrVersionMeansNotApplied` | src/kvraft1/server.go:60-74 | A Put answered ErrVersion changed nothing and found another version. |
| `KvModel.AppliedOnce` | src/kvraft1/server.go:60-66 | Each version of a key is written at most once in a log. |
| `KvModel.RememberedWasApplied` | src/kvraft1/server.go:62-66 | Every remembered Put was applied by that clerk at some place in the log. |
| `KvModel.VersionsGrow` | src/kvraft1/server.go:60-66 | A key's version never goes down along a log. |
| `KvClerk.ReportIsHonest` | src/kvraft1/client.go:61-100 | For every run: OK means exactly one Put wrote the version and it was this clerk's; ErrVersion comes on the first call only and the Put was definitely not performed; ErrMaybe needs a repeated call. |
| `KvClerk.Clerk.constructor` | src/kvraft1/client.go:19-23 | A new clerk starts at server 0. |
| `KvClerk.Clerk.Put` | src/kvraft1/client.go:78-100 | The retry loop ends at the first OK or ErrVersion, reports ErrVersion on a repeat as ErrMaybe, and moves on one server for every other outcome. |
| `KvClerk.Clerk.Get` | src/kvraft1/client.go:39-59 | The retry loop ends at the first value or ErrNoKey and moves on one server for every other outcome. |
| `KvClerk.OkInLog` | src/kvraft1/server.go:51-67 | An OK at a log index means one place in the whole log wrote the version, for that clerk. |
| `KvClerk.ErrVersionInLog` | src/kvraft1/server.go:60-74 | An operation logged once and answered ErrVersion took effect nowhere in the log. |
| `LockTheorems.MutualExclusion` | src/kvsrv1/lock/lock.go:40-78 | In every run at most one client of a lock is between Acquire's return and its Release taking effect, and then the key holds that client's value and version. |
| `LockTheorems.HeldUntilReleased` | src/kvsrv1/lock/lock.go:40-78 | A holding ends with a step if and only if that step executes the holder's own Release. |
| `LockTheorems.OthersCannotFree` | src/kvsrv1/lock/lock.go:69-78 | A Put of another client, a stale or never-acquired Release included, leaves a held lock's key unchanged and is answered ErrVersion. |
| `LockTheorems.ReleaseTakesEffectOnce` | src/kvsrv1/lock/lock.go:69-78 | When the holder's Release returns, exactly one of its Puts was performed, right after the holder's version, and the clerk says OK or ErrMaybe. |
| `LockTheorems.TakeReportIsExact` | src/kvsrv1/client.go:61-77 | For an Acquire's Put the clerk's OK means performed and ErrVersion means never performed. |
| `LockTheorems.AcquireReturnsIffTaken` | src/kvsrv1/lock/lock.go:48-66 | An attempt makes Acquire return if and only if its Put was performed, however answers were lost. |
| `LockTheorems.PollIsFollowed` | src/kvsrv1/lock/lock.go:48-52 | A polling client's next request is its Put at the version read if and only if the key is missing or reads released, and otherwise another Get. |
| `LockTheorems.PutIsFollowed` | src/kvsrv1/lock/lock.go:52-63 | After its Put a client holds the lock at the next version on OK, reads the key back if a repeated call brought ErrVersion, and polls again if the first did. |
| `LockTheorems.EndIsFollowed` | src/kvsrv1/lock/lock.go:57-78 | Reading back its own value the client holds the lock at that version, and otherwise polls again; the answer to a Release ends it. |
| `LockTheorems.CallsBegin` | src/kvsrv1/lock/lock.go:40-72 | Acquire begins with a Get and Release with the Put that frees the key at the lock's version. |
| `LockTheorems.CallsRepeat` | src/kvsrv1/client.go:61-77 | A call that brings nothing is made again, the same. |
| `LockTheorems.ServerAnswers` | src/kvsrv1/server.go:40-86 | A Get is answered with the last accepted Put and their number; a Put is accepted if and only if its version is that number; refused Puts change nothing. |
| `LockTheorems.RunInv` | src/kvsrv1/lock/lock.go:33-78 | The lock invariant holds in every state of every run. |
| `LockSafety.StepKeeps` | src/kvsrv1/lock/lock.go:40-78 | Every step of any client, the server or the network keeps the lock invariant. |
| `LockSafety.OnlyOwnRelease` | src/kvsrv1/server.go:58-86 | A Put that fits while a client's value is the newest is that client's own Release. |
| `LockSafety.FoundOwn` | src/kvsrv1/lock/lock.go:57-63 | Reading back its own value tells a client that this very Put took the lock and is still the newest. |
| `KvStore.Server.constructor` | src/kvsrv1/server.go:32-36 | A new server stores nothing. |
| `KvStore.Server.HandleGet` | src/kvsrv1/server.go:40-52 | Answers with value and version, or ErrNoKey. |
| `KvStore.Server.HandlePut` | src/kvsrv1/server.go:58-86 | Stores on the matching version, or a new key on version 0; else ErrVersion or ErrNoKey and no change. |
| `LockClient.Clerk.Get` | src/kvsrv1/client.go:30-42 | The retry loop returns the first answer. |
| `LockClient.Clerk.Put` | src/kvsrv1/client.go:61-77 | The retry loop returns the first answer, ErrVersion on a repeat reported as ErrMaybe. |
| `LockClient.Lock.constructor` | src/kvsrv1/lock/lock.go:33-38 | A lock object keeps its name and its random value and starts at version 0. |
| `LockClient.Lock.Acquire` | src/kvsrv1/lock/lock.go:40-67 | The polling loop follows the protocol's client call by call; read off the calls, an attempt starts exactly at a Get that finds the key missing or released, an OK takes the lock at that version plus one, and an unclear Put is settled by reading the own value back. |
| `LockClient.Lock.Poll` | src/kvsrv1/lock/lock.go:48-64 | One poll, with an attempt if and only if the answer says the lock is free to try. |
| `LockClient.Lock.Take` | src/kvsrv1/lock/lock.go:51-63 | One attempt: the Put and, when its report is unclear, the settling Get. |
| `LockClient.Lock.Settle` | src/kvsrv1/lock/lock.go:57-63 | The settling Get takes the version read when the value is the lock's own. |
| `LockClient.Lock.Release` | src/kvsrv1/lock/lock.go:69-78 | Ends with the first answer of its Put and reports what the protocol's client reports. |
| `ShardConfig.Config.Rebalance` | src/shardkv1/shardcfg/shardcfg.go:122-154 | Ends, and leaves shards that depend on the old shards and the group ids alone, not on map order. |
| `ShardConfig.Config.JoinBalance` | src/shardkv1/shardcfg/shardcfg.go:207-213 | Succeeds exactly for new groups without shared servers; then all shards are served and balanced; from a balanced configuration shards move only from old to joining groups and no balanced assignment moves fewer. |
| `ShardConfig.Config.LeaveBalance` | src/shardkv1/shardcfg/shardcfg.go:215-221 | Succeeds exactly for distinct present groups; then all shards are served and balanced, or 0 with no group left; from a balanced configuration exactly the leaving groups' shards move. |
| `ShardConfig.Config.Analyze` | src/shardkv1/shardcfg/shardcfg.go:80-111 | Finds the most and least loaded groups with their loads, smallest id on ties; -1, -1, -1, 257 without groups. |
| `ShardConfig.Config.Counts` | src/shardkv1/shardcfg/shardcfg.go:81-84 | Counts the shards of every group id. |
| `ShardConfig.Config.SortedIds` | src/shardkv1/shardcfg/shardcfg.go:90-98 | Lists the group ids in increasing order, whatever the map order. |
| `ShardConfig.Config.AssignOrphans` | src/shardkv1/shardcfg/shardcfg.go:131-138 | Gives each unserved shard to the least loaded group at that moment. |
| `ShardConfig.Config.EvenOut` | src/shardkv1/shardcfg/shardcfg.go:140-153 | Moves one shard at a time from most to least loaded until they differ by at most one. |
| `ShardConfig.Config.MoveFirst` | src/shardkv1/shardcfg/shardcfg.go:146-152 | Moves the first shard of a group. |
| `ShardConfig.Config.Clashes` | src/shardkv1/shardcfg/shardcfg.go:164-172 | Tells whether a configured group has one of the servers. |
| `ShardConfig.Config.Join` | src/shardkv1/shardcfg/shardcfg.go:156-183 | Succeeds exactly when something joins, nothing is present already and no server is shared; otherwise part may have been added and the number stays. |
| `ShardConfig.Config.Leave` | src/shardkv1/shardcfg/shardcfg.go:185-205 | Succeeds exactly when some, all present and distinct, groups leave; otherwise those before the first bad name are gone and the number stays. |
| `ShardConfig.Config.constructor` | src/shardkv1/shardcfg/shardcfg.go:44-49 | A new configuration has no groups and all shards at 0. |
| `ShardSpec.MoveLowersPairs` | src/shardkv1/shardcfg/shardcfg.go:141-153 | Moving a shard to a group with at least two fewer lowers the number of pairs of shards in one group. |
| `ShardSpec.PairsAreSquares` | src/shardkv1/shardcfg/shardcfg.go:141-153 | With every shard in a listed group, the number of pairs is the sum of the squared loads, so each move of the loop lowers that sum. |
| `ShardBalance.RebalancedIsBalanced` | src/shardkv1/shardcfg/shardcfg.go:122-154 | With a group, every shard is served and loads differ by at most one; with none, all shards are 0. |
| `ShardBalance.RebalanceIsIdle` | src/shardkv1/shardcfg/shardcfg.go:122-154 | A balanced, fully served configuration is left as it is. |
| `ShardBalance.JoinMovesLeast` | src/shardkv1/shardcfg/shardcfg.go:207-213 | From a balanced configuration a join moves shards from old to joining groups only, none twice, and as few as any balanced assignment can. |
| `ShardBalance.LeaveMovesOrphansOnly` | src/shardkv1/shardcfg/shardcfg.go:215-221 | From a balanced configuration a leave moves exactly the leaving groups' shards and the second loop does nothing. |
| `ShardBalance.EvenedMovesForward` | src/shardkv1/shardcfg/shardcfg.go:140-153 | While joining groups fill up, every move goes from an old group to a joining one and no shard moves twice. |
| `ShardBalance.FillingIsLeast` | src/shardkv1/shardcfg/shardcfg.go:140-153 | If no joining group has more than an old one, no balanced assignment gives the joining groups fewer shards. |
| `ShardBalance.ChoicesUnique` | src/shardkv1/shardcfg/shardcfg.go:86-108 | The least and the most loaded group are unique once ties go to the smaller id. |
| `MrRuns.JobEqualsSequential` | src/mr/coordinator.go:56-181 | Whenever the job is done, for every schedule of assignments, time-outs, duplicates, late completions and crashes, the output files together hold exactly the lines of the sequential program. |
| `MrRuns.DoneStays` | src/mr/coordinator.go:148-153 | Once the job is done it stays done. |
| `MrRuns.DoneIffReported` | src/mr/coordinator.go:56-85 | The job is done if and only if every map and every reduce task has been reported. |
| `MrRuns.FinishedIff` | src/mr/coordinator.go:56-70 | A task is finished if and only if it has been reported; nothing unfinishes it. |
| `MrRuns.ReportIffCompleted` | src/mr/worker.go:60-66 | A task can be reported if and only if some worker completed it. |
| `MrRuns.WorkerSteps` | src/mr/worker.go:50-178 | What each step of a worker does: start the task handed out, rename one bucket, read one file, complete with the output in place. |
| `MrRuns.ReducesFollowMaps` | src/mr/coordinator.go:108-130 | Reduce work of any kind exists only when all maps are finished, and every file a reduce reads is there and complete. |
| `MrRuns.StepKeeps` | src/mr/worker.go:40-178 | Every step of coordinator and workers keeps the job invariant. |
| `MrRuns.RunInv` | src/mr/coordinator.go:186-208 | The job invariant holds in every state of every run. |
| `MrSpec.GroupedIsLines` | src/mr/worker.go:108-126 | On sorted pairs the group loop reduces each distinct key once with all its values. |
| `MrSpec.OutputIsLines` | src/main/mrsequential.go:61-86 | Whatever order an unstable sort leaves equal keys in, the lines are the same for an order-insensitive reduce function. |
| `MrSpec.BucketsAreWhole` | src/mr/worker.go:156-166 | Reducing bucket by bucket gives exactly the lines of reducing everything at once. |
| `MrSpec.BucketHolds` | src/mr/worker.go:156-166 | A bucket holds exactly the pairs of its keys and all values of each. |
| `MrSpec.GatheredIsBucket` | src/mr/worker.go:77-96 | What a reduce task gathers is its bucket of everything emitted, in order. |
| `MrWorker.MapTask` | src/mr/worker.go:132-166 | The bucketing loop puts every pair in the bucket of its key, in order. |
| `MrWorker.ReduceTask` | src/mr/worker.go:77-130 | Fails exactly when a file is missing; otherwise writes one line per distinct key with all its values. |
| `MrWorker.ReduceRuns` | src/mr/worker.go:108-126 | The two-index loop writes one line per run of equal keys. |
| `MrWorker.NextRun` | src/mr/worker.go:111-120 | The inner loops find the end of a run and collect its values. |
| `MrWorker.Sequential` | src/main/mrsequential.go:38-86 | Writes one line per distinct key of everything emitted, with all its values. |
| `MrCoordinator.Coordinator.constructor` | src/mr/coordinator.go:186-202 | All tasks start pending. |
| `MrCoordinator.Coordinator.AssignTask` | src/mr/coordinator.go:87-144 | Hands out the first pending map, reduces only after all maps, Exit exactly when the job is done, and Wait otherwise. |
| `MrCoordinator.Coordinator.TasksDone` | src/mr/coordinator.go:56-70 | Marks exactly the reported task as finished; every other status and all stamps stay. |
| `MrCoordinator.Coordinator.WaitCheck` | src/mr/coordinator.go:72-113 | True exactly when no map can be handed out and not all are finished; then the only task that can be assigned is Wait. |
| `MrCoordinator.Coordinator.EndCheck` | src/mr/coordinator.go:80-85 | True exactly when every task is finished. |
| `MrCoordinator.Coordinator.TimeOutCheck` | src/mr/coordinator.go:155-175 | One pass makes exactly the overdue tasks in progress pending, in any map order, and touches no finished task. |
| `MrCoordinator.Coordinator.Overdue` | src/mr/coordinator.go:158-169 | The loop over time stamps in any order makes exactly the overdue tasks pending. |

## Left out

- Timers, sleeps, random durations and goroutine scheduling are nondeterministic steps; no liveness or timing is claimed.
- Submit's waiting loop and its ticker: giving up is a step that may happen at any time.
- Encoding and decoding: snapshots and saved state are values, so a lossless codec is assumed. A decode error is not modelled.
- The size test that triggers snapshots: its outcome is a parameter, and in runs a server may take a snapshot at any moment.
- Operation ids, lock values and clerk ids are drawn at random; the model requires fresh operation ids and distinct lock values other than "released".
- Integer widths of terms, indices and versions.
- The network simulator, the tester packages, the sharded key/value client, controller and group stubs, and the process entry points.
- Partition of the history checker: the requests of one key in log order are given by a filter. The listing of the parts by sorted key is not modelled; the checker judges each part alone, so its order bears on no result.
- The checker's Step for a Put to a missing key of the single server: the single server answers ErrNoKey there, which the checker's specification does not admit, so no refinement is claimed for it.
- Client-level linearizability of a clerk that reuses one key and version for two different values: the second is answered OK.
- Files of MapReduce are a map with atomic rename; names, JSON and temporary files are not modelled, and the hash is an arbitrary function.
- MapReduce jobs with 0 reduce tasks: a map task that emits anything then divides by zero, so the number of reduce tasks is taken to be positive.
- Copy, String, FromString, CheckConfig and the lookups of a shard configuration: no balancing step uses them.
- ShardConfig.Config.Rebalance: is stated for up to 256 shards, because the search for the least loaded group starts from 257; the program has 12.
- LockClient.Lock.Acquire: its loop runs over a given finite sequence of call outcomes and may end still waiting, since the original may poll forever.
- KvClerk.Clerk.Put: its loop runs over a given finite sequence of call outcomes and may end still waiting.
- KvClerk.Clerk.Get: its loop runs over a given finite sequence of call outcomes and may end still waiting.
- MrCoordinator.Coordinator.TasksDone: is stated for tasks that exist; an unknown id would be an index error.
