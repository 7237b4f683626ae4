# Hexalog, modelled and proved

Hexalog keeps, for every key, a log of entries that name their predecessors by hash. The nodes of a key's peer set agree on
the next entry in two phases of unanimous voting, without a leader and without locking the key. This project models that
system in Dafny, bottom up:

| layer | files | what it holds |
|---|---|---|
| values and hashing | HexTypes, EntryHash, Chains | entries, the byte string an id is the hash of, hash-chained logs |
| the log store | KeylogIndex, KeyOrder, StoreSpec, LogStore | the index and entry stores as objects, and the map from keys to logs they stand for |
| ballots | Ballot | one vote, as a value and as an object over arrays |
| a node | Node, Answer, Hexalog, Health, Race | the handlers as functions of the node's state, what they answer, the node object whose methods are proved to compute them, and several threads at the end of one ballot |
| a cluster | Cluster, NodeSafety, Divergence, CommitOrder, Round, Reply, Told | nodes, queues, broadcasters and messages as a step relation, and what holds in all its runs: safety, what rounds end with, what replies stand for, what waiting clients are told |
| termination | Flow, NodeFlow, Completion, Termination, Applied | completion when nothing fails, the end of all runs whatever fails, what appends hand over |
| forks | Fork, ForkInRun | how the logs of one key come to differ, and exactly when they can |
| catching up | CatchUp, Heal, HealInRun | pulling a key log, seeding, choosing the tallest log, healing |
| the state machine | Replay, Fsm, Restart | applying entries, replaying them after crashes, and both within the runs of a cluster |

Code that updates objects is modelled by classes with `Valid()` predicates (`UnsafeKeylogIndex`, the in-memory stores,
`Keylog`, `LogStore`, `Ballot`, `Hexalog`, `Fsm`); every method's postcondition equates the new abstract state with a
function of the old one, and the theorems are about those functions. An operation of `LogStore` or `Hexalog` often comes as
two methods, one on the objects as they are and one on the abstract state.

The steps of a cluster (`Clusters.Label`) are: a client proposes any entry, with any source index; a broadcaster takes its
next request; a request is handled; a reply arrives; a broadcaster sees a transport error; a message is lost; a ballot times
out; ballots are reaped; a node crashes and restarts with its log; an entry of another node's log arrives by a pull. A run
starts with empty logs and takes any of these steps in any order.

Hypotheses, and where they enter:

- Ids of entries in use do not collide, are never all zeros, and `Previous` always has the length of an id
  (`Chains.Sound`; `EntryHash.DigestIsSound` derives it from the same statement about the digest alone). Keys in use have to
  be of one length for this: the pre-image has no separator between key and data, and `EntryHash.KeysCanCollide` gives two
  different entries with one pre-image.
- Every key has one fixed peer set of at least two distinct, named hosts (`Clusters.PeersOk`). With a single peer no append
  is ever attempted (`Ballots.SinglePeerNeverAttempts`), because the first vote is always taken for the one to broadcast.
- Each handler is one step; only in `Races` do threads interleave within one.

Where the code and what is said about it differ, the code is followed: `RollbackEntry` on an empty log reports an error and
still removes the key; a pull goes on after an entry is turned down, which is why the resent last entry does no harm; a
ballot that times out is closed with a nil error, and answers later votes with the error for closed ballots; a seed for the
empty key is never served, so nothing is copied for that key.

## Model

| member | source | states |
|---|---|---|
| EntryHash.PreimageRoundTrip | entry.go:43-53 | the bytes an id is computed from decode back to the entry, for data of any length, once the lengths of id and key are known |
| EntryHash.PreimageLayout | entry.go:43-53 | where each field lies in these bytes, numbers with their most significant byte first |
| EntryHash.SamePreimage | entry.go:43-53 | for equal id and key lengths, two entries have the same pre-image if and only if they are the same entry |
| EntryHash.KeysCanCollide | entry.go:43-53 | two entries with keys of different lengths, both fit to be first in their logs, can have one pre-image, for any length of ids |
| EntryHash.DigestIsSound | entry.go:43-53 | a collision-free, never-zero digest makes the ids of entries with keys of one length sound |
| EntryHash.HashFunc.Hash | entry.go:43-53 | the successive writes feed exactly the pre-image to the digest |
| Chains.IsZeroBytes | keylogindex.go:140-147 | true just for an id of zeros |
| Chains.SameLast | ukeylogindex.go:21-43 | the last id of a log determines the whole log |
| Chains.LogMatching | ukeylogindex.go:21-43 | one id in two logs of a key is at one position, with identical logs up to it |
| Chains.NoRepeats | ukeylogindex.go:21-43 | no id occurs twice in a log |
| Chains.FollowsOnlyItsPrefix | ukeylogindex.go:31-43 | an entry of one log can follow another log if and only if that log is what lies below the entry |
| KeylogIndexes.UnsafeKeylogIndex.Append | ukeylogindex.go:21-43 | appends exactly when the previous id is the last one, or all zeros for an empty log; height counts up modulo 2^32, and a marker naming the id is cleared |
| KeylogIndexes.UnsafeKeylogIndex.SetMarker | ukeylogindex.go:46-52 | marks exactly when the id is not in the index |
| KeylogIndexes.UnsafeKeylogIndex.Contains | ukeylogindex.go:55-62 | found just when the id is among the entries |
| KeylogIndexes.UnsafeKeylogIndex.Rollback | ukeylogindex.go:75-90 | drops the last id and sets the Lamport time back only to a positive smaller one |
| KeylogIndexes.UnsafeKeylogIndex.Iter | ukeylogindex.go:99-127 | visits the ids from the first occurrence of the position on, until the callback fails; an unknown position is an error |
| KeylogIndexes.RollbackUndoesAppend | ukeylogindex.go:75-90 | rolling back an append restores ids and height always, the marker unless the append cleared it, and the time exactly when the times ascend |
| LogStores.InMemEntryStore.Delete | store_entry.go:47-59 | removes the entry; an error just when there was none |
| LogStores.InMemIndexStore.NewKey | store_index.go:28-43 | a new key gets an empty index of its own; an existing one is an error and stays |
| LogStores.InMemIndexStore.MarkKey | store_index.go:46-63 | marks an index that lacks the entry, or creates a marked one |
| LogStores.InMemIndexStore.RemoveKey | store_index.go:79-91 | removes just this key |
| LogStores.InMemIndexStore.SortedKeys | store_index.go:116-125 | all keys, each once, in ascending order of their bytes |
| KeyOrders.BelowIsLexicographic | store_index.go:116-125 | that order: the shorter one of two keys if it is a prefix, else the one with the smaller byte at the first difference |
| LogStores.Keylog.AppendEntry | keylog.go:51-64 | the entry is stored whether or not the index accepts its id |
| LogStores.Keylog.RollbackEntry | keylog.go:74-101 | refuses all but the last entry; deletes it from store and index and restores the time of the one before |
| LogStores.Keylog.Iter | keylog.go:105-116 | hands the stored entries of the ids from the position on to the callback, until it fails or an id has no entry |
| LogStores.LogStore.NewKey | logstore.go:38-45 | adds an empty log for a new key and changes no other |
| LogStores.LogStore.LastEntry | logstore.go:88-102 | the last entry of the key's log, if there is one |
| LogStores.LogStore.NewEntry | logstore.go:105-129 | names the last id, or zeros for a first entry, and is one higher than the log is long, modulo 2^32; the store accepts it if the key exists |
| StoreSpec.NextIsAccepted | logstore.go:105-129 | appended to the log it was made from, it is the last entry, and its height is the length of the log; so these are entries `Divergence.HeightIsPosition` is about |
| LogStores.LogStore.AppendEntry | logstore.go:175-182 | on the two stores, exactly the append on the map from keys to logs |
| LogStores.LogStore.RemoveKey | logstore.go:58-80 | removes the key without an error if it exists, and leaves all other logs |
| LogStores.LogStore.RollbackEntry | logstore.go:133-150 | takes the last entry off, and the key with its last entry |
| LogStores.LogStore.IterKeySeed | logstore.go:153-172 | hands one seed per key, in ascending order of the keys, with its marker or else its last id, its height and its time, to the callback, until that fails; without a failure these are seeds from which the store can be copied (`CatchUp.SeedReproduces`), and else those of the keys up to the one that failed |
| LogStores.LogStore.PullKeylogRPC | net.go:272-307 | streams the key's log from the requested id on; empty key, unknown key and unknown id are errors |
| StoreSpec.ServedEnd | net.go:272-307 | which error exactly when; else an end of the log, from the first entry with the requested id on |
| StoreSpec.AppendRefines | logstore.go:175-182 | an append is accepted exactly when it follows the last entry; then only that log grows, by that entry, and every indexed id still resolves to the right entry |
| StoreSpec.AppendOutcome | logstore.go:175-182 | exactly when an append is refused, with which error; and that it changes the one log and its marker only |
| StoreSpec.RemoveRefines | logstore.go:58-80 | removal deletes exactly the key's indexed entries; no other key needs any of them |
| StoreSpec.RollbackRefines | logstore.go:133-150 | rollback on the stores is rollback on the map from keys to logs, in all cases |
| StoreSpec.RollbackOutcome | logstore.go:133-150 | exactly when a rollback is refused, with which error; an accepted one takes just the last entry off the log |
| StoreSpec.StoresMatch | keylog.go:51-64 | log matching holds between the indexes of any two stores |
| StoreSpec.RunsUndone | keylog.go:51-101 | fresh appends rolled back in reverse restore both stores, but for the marker, gone exactly if it named one of the entries, and the time, which becomes the least positive one along the run, or zero if the last one was |
| StoreSpec.TimeComesBack | ukeylogindex.go:75-90 | exactly when that time is the one before |
| StoreSpec.RunsFromEmptyRemoveKey | logstore.go:133-150 | from an empty log the same run ends with the key removed |
| Ballots.SingleAttempt | ballot.go:115-186 | for two or more peers, in any order and with any repetitions of votes, the append is attempted once, at the vote that completes both tallies, and no open ballot has both full |
| Ballots.SinglePeerNeverAttempts | hexalog_utils.go:231-246 | with one peer the append is never attempted |
| Ballots.CountVotesIn | ballot.go:239-247 | counts the entries that name a voter |
| Ballots.Ballot.VotePropose | ballot.go:115-147 | tallies a vote once, starts the timer with the first, refuses on a wrong id, and on a closed ballot with its error |
| Ballots.Ballot.VoteCommit | ballot.go:161-186 | the same for commit votes, without a timer |
| Ballots.Ballot.Close | ballot.go:204-227 | closes once, recording and signalling the error; an open ballot must have its timer |
| Nodes.ProposalAttempts | hexalog.go:262-289 | the propose handler enters the vote and attempts the append at the very votes that `SingleAttempt` is about, and closes the ballot with the outcome |
| Nodes.CommitAttempts | hexalog_utils.go:231-274 | so does the commit handler |
| Nodes.SelfIndex | hexalog_utils.go:189-196 | the first position of the host, none just when it is not a peer |
| Hexalogs.Hexalog.GetSelfIndex | hexalog_utils.go:189-196 | the loop finds that position |
| Hexalogs.Hexalog.VerifyEntry | hexalog_utils.go:76-111 | reads the height of the last entry and the reason an entry cannot come next |
| Hexalogs.Hexalog.Propose | hexalog.go:182-292 | on the objects, exactly the proposal step of the node, errors included |
| Answers.AnswerToProposal | hexalog.go:182-292 | the answer to every proposal: too few peers, not a peer, degraded key, wrong previous id, the error of a closed ballot, or none |
| Answers.RefusedProposal | hexalog.go:203-226 | an entry that cannot come next: if it is higher than the log, exactly one heal request is queued, for the entry and its peers, and nothing else happens; if not, its ballot is closed with the reason, whoever waits on it is told, and no heal is queued |
| Answers.AcceptedProposal | hexalog.go:228-292 | a proposal answered without an error leaves the source's vote on an open ballot of the entry, and the node's own on a new one |
| Answers.NewProposal | hexalog_utils.go:205-228 | the first proposal of an entry queues exactly one broadcast, with the node's own index, and changes no log |
| Hexalogs.Hexalog.Commit | hexalog.go:295-355 | on the objects, exactly the commit step of the node, errors included |
| Answers.AnswerToCommit | hexalog.go:295-355 | the answer to every commit: without a ballot it is that none was found, and nothing changes; a closed ballot answers with its error |
| Answers.AcceptedCommit | hexalog.go:308-355 | a commit answered without an error has found an open ballot and left the node's own and the source's commit vote on it |
| Hexalogs.Hexalog.CheckVotesAndCommit | hexalog_utils.go:248-274 | appends, hands to the FSM and closes exactly when both tallies agree |
| Hexalogs.Hexalog.QueueBroadcastOrCommit | hexalog_utils.go:231-246 | the first vote queues a broadcast, the last one checks for a commit |
| Hexalogs.Hexalog.UpsertKeyAndBroadcast | hexalog_utils.go:205-228 | creates the key below height one and queues the proposal |
| Hexalogs.Hexalog.BallotGetClose | hexalog_utils.go:199-203 | closes the ballot if there is one |
| Hexalogs.Hexalog.TimeOut | ballot.go:189-197 | a firing timer closes its ballot without recording an error, signals that time has run out, and changes nothing else |
| Hexalogs.Hexalog.ReapBallotsOnce | hexalog_utils.go:144-158 | drops exactly the closed ballots and counts them |
| Hexalogs.Hexalog.New | hexalog.go:168-172 | the next entry of the key, with the time of the clock |
| Hexalogs.Hexalog.Append | hexalog_utils.go:64-72 | an accepted entry is handed to the FSM, a refused one changes nothing |
| Hexalogs.Hexalog.PullKeylog | net.go:220-269 | receives what is served, entry by entry, whatever single appends report |
| Hexalogs.Hexalog.CheckLastEntryOrPull | hexalog_utils.go:14-58 | creates the key if needed and pulls just when the last ids differ |
| Hexalogs.Hexalog.Heal | heal.go:7-35 | pulls from the leader, unless there is none, it has nothing, or it is the node itself |
| Hexalogs.ProposeHealthy | ballot.go:189-227 | a proposal never leaves an open ballot without a timer, so that no later close misses one |
| Hexalogs.CommitHealthy | ballot.go:189-227 | nor does a commit |
| NodeHealth.RunIsHealthy | hexalog.go:182-355 | in every reachable state all open ballots have their timers and both handlers can be called for any entry in use |
| NodeHealth.ExpireIsTimeOut | ballot.go:189-197 | that change is the time-out step of a cluster, which in a reachable state is possible just for the open ballots of a node |
| Races.RaceOutcome | hexalog_utils.go:248-274 | any number of threads that commit one ballot at once, while others append and the timer fires: one append at most is accepted, and the entry goes to the FSM once if it is in the log; a committed entry ends with a ballot without error if and only if no thread but the committing one was the last to set it |
| Races.OneThreadIsTheHandler | hexalog_utils.go:248-274 | a single thread, undisturbed, does what the handler does in one step |
| Races.LateThreadSpoils | ballot.go:204-227 | with two threads the ballot of a committed entry can be closed with the error for a wrong previous hash |
| Divergence.DivergenceIsOneDeep | hexalog_utils.go:248-274 | in every reachable state the logs of a key at two of its peers differ in their last entries at most, whatever proposals compete and whatever is lost, times out, is reaped, crashes or is pulled |
| Divergence.ComparableWithoutRivals | hexalog_utils.go:76-111 | if no two entries compete for the place after one well-formed log, one of two logs of a key is always a prefix of the other |
| ForksInRuns.ForkReached | hexalog.go:182-355 | any two entries that do compete for the place after any well-formed log can end up as the last entries of equally long logs at two peers, in a run without a failure, loss, time-out, pull or restart, with any number of peers |
| ForksInRuns.ForksJustWithRivals | hexalog.go:182-355 | so logs of a key can fork in some run if and only if two entries in use compete for the place after one well-formed log, and the key has the configured minimum of peers |
| ForksInRuns.NothingLogged | hexalog_utils.go:180-186 | with fewer peers nothing is ever logged |
| Forks.ForkAhead | broadcast.go:88-185 | from any state in which all logs agree and nothing is going on, the steps to that fork: whole rounds of proposals and commits, then two crossing commit votes |
| Divergence.Unanimity | hexalog.go:203-240 | when a log grows other than by a pull, every peer had verified that the entry came right after its own last one and opened a ballot, and had later cast its own commit vote |
| Divergence.HandlersAreCallable | hexalog.go:228-240 | in a reachable state every request and reply, and every client proposal whose source index is below the size of the peer set, meets a ballot of the right size |
| Divergence.LogsAreChains | ukeylogindex.go:21-43 | every log in a reachable state is a well-formed chain |
| Divergence.HeightIsPosition | logstore.go:105-129 | if every entry was created from some node's log, heights are positions at every node, although no append checks them |
| Divergence.GrowthIsNear | hexalog.go:203-240 | the inductive heart of the bound: what lies below a voted or pulled entry is held by every peer |
| Rounds.RoundBegins | broadcast.go:38-67 | a broadcaster takes its oldest request and sends it to every other peer, and to no one else, with the node's own index |
| Rounds.RequestAnswered | broadcast.go:13-35 | the reply to a request carries the answer of the node that has handled it |
| Rounds.FailedRound | broadcast.go:88-185 | after a transport error or a reply with an error the ballot of the round's entry is closed; if it was open, that error is recorded and told to whoever waits; nothing else changes |
| Rounds.ProposedRound | broadcast.go:99-104 | after a successful proposal round the node commits the entry itself, and closes the ballot if its own commit is refused |
| Rounds.CommittedRound | broadcast.go:156-163 | a successful commit round changes nothing |
| Rounds.OtherReply | broadcast.go:73-80 | a reply that is not the last one only takes its sender off those waited for, and one to another round does nothing |
| Rounds.LogSurvives | hexalog.go:103-140 | of a node that crashes and restarts its log is left, and no ballot, queue or round |
| RepliesInRuns.ReplyMeansVote | hexalog.go:182-355 | in every run, who has replied to a proposal without an error has opened a ballot, and who has replied so to a commit has cast its own commit vote |
| RepliesInRuns.RoundMeansVotes | broadcast.go:88-185 | when a round ends without an error all other peers have done that; after a commit round all peers have voted |
| ToldInRuns.SuccessMeansLogged | ballot.go:77-86 | in every run a ballot that tells success has its entry in the node's log, then and ever after; an open ballot has told nothing, a closed one exactly one thing: its error, or success, or that time has run out |
| ToldInRuns.TimedOut | ballot.go:189-197 | a firing timer tells that time has run out, and nothing else; the votes are kept, and every later vote is answered that the ballot is closed |
| ToldInRuns.ClosedIsFinal | ballot.go:204-227 | a closed ballot never changes again |
| ToldInRuns.DroppedWhenClosed | hexalog_utils.go:144-158 | a ballot is dropped by a crash, and else just by reaping when it is closed |
| CommitOrder.CommitNeverOutrunsProposal | broadcast.go:88-103 | without reaping and restarts a commit request in flight finds a ballot at every peer |
| CommitOrder.OneBroadcastPerPhase | hexalog.go:242-284 | without reaping and restarts a ballot is queued for broadcast at most once per phase |
| CommitOrder.NoBallotAfterCommit | hexalog.go:203-226 | an entry in an unmarked log is refused when proposed again, opens no ballot and queues no heal, given heights equal positions |
| LogsInRuns.LogsGrow | ukeylogindex.go:21-43 | along a run the log of a key at a node only grows at its end |
| LogsInRuns.RefusedForGood | hexalog.go:203-226 | once an entry is in a node's log, every later proposal of it there is refused for good, even after its ballot was reaped, if every entry was created from a log and logs are shorter than 2^32 |
| LogsInRuns.AppliedIsLog | hexalog_utils.go:64-72 | in every reachable state what the appends of a node have handed over to its FSM for a key is exactly its log of the key: each entry once, in order, voted or pulled; what checks after restarts hand over again comes in `FsmsInRuns.GivenInRuns` |
| Flows.QuietMeansComplete | broadcast.go:88-185 | when nothing is queued or under way and someone has voted, everyone has everyone's votes of both phases |
| NodeFlow.ProposeFlows | hexalog.go:242-292 | a new proposal vote is taken, after the own one, and the entry is appended just when it completes both tallies |
| NodeFlow.CommitFlows | hexalog.go:320-355 | the same for a commit vote |
| Completion.FailureFreeCompletion | hexalog.go:182-355 | if nothing fails, then once a client has proposed the entry and all is drained, every peer has appended it, exactly once, and closed its ballot with success and the votes of all |
| LogsInRuns.CompletedIsApplied | hexalog_utils.go:248-274 | and has handed it over to its FSM, once, after the entries before it |
| Completion.StepsAreBounded | broadcast.go:88-185 | with n peers that takes at most 4 n^2 steps besides the clients' requests |
| Completion.NeverStuck | broadcast.go:88-185 | and until all is drained some such step is possible |
| Termination.WorkInRun | broadcast.go:88-185 | whatever fails: in a run without reaping and restarts each step but clients' requests and pulls lowers one measure, which no step raises, from any point of the run on |
| Termination.StepsAreBounded | broadcast.go:88-185 | so such a run, on any set of entries with at most m peers each, takes at most m (4m + 1) steps per entry, whatever is lost, rejected or times out and however often the entries are proposed again |
| Termination.NeverStuck | hexalog.go:182-355 | in every reachable state nodes and timers can make a step until nothing is under way and all ballots are closed |
| Termination.CanSettle | hexalog.go:182-355 | and every run can be continued to that point by their steps alone |
| CatchUp.PullDichotomy | net.go:220-307 | over a connection that holds, a pull leaves exactly the remote log, with the missing suffix queued in order, or changes nothing and reports an error; the first just when the own log is a prefix of the remote one |
| CatchUp.BrokenPull | net.go:242-266 | when the connection breaks, part of the missing suffix has been added, all of it if no error is reported |
| CatchUp.PullUnknown | net.go:272-307 | from a node without the key nothing is pulled, and there is an error |
| CatchUp.PullsWhenApart | hexalog_utils.go:14-58 | if the last ids agree, only the key is created, without an error whatever the connection does; else the log is pulled |
| CatchUp.PullClearsMarker | ukeylogindex.go:31-43 | a pull clears the key's marker just when a new entry has the id it names, and touches no other key |
| CatchUp.SeedReproduces | hexalog.go:371-423 | seeding an empty node copies the other node's map of keys to logs, for any order of the seeds, if and only if no key is marked there and nothing is logged under the empty key |
| CatchUp.SeedCopies | hexalog_utils.go:14-58 | the log of a key is copied, whatever other keys are marked, if and only if it is empty, or its key is not empty and is not marked with the id of zeros; so the logs of unmarked keys always are |
| Healing.Leader | leader.go:13-56 | the loops compute the leader's index |
| Healing.LeaderIndex | leader.go:33-54 | the first of the greatest heights; the first location when no one has an entry; none when all heights are zero |
| Healing.IsConsistent | leader.go:75-95 | whether all last entries are the leader's, and else the first location that differs |
| Healing.LeaderIsLongest | leader.go:33-54 | the leader has the longest of the logs heard of, the own one among them |
| Healing.NothingToHeal | heal.go:7-31 | when no one has an entry, or the node leads itself, nothing is done and no error reported; entries that are all at height zero have no leader, which is an error |
| Healing.HealOutcome | heal.go:7-53 | a heal ends with exactly the leader's log, unless both logs are equally long and differ in the last entry, when it changes no log and reports an error; if the connection breaks, with a longer or equal part of the leader's log, all of it if no error is reported |
| Healing.SecondLookHasEntry | heal.go:37-45 | after a heal without an error, over a connection that may have broken, the second look for a leader never ends at a location without an entry, which the check of consistency would dereference |
| HealingInRuns.HealInReachableState | heal.go:7-53 | the same for any peer in any reachable state, broken connections included: the leader has the longest log heard of |
| HealingInRuns.ReceiveIsSteps | net.go:242-266 | a pull is a run of the cluster's single pull steps |
| Replays.GivenIsPrefix | fsm.go:88-116 | after any number of crashes, also between applying an entry and storing its id, and whatever the stable store fails to take: what the application was given for a key is, later repeats removed, a prefix of the key's log up to the stored id at least, and it was given no more again than the crashes have set it back |
| Replays.RewindsAreShort | fsm.go:120-157 | that is one entry per crash if the stable store takes every id, and one more for a crash between applying an entry and storing its id |
| Replays.AdjacentRepeats | fsm.go:88-157 | while no crash finds an entry applied and not recorded, repeats are adjacent, and at most one per crash |
| Replays.TornCrashAlternates | fsm.go:97-109 | a crash between applying an entry and storing its id makes the application see the last two entries of a log alternately |
| Replays.DrainedIsWhole | fsm.go:120-157 | once the check is through with a key and its entries are drained, the whole log was given; the stored id is the last one, if the stable store has taken every id |
| Replays.OnlyFromTheStored | fsm.go:139-150 | an entry given once more is in the log from the stored entry on, and is the stored one while no crash has found an entry applied and not recorded |
| Fsms.Fsm.Start | fsm.go:88-116 | the loop gives all waiting entries to the application in order, stores each id unless the stable store fails, and signals the errors of both for each |
| Fsms.SignalsTell | fsm.go:88-116 | each future is told the application's error if there is one and the stable store's error if there is one, and no error just if neither fails |
| Fsms.Fsm.Check | fsm.go:120-157 | the nested iteration queues, per key, exactly the entries from the stored id on, none if it is the last |
| Fsms.Fsm.Restart | fsm.go:120-157 | after a restart from whatever state a crash has left every log has been given, and every last id stored if the stable store does not fail |
| FsmsInRuns.GivenInRuns | fsm.go:88-157 | in every run of a cluster with the FSMs of its nodes, crashes and checks included, what an application was given for a key is, later repeats removed, a prefix of its node's log, and it was given no more again than crashes have set it back |
| FsmsInRuns.RepeatsInRuns | fsm.go:88-157 | that is one entry per crash, and one more if the crash comes between applying and storing, as long as the stable store takes every id; without such crashes repeats are adjacent |
| FsmsInRuns.OnceWithoutCrash | hexalog_utils.go:64-72 | at a node that has not crashed the entries given and those waiting are together exactly its log, each once |
| FsmsInRuns.DrainedInRuns | fsm.go:120-157 | once the check is through with a key and nothing waits, the application was given the node's whole log |
| FsmsInRuns.MachinesAgree | hexalog_utils.go:248-274 | the applications of two peers were given the same entries of a key in the same order, but for the last, whatever competes, fails, crashes or is pulled |

## Left out

- Full agreement: it fails exactly in the cases that `ForksInRuns.ForksJustWithRivals` gives; the bound on divergence above is what holds in all of them.
- Source indices that clients send: one at or beyond the size of the peer set makes the code index out of range; such a request is no step here.
- Fairness: that a ballot is closed in the end is shown as a bound on the steps there are and a step that is always possible, not over infinite runs.
- Interleaving inside a handler, but for the threads of `Races.RaceOutcome`: each handler, each turn of a broadcaster and each end of a round is one step of a cluster; mutexes, channel capacities and blocking are not modelled.
- gRPC, the connection pool and generated code: a pull is the sequence of entries served, possibly cut off, and a broadcast is a set of messages; the order in which goroutines collect replies is the order of the steps.
- `PushKeylog` and `PushKeylogRPC`: the receiver skips the entries it lacks, so nothing is said about what a push achieves.
- Real time: a time-out is a step that can happen to any ballot with a running timer; durations and the runtime of a ballot are left out.
- The Lamport clock: the Lamport time of an entry is data, and the clocks read by `New` are parameters.
- Options of a request are copied, where the code writes the source index back into the request.
- Nodes.Propose: the error of the vote a node casts for itself on opening a ballot is not looked at, because the code tests another variable there, which is always nil at that point.
- Hexalogs.Hexalog.Heal: stops before the second look for a leader, which only logs whether the key is consistent.
- Seeding with several workers: seeds are processed one after another, in any order; two workers never share a key.
- Iteration over keys in the check after a restart: in any order, where the store goes through them sorted.
- Fsms.Fsm.Start: the loop runs until its queue is drained, without entries arriving meanwhile; `Replays` and `FsmsInRuns` let them arrive at any time.
- `InMemStableStore.Open` wipes its contents; the stable store of the model is durable.
- Snapshots of an index: they share their backing array in the code and are values here.
- Changing peer sets, forged votes and messages, signatures, statistics, shutdown, JSON and logging.
