# Two replicated key-value systems, modelled and proved

Two systems are modelled, each as handlers on a server's state and as runs over them.

**Multi-Paxos log.** Each server is acceptor, proposer and learner over one saved log (the
algorithm of sections 2.2 and 3 of Lamport's "Paxos Made Simple", with this code's departures).

- `Types`, `Persistence`: ballots, entries, the store, and the saved state with its file. A
  mutator changes memory first and saves second; the file system's answers are a list of faults
  consumed by the saves, so any save may fail. `CrashSafety` follows the file over any sequence
  of calls, failures and crashes, and `DiskTraces` over the runs of the interleaved system.
- `Handlers` has every handler as a function; the class in `PaxosServer` runs them in place and
  is proved to compute them. `Merging` says what adoption and catch-up do to a log.
- `Interleaving` is the system with full interleaving: one step per critical section, messages
  lost, delayed or repeated, crashes and restarts as follower, any bootstrap leaders.
  `PromiseSafety`, `Leadership`, `Provenance` and `LearnerSafety` hold for all its runs.
- `Failover` is the system of whole, non-overlapping rounds; `FailoverSafety` proves that what a
  majority accepted survives every failover and `LeaderLearns` says when it is applied too.
  `FailoverLimits` and `OverlapLimits` (built with `Histories`) give concrete runs
  that show what each hypothesis is for, and `Refinement` shows that every run of whole rounds is
  a run of the interleaved system.

**View service and primary/backup servers.** `ViewService` (class in `ViewServer`) has pings and
the five stages of a tick; `KeyValue` (class in `KVServer`) has the key-value server. `ViewRuns`,
`Liveness` and `Convergence` are about the service alone, `Roles` about the service with its servers,
`Replication` about a primary with its backup, and `StateTransfer` about the two while a transfer
runs beside Puts (`TransferLimits` has the failing runs).

The survival results have five hypotheses, and for each there is a run that loses an entry without
it: rounds do not overlap (`RoundsMustNotOverlap`), nobody but the last leader stands before that
leader has stopped for good (`LeaderMustStopFirst`), a bootstrap leader is server 0
(`BootstrapMustBeServerZero`), it restarts only if some save of its succeeded
(`UnsavedLeaderMustNotRestart`), and a majority accepted the entry itself
(`CommitIndexIsNotEnough`). They are about logs: a surviving entry can still be passed over by a
learner (`AckedWriteNeverApplied`, and `LeaderLearns` for when it is not).

The model follows the code where comments promise more:

- a comment says adopted entries "will be re-proposed"; they are not, and only one No-Op is sent
  (`FailoverLimits.CommitIndexIsNotEnough`);
- the learner is said to apply strictly in sequence; `lastApplied` moves past an entry that is
  missing, so an index can be skipped (`OverlapLimits.IndexIsSkipped`;
  `LearnerSafety.StoreIsReplay` says exactly when);
- an Accept does not raise the promise and overwrites the slot whatever ballot it held, so the
  survival result is about whole, non-overlapping rounds.

A crash inside a handler is a handler whose remaining saves fail, followed by a crash: no reply is
sent and memory is read back from the file in both.

## Model

| member | source | states |
|---|---|---|
| FailoverSafety.ChosenSurvives | multipaxos_kvstore/server/paxos_server.go:278-487 | in every run of whole, non-overlapping rounds (any peers reached, any answering, saves failing, followers and leaders crashing and restarting, elections by the last leader itself or by anyone after it stopped for good, bootstrap leader 0 or none, restarted only once it has a file), an entry that a majority accepted, even if the replies were lost or its leader stopped before counting, is unchanged at its index in the log of every running server that leads then or later |
| FailoverSafety.AcknowledgedSurvives | multipaxos_kvstore/server/paxos_server.go:465-472 | the same for an entry that got a counted majority, which is what a client is told succeeded: it stays in the log of every later leader (whether it is also applied there: `LeaderLearns`) |
| LeaderLearns.AppliedIffNotPassed | multipaxos_kvstore/server/paxos_server.go:177-194 | over every run of whole rounds, while a server leads: an entry that a majority had accepted when it took the lead is applied by its learner, once that has caught up, if and only if the learner had not passed its index by then |
| LeaderLearns.AppliedOnPassing | multipaxos_kvstore/server/paxos_server.go:177-194 | the learner of a leader passes the index of such an entry exactly when one of its turns applies that entry |
| LeaderLearns.AckedStaysCommitted | multipaxos_kvstore/server/paxos_server.go:465-472 | over every run of whole rounds: from when an entry is acknowledged its proposer's commit index is at or above it, and its log reaches it, until the proposer restarts |
| LeaderLearns.AckedIsLearnt | multipaxos_kvstore/server/paxos_server.go:177-194 | and after the proposer's next learner turn lastApplied is at or above it, until a restart |
| LeaderLearns.AckedIsApplied | multipaxos_kvstore/server/paxos_server.go:177-194 | a proposer that keeps leading and has a learner turn applies the entry it got acknowledged if and only if its learner had not passed the index before |
| LeaderLearns.BeatTellsCommits | multipaxos_kvstore/server/paxos_server.go:684-698 | a heartbeat that is not below its receiver's promise brings the receiver's commit index to the higher of the two; any other changes no server |
| FailoverLimits.AckedWriteNeverApplied | multipaxos_kvstore/server/paxos_server.go:177-184 | a three-server run in which an acknowledged write is in the next leader's log and never applied there, because its learner passed the index while its log was empty; the stores of the two leaders differ at the same lastApplied |
| OverlapLimits.IndexIsSkipped | multipaxos_kvstore/server/paxos_server.go:177-184 | an interleaved run in which a learner that hears of a commit before it has the entry passes the index and applies nothing |
| FailoverSafety.OneChosenPerIndex | multipaxos_kvstore/server/paxos_server.go:403-472 | over a whole run no two different entries are accepted by majorities at one index |
| FailoverSafety.NewLeaderHasChosen | multipaxos_kvstore/server/paxos_server.go:278-366 | the winner of an election holds every entry a majority accepted: it was the winner's own and saved, or some voter reports it, and nothing above it was proposed at its index |
| FailoverSafety.NewBallotAbove | multipaxos_kvstore/server/paxos_server.go:282-343 | a winning ballot is above the ballot of every earlier leader, by a voter common to both majorities or because the last leader raises its own promise |
| FailoverSafety.OnlyOneLeads | multipaxos_kvstore/server/paxos_server.go:144-152 | at most one running server leads at any time of such a run: the winner of the last election, or the bootstrap leader |
| FailoverSafety.StepKeepsInv | multipaxos_kvstore/server/paxos_server.go:278-603 | every round, transfer, heartbeat, crash and stop keeps: slots hold entries proposed for that index, (index, ballot) names one entry, chosen entries are held by a majority and topped by nothing, the last leader is above every ballot that led, in memory and in its file, has its own chosen entries in both, and while it leads has every chosen entry |
| FailoverSafety.ElectionsIgnoreOrder | multipaxos_kvstore/server/paxos_server.go:297-366 | at any point of any such run a candidate ends its election with the same saved memory, role and ballot in whatever order the answers arrive, with no hypothesis on what they carry |
| FailoverSafety.CountVotes | multipaxos_kvstore/server/paxos_server.go:298-341 | the votes counted are exactly the distinct peers that promised |
| FailoverSafety.CountAccepts | multipaxos_kvstore/server/paxos_server.go:423-464 | the accepts counted are exactly the distinct peers that accepted |
| OverlapLimits.LeaderMustStopFirst | multipaxos_kvstore/server/paxos_server.go:403-417 | an interleaved run of three servers that commits a write and then has a leader with an empty log, because the last leader votes while it runs: its own append is not recorded as accepted, so its promise does not report it |
| OverlapLimits.RoundsMustNotOverlap | multipaxos_kvstore/server/paxos_server.go:240-271 | an interleaved run of seven servers in which every leader stops before the next election and one Accept outlives its round: it overwrites an acknowledged write at servers that have not promised, and the next leader lacks the write |
| FailoverLimits.BootstrapMustBeServerZero | multipaxos_kvstore/server/paxos_server.go:104-109 | a five-server run of whole rounds, started with server 4 as leader, in which a later acknowledged write loses to a stray entry |
| FailoverLimits.CommitIndexIsNotEnough | multipaxos_kvstore/server/paxos_server.go:465-472 | a seven-server run in which an adopted entry below the commit index is applied to the table and then missing from the next leader: adopted entries are not proposed again |
| FailoverLimits.UnsavedLeaderMustNotRestart | multipaxos_kvstore/server/paxos_server.go:104-109 | a three-server run from a proper start in which the bootstrap leader transfers an entry it could not save, restarts without a file and is elected at ballot (1, 0) again: an acknowledged write then loses to the unsaved entry of the same index and ballot |
| FailoverLimits.FailoverHappens | multipaxos_kvstore/server/paxos_server.go:278-487 | a run in which a write is acknowledged, its leader stops, and another server is elected |
| FailoverLimits.LeaderReturns | multipaxos_kvstore/server/paxos_server.go:474-485 | a run in which a write is acknowledged and its leader steps down and is elected again |
| Refinement.RoundsAreInterleaved | multipaxos_kvstore/server/paxos_server.go:278-603 | every state of a run of whole rounds has the servers of some interleaved run, so what is proved of server states over interleaved runs holds of rounds too |
| Refinement.ElectIsPath | multipaxos_kvstore/server/paxos_server.go:278-350 | a whole election is its Prepare deliveries, collected promises and count, one after another |
| Refinement.ProposeIsPath | multipaxos_kvstore/server/paxos_server.go:403-487 | a whole proposal is its request, append, Accept deliveries and count, one after another |
| PromiseSafety.PromisesAreKept | multipaxos_kvstore/server/paxos_server.go:202-271 | in every interleaved run with lost, delayed and repeated messages, failing saves and crashes: after voting for a ballot a server never votes at or below it and never replies accepted below it |
| PromiseSafety.MovedKeepsPledges | multipaxos_kvstore/server/paxos_server.go:202-271 | no handler, failed save or restart takes back a promise that is in memory and in the file |
| PromiseSafety.BallotsCampaignOnce | multipaxos_kvstore/server/paxos_server.go:282-320 | no ballot is sent in Prepare by two elections, across restarts too |
| PromiseSafety.WinnersShareVoter | multipaxos_kvstore/server/paxos_server.go:297-348 | two winning elections share a voter, which voted for the lower ballot before the higher |
| PromiseSafety.WinnersDiffer | multipaxos_kvstore/server/paxos_server.go:340-348 | no ballot wins twice |
| Leadership.LeadsIff | multipaxos_kvstore/server/paxos_server.go:202-350 | in every interleaved run a server leads if and only if it has won an election, or was started as leader, and has since not stood again, lost an election, voted for another, heeded a heartbeat, lost contact, failed a round or crashed |
| Leadership.StandsIff | multipaxos_kvstore/server/paxos_server.go:278-320 | in every interleaved run a server is a candidate if and only if it has begun an election with its ballot saved, and has since not closed it, stood again, voted for another, heeded a heartbeat or crashed |
| Leadership.KnowsLeaderIff | multipaxos_kvstore/server/paxos_server.go:340-350 | in every interleaved run a server takes `l` for the leader if and only if the last election it won or heartbeat it heeded named `l`, or it was started as leader itself, and it has not stepped down from leading or crashed since |
| Leadership.LeaderHasNotVotedSince | multipaxos_kvstore/server/paxos_server.go:202-226 | in every interleaved run a server that leads has won an election after every vote it gave to another, or was started as leader and has given none: told by the events and the role alone |
| Leadership.CommitIndexIsHighest | multipaxos_kvstore/server/paxos_server.go:465-472 | in every interleaved run a server's commit index is the highest index it was told of since it started, by a heartbeat it heeded or a round of its own with a majority, and -1 if it was told of none |
| Leadership.HeartbeatsAreHeeded | multipaxos_kvstore/server/paxos_server.go:684-709 | in every interleaved run a heartbeat below the promise changes no server; any other is answered with success and makes its receiver a follower of the sender |
| Leadership.AnsweredLengthIsMissing | multipaxos_kvstore/server/paxos_server.go:535-542 | with the log length a heartbeat is answered, a leader selects exactly as many slots as a follower that is behind lacks |
| Leadership.FirstPromiseIsOwn | multipaxos_kvstore/persistence/persistence.go:38-46 | in every interleaved run the promise of a server that has not stood, been asked for a vote or crashed is its own ballot of term 0, or of term 1 if it was started as leader |
| Leadership.MovedKeepsPromise | multipaxos_kvstore/server/paxos_server.go:240-271 | nothing but standing, a Prepare or a restart changes a promise, whatever saves fail; an Accept does not |
| Leadership.RefusalNamesThreshold | multipaxos_kvstore/server/paxos_server.go:228-231 | the ballot in a refused Prepare is the exact threshold: the server refuses every Prepare that is not above it, and no other |
| Leadership.RejectionNamesThreshold | multipaxos_kvstore/server/paxos_server.go:268-271 | and so is the ballot in a refused Accept, for every Accept below it |
| Leadership.AnswerNamesSlot | multipaxos_kvstore/server/paxos_server.go:246-271 | every answer to an Accept names the index asked about, and after an accepted one the entry and the answered ballot are in that slot in memory and file |
| Leadership.PromiseNamesBallot | multipaxos_kvstore/server/paxos_server.go:209-226 | the ballot in a promise is the one asked for, promised in memory and file |
| Provenance.NothingInvented | multipaxos_kvstore/server/paxos_server.go:240-271 | in every interleaved run each slot of each log is blank or is, field by field, an entry a leader passed through its propose step; a stored value came from a client Put |
| Provenance.MovedStaysDrawn | multipaxos_kvstore/server/paxos_server.go:354-366 | every handler writes only proposed entries or blanks, in memory and in the file, whatever saves fail |
| LearnerSafety.StoreIsReplay | multipaxos_kvstore/server/paxos_server.go:177-194 | in every interleaved run: lastApplied stays at or below commitIndex, indices are applied in rising order and never twice, the store is the replay of the applied entries, and no index is skipped if and only if the log reached the commit index whenever there was something to apply |
| LearnerSafety.StoreHoldsLast | multipaxos_kvstore/types/types.go:125-140 | in every interleaved run a server's store has for each key what the last applied entry that puts or deletes it says: the value of a Put, nothing after a Delete, and nothing if there is none |
| Types.ReplayTakesLast | multipaxos_kvstore/types/types.go:125-140 | after a replay a key whose last Put or Delete is a Put has that value, and one whose last is a Delete is absent |
| Types.ReplayKeeps | multipaxos_kvstore/types/types.go:125-140 | a key that no entry puts or deletes keeps its value, or its absence |
| Types.AnswerIsCurrent | multipaxos_kvstore/types/types.go:125-140 | what applying an entry answers: a Put its own value, a Get the value of the last Put of the key unless a Delete came after it, anything else nothing |
| LearnerSafety.StoredValuesWerePut | multipaxos_kvstore/types/types.go:125-140 | every value in a store was put by a client for that key |
| Merging.ElectionOrderIrrelevant | multipaxos_kvstore/server/paxos_server.go:352-366 | an election ends with the same log, promise and role for every arrival order of the same answers, and each slot holds a highest-ballot entry among its own and those returned; asked of the answers: an index and a ballot name one entry, and only blanks have term 0 (`FailoverSafety.ElectionsIgnoreOrder` shows it of all runs of rounds) |
| Merging.MergeIsUnique | multipaxos_kvstore/server/paxos_server.go:358-365 | a merge is determined by the set of entries offered, reported blanks included, when an index and a ballot name one entry |
| Merging.AdoptMerges | multipaxos_kvstore/server/paxos_server.go:354-366 | for any entries and any failing saves, adoption yields the slot-wise highest-ballot merge |
| Merging.AdoptAgain | multipaxos_kvstore/server/paxos_server.go:358-365 | merging the same promises again changes nothing and saves nothing |
| Merging.CatchUpExact | multipaxos_kvstore/server/paxos_server.go:565-575 | catch-up from the first k slots, if its saves succeed, makes the logs identical exactly when nothing was missing, or the leader log ends in a real entry, or it has one slot |
| Merging.MergeTail | multipaxos_kvstore/persistence/persistence.go:78-93 | blank entries travel with index 0, so at most a blank tail of the leader log is left out |
| Merging.InstallNeverLowers | multipaxos_kvstore/server/paxos_server.go:719-745 | whatever saves fail, a transfer loses no slot and lowers no slot's ballot |
| Merging.InstallAgain | multipaxos_kvstore/server/paxos_server.go:719-747 | a transfer repeated after it succeeded is a no-op |
| Merging.TransferAnswers | multipaxos_kvstore/server/paxos_server.go:719-749 | a transfer answered with success has every entry, or one with a higher ballot, in its slot, in memory and in the file if anything had to be written; it is refused only if a save failed |
| CrashSafety.FileIsRecentFromStart | multipaxos_kvstore/persistence/persistence.go:178-224 | over every sequence of mutator calls with failing saves and crashes, the file equals the memory some mutator left, none before the last that returned success |
| DiskTraces.FileIsRecentInRuns | multipaxos_kvstore/persistence/persistence.go:178-224 | the same for every server in every interleaved run: its file is the memory that one of the mutator calls of its handlers left, none before the last that returned success |
| DiskTraces.StepIsCalls | multipaxos_kvstore/server/paxos_server.go:202-749 | what each handler does to memory and file is what its mutator calls do, in order, whichever of their saves fail |
| CrashSafety.NextIsDo | multipaxos_kvstore/persistence/persistence.go:66-117 | a mutator call that returns acts on memory and file as the handlers' saves do |
| CrashSafety.ConfirmedSurvives | multipaxos_kvstore/persistence/persistence.go:66-117 | whatever a successful mutator established is in memory and in every later reload unless a later mutator undid it |
| CrashSafety.PromiseSurvives | multipaxos_kvstore/persistence/persistence.go:97-105 | a saved promise is never lost while later promises do not go below it |
| CrashSafety.SlotSurvives | multipaxos_kvstore/persistence/persistence.go:78-93 | a saved slot is in every later reload unless that slot is written again |
| CrashSafety.SavesTakeAnswers | multipaxos_kvstore/persistence/persistence.go:178-199 | after any mutator calls, the next one fails exactly when the file system's answer to its own save says so |
| PaxosServer.PaxosServer.constructor | multipaxos_kvstore/server/paxos_server.go:77-112 | starts from the file, or as bootstrap leader at ballot (1, id) |
| PaxosServer.PaxosServer.HandlePrepare | multipaxos_kvstore/server/paxos_server.go:202-232 | the reply and the whole new state of a Prepare |
| PaxosServer.PaxosServer.HandleAccept | multipaxos_kvstore/server/paxos_server.go:240-271 | the reply and the whole new state of an Accept; the promise is not raised and the slot is overwritten |
| PaxosServer.PaxosServer.StartElection | multipaxos_kvstore/server/paxos_server.go:278-350 | own vote, count and adoption over the answers in order of arrival, and the role after the count |
| PaxosServer.PaxosServer.AdoptAcceptedEntries | multipaxos_kvstore/server/paxos_server.go:354-366 | folds the adoption rule over the entries, ignoring failed saves |
| PaxosServer.PaxosServer.ProposeEntry | multipaxos_kvstore/server/paxos_server.go:403-487 | stamps, appends, counts accepts, and commits or steps down |
| PaxosServer.PaxosServer.Put | multipaxos_kvstore/server/paxos_server.go:627-647 | refused by a non-leader and for the value "reject"; otherwise a proposal at the next index |
| PaxosServer.PaxosServer.Delete | multipaxos_kvstore/server/paxos_server.go:663-680 | refused by a non-leader; otherwise a proposal at the next index |
| PaxosServer.PaxosServer.ProposeNoOp | multipaxos_kvstore/server/paxos_server.go:390-396 | a No-Op proposal at the next index |
| PaxosServer.PaxosServer.HandleHeartbeat | multipaxos_kvstore/server/paxos_server.go:684-709 | follows a leader whose ballot is not below the promise and raises the commit index |
| PaxosServer.PaxosServer.GatherMissing | multipaxos_kvstore/server/paxos_server.go:565-575 | selects the slots of the log from the peer's length up to the leader's |
| PaxosServer.PaxosServer.HandleStateTransfer | multipaxos_kvstore/server/paxos_server.go:712-749 | folds the transfer rule over the entries and stops at the first failed save |
| PaxosServer.PaxosServer.ApplyCommittedEntries | multipaxos_kvstore/server/paxos_server.go:177-194 | the loop applies the slice of the log that is committed, present and not yet applied, and advances lastApplied one past a missing entry |
| Persistence.PersistentState.constructor | multipaxos_kvstore/persistence/persistence.go:38-62 | starts from the file when there is one, and fresh otherwise |
| Persistence.PersistentState.SaveState | multipaxos_kvstore/persistence/persistence.go:178-199 | replaces the file as a whole or fails and leaves it |
| Persistence.PersistentState.AppendLog | multipaxos_kvstore/persistence/persistence.go:66-75 | appends in memory, then saves |
| Persistence.PersistentState.UpdateLog | multipaxos_kvstore/persistence/persistence.go:78-93 | writes one slot, growing the log with blank entries, then saves |
| Persistence.PersistentState.SetNpromised | multipaxos_kvstore/persistence/persistence.go:97-105 | sets the promise in memory, then saves |
| Persistence.PersistentState.SetHighestAcceptedBallot | multipaxos_kvstore/persistence/persistence.go:109-117 | records an accepted slot in memory, then saves |
| Persistence.PersistentState.GetAllAcceptedEntries | multipaxos_kvstore/persistence/persistence.go:164-175 | returns the entries of the recorded slots in index order |
| Persistence.Written | multipaxos_kvstore/persistence/persistence.go:78-93 | one slot is written, the rest stays, and holes are blank |
| Persistence.Reported | multipaxos_kvstore/persistence/persistence.go:164-175 | an entry is reported if and only if it is in a recorded slot |
| Types.CompareIsTotalOrder | multipaxos_kvstore/types/types.go:24-54 | ballots are totally ordered, terms first |
| Types.KVStore.Apply | multipaxos_kvstore/types/types.go:125-140 | the new store and the answer for each kind of entry |
| ViewRuns.NumberDeterminesView | view/viewservice/server.go:82-118 | over every run numbers never fall, and two views with the same number are identical |
| ViewRuns.TickNumbers | view/viewservice/server.go:134-218 | a tick raises the number by 0, 1 or 2, and by 0 exactly when primary and backup are unchanged |
| ViewRuns.TickNeverBoth | view/viewservice/server.go:185-198 | from any state, reachable or not, a tick never gives one server both roles |
| ViewRuns.EmptyNameRaisesNumber | view/viewservice/server.go:201-212 | a server with an empty name would break that equivalence |
| ViewRuns.RunStructured | view/viewservice/server.go:82-229 | in every reachable state primary and backup are different known servers, no primary means no backup and acked, and idle servers are distinct, known and without a role |
| ViewRuns.Succession | view/viewservice/server.go:148-198 | over every run a primary is replaced only after it pinged with the then current number in its tenure and was declared dead; its alive backup follows, or, if it had none, nobody or another alive server |
| Liveness.KnownIffPinged | view/viewservice/server.go:86-98 | over every run a server is known if and only if it has pinged |
| Liveness.AliveIffNotOverdue | view/viewservice/server.go:139-146 | over every run a server that has pinged is alive if and only if no tick since its last ping came more than 1500 ms after that ping, told by the moves alone |
| Liveness.AliveAfterTick | view/viewservice/server.go:139-146 | with ticks in the order of their clocks: after a tick at `now`, alive if and only if its last ping came no more than 1500 ms before `now` |
| Liveness.IdleIffNoRoleYet | view/viewservice/server.go:221-229 | over every run the idle servers are exactly the known ones that have never been primary or backup |
| Liveness.AckedIffConfirmed | view/viewservice/server.go:103-106 | over every run the acked flag is up if and only if there is no primary, or the primary has pinged with the number then current in its tenure |
| Convergence.Converges | view/viewservice/server.go:134-218 | with a fixed non-empty live set and acks between ticks, at most 3 ticks and 4 number steps reach an alive primary and a distinct alive backup if two live (else none), in a view no later tick changes, for every iteration order |
| Convergence.ConvergesExactly | view/viewservice/server.go:153-172 | three or more rounds have an alive primary if and only if the starting primary was alive, acked or empty |
| Convergence.RoundMoves | view/viewservice/server.go:134-218 | what one tick and the pings after it do to view and flag, case by case |
| ViewServer.ViewServer.Ping | view/viewservice/server.go:82-110 | the whole new state, and the view answered |
| ViewServer.ViewServer.CheckFailuresAndPromote | view/viewservice/server.go:134-218 | the five stages in order, for any iteration orders of the server map |
| ViewServer.ViewServer.MarkDeadServers | view/viewservice/server.go:139-146 | every known server past the dead interval is marked dead, and nothing else changes |
| ViewServer.ViewServer.RemoveFromIdle | view/viewservice/server.go:221-229 | all occurrences of the name leave the list, in order |
| Roles.RoleFollowsView | kv_server_main/kvserver/server.go:147-161 | in every run without restarts each server's role is the one its view gives it |
| Roles.PrimariesDifferInView | kv_server_main/kvserver/server.go:111-144 | two servers with role primary never hold the same view number |
| Roles.AckedPrimaryLeads | view/viewservice/server.go:103-106 | whenever the current primary counts as acked, that server itself has role primary, though pings may arrive late |
| Roles.TransferStarts | kv_server_main/kvserver/server.go:147-178 | in every run, when a server receives a view it starts a transfer to the view's backup if and only if it is primary in the view, the backup is somebody, and the last view it received as primary, if any, had another backup or none: told by the views received |
| Roles.OnlyReceiveStarts | kv_server_main/kvserver/server.go:147-178 | no other step of a run starts a transfer |
| Roles.OnlyPrimaryAnswers | kv_server_main/kvserver/server.go:244-270 | in every run a server answers a read with a value exactly when its view names it primary and it stores that value |
| Roles.ViewDecidesWrites | kv_server_main/kvserver/server.go:273-349 | in every run a server takes a client's write exactly when its view names it primary and a forwarded one exactly when its view names it backup; a refused write leaves it as it was |
| Roles.ViewsKeepData | kv_server_main/kvserver/server.go:137-143 | whatever view is answered becomes the current one; data, queue and copying stay, and a number that is not new leaves the role and starts nothing |
| Replication.PairAgrees | kv_server_main/kvserver/server.go:273-349 | over every interleaving of Puts, at most one per key in flight, primary and backup agree on every key with no Put in flight |
| Replication.CrossedPutsDiverge | kv_server_main/kvserver/server.go:294-326 | two Puts of one key whose steps cross leave the maps different |
| StateTransfer.TransferAgrees | kv_server_main/kvserver/server.go:181-332 | over every interleaving of a transfer with Puts that are in flight at the snapshot, queued, or arrive during the flush, with one Put per key in flight and no view change: from the copy on, at every key with no Put in flight the maps agree, except where a Put in flight at the snapshot was forwarded before the copy or had no backup, and there exactly when the snapshot had its value |
| StateTransfer.TransferEndsEqual | kv_server_main/kvserver/server.go:181-332 | the same with no Put in flight at the snapshot, when all is over: both maps are the snapshot overlaid with the local writes, which are all queued writes in order of arrival with the other Puts between them, and the queue is empty |
| StateTransfer.QuietTransferEndsEqual | kv_server_main/kvserver/server.go:181-241 | with no Put but the queued ones, both are the snapshot overlaid with the queued writes in order |
| StateTransfer.FailedTransferLosesNone | kv_server_main/kvserver/server.go:189-221 | over every such interleaving a transfer that fails before its flush, whether or not its copy arrived, leaves every queued write in the queue and unwritten; the next transfer that ends puts them all, in order and before those it queues itself |
| StateTransfer.LastDirectKept | kv_server_main/kvserver/server.go:228-332 | over every such interleaving, the last Put of a key that was not queued is what is read after the flush if and only if no queued write of the key was pending when it landed or came later, or the last of these wrote the same value |
| TransferLimits.QueuedOverwritesLater | kv_server_main/kvserver/server.go:224-240 | a run in which a Put that begins and lands during the flush is overwritten by an older queued one, since the queue is put after `syncing` is cleared |
| TransferLimits.SnapshotMissesFlight | kv_server_main/kvserver/server.go:182-188 | a run in which a Put in flight at the snapshot leaves the maps different |
| KVServer.KVServer.TransferState | kv_server_main/kvserver/server.go:181-241 | one transfer run to its end with the writes that arrive while it copies: both maps end as the old data overlaid with the queued writes in order; a failed copy leaves the writes queued, a server that is no longer primary throws them away, and a peer in another role ends with the bare copy |
| KVServer.KVServer.FlushQueue | kv_server_main/kvserver/server.go:228-240 | the queued writes are put in order, and forwarded to a peer in role backup, and the queue is emptied |
| KVServer.KVServer.Put | kv_server_main/kvserver/server.go:273-332 | refused, queued, or forwarded and then written locally whatever the forward did |
| Replication.ReadsLastPut | kv_server_main/kvserver/server.go:244-332 | over every interleaving of Puts, what the primary answers for a key is the value of the last Put of that key that finished |
| Replication.ReadsUnwritten | kv_server_main/kvserver/server.go:244-270 | over every interleaving of Puts a key that no Put finishes for is answered as it was stored before, or with no value if it was not, and the backup answers no read |
| Replication.PromotedReadsSame | kv_server_main/kvserver/server.go:147-270 | a backup that a new view makes primary answers, for every key with no Put in flight, what the primary answers |
| StateTransfer.ReadsLastPending | kv_server_main/kvserver/server.go:181-270 | over every such interleaving, with no other Put of the key after some state: once the flush is over the primary answers the last write of the key that was pending then or queued after, or else what it answered then |
| StateTransfer.SyncedReadsSame | kv_server_main/kvserver/server.go:147-332 | with no Put in flight at the snapshot and one per key in flight: from the copy on, the backup, made primary by a new view, answers what the primary answers for every key with no Put in flight |
| KVServer.KVServer.ForwardUpdate | kv_server_main/kvserver/server.go:335-349 | only a backup applies a forwarded write |
| KVServer.KVServer.SyncState | kv_server_main/kvserver/server.go:352-367 | the copy replaces the data |
| KVServer.KVServer.ReceiveView | kv_server_main/kvserver/server.go:137-143 | a view with a new number sets the role and may start a transfer |
| KVServer.KVServer.HandleViewChange | kv_server_main/kvserver/server.go:147-178 | the role the view gives, when a transfer starts, and the last backup |
| KeyValue.OverlayTakesLast | kv_server_main/kvserver/server.go:235-237 | a key named by queued writes ends with the last of them |
| KeyValue.OverlayKeeps | kv_server_main/kvserver/server.go:235-237 | a key that no queued write names keeps its value |

## Left out

- gRPC, dialling, protobuf conversions, both clients, the mains and flag parsing; messages are values, and indices, terms, server identities and view numbers are unbounded natural numbers.
- JSON and the file system: a save replaces the file as a whole or fails; a load reads it back.
- Real time: the view service takes the clock as a parameter; election timeouts may fire at any time; tickers and heartbeat times do not appear.
- Locks: each critical section is one step; no claim is made about the progress of a transfer, which asks for the write lock while it holds the read lock.
- `nextIndex`, `matchIndex` and `GetState`, which decide nothing; error texts and log output.
- `Ping` of the view service returns a pointer to the live view, which is marshalled after the lock is released; the model assumes that the answer is the view at the time of the ping.
- Restarting a server with the leader flag, which overwrites the promise it loaded.
- Agreement of all applied stores, and safety under overlapping leaders or rounds, which the code does not give (`FailoverLimits.AckedWriteNeverApplied`, `OverlapLimits`).
- Data survival when a backup is promoted: assigning a backup leaves the acked flag set, so a backup may be promoted before it was synced.
- `Interleaving` lets a transfer send any slice of the sender's log and a No-Op be requested at any time, which covers what heartbeat replies and new leaders ask for.
- `PaxosServer.PaxosServer.StartElection` and `ProposeEntry` take the answers of the peers as a parameter in order of arrival, in place of concurrent calls.
- `KVServer.KVServer.TransferState` and `Put` run to their end in one call; their interleavings are in `Replication` and `StateTransfer`, on values.
- In `Replication` and `StateTransfer` the view does not change, no second transfer starts while one runs, and a forward that is sent reaches the backup.
- The idle list of the view service is kept but nothing reads it, as in the code.
