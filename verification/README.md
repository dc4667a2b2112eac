# Agreement and reliable broadcast of a Dumbo node, verified

A Dafny model of the two protocols at the heart of an asynchronous Byzantine ordering service:
the asynchronous binary agreement (`src/async_bin_agreement/`) and the reliable broadcast
(`src/reliable_broadcast/`), with the quorum arithmetic (`src/quorum_info/`) they rest on.

## How the project is built

Each protocol is modelled in three layers.

1. **Classes** that update their fields in place, as the program does: `AbaRoundData.RoundData`,
   `AbaInstance.AsyncBinaryAgreement`, `AbaInstance.PendingMessages`,
   `RbcInstance.ReliableBroadcastInstance`, `RbcInstance.MessageTracking` and
   `RbcInstance.PendingMessages`. Every method states its whole new state: it equals a step
   function of the old state.
2. **Step functions on values** (`AbaRound`, `AbaPending`, `AbaNode`, `RbcModel`), with what holds of
   one node after any messages, polls and coins.
3. **Systems** (`AbaSystem`, `RbcSystem`): correct members take those steps, faulty members send
   anything, and any sent message may be delivered to any correct member at any time, in any
   order, any number of times, or never. What was sent is a multiset of (sender, message) pairs, so
   "exactly once" is a statement about multiplicity. `AbaSafety`, `AbaValidity`, `AbaLock`,
   `AbaProgress`, `AbaCoin` and `RbcSafety` hold the main theorems, over every run; `AbaBoundary` and
   `RbcBoundary` build runs of arbitrary committees that show which committee sizes agreement needs
   and how a forged share breaks the value lock. `Runs` is what both systems share.

The specification of a round keeps its votes as one relation from ballots to voters; the class keeps
the four stores of the program and proves the correspondence.

## What is assumed

- The members are distinct, there are n of them, and at most f are faulty. Senders are authentic
  members: the message handlers themselves never call `is_member`.
- `QuorumInfo::new` admits every n >= 3f + 1. Quorum intersection needs more:
  `Committee.Intersecting` says n plus the number of faulty members is at most 4f + 1. That is
  n = 3f + 1 when f members are faulty, the size that `get_n_for_f` gives (`src/dumbo1/protocol.rs:69-71`).
  `AbaBoundary.AgreementIff` and `RbcBoundary.AgreementIff` prove the exact conditions.
- The program never broadcasts a node's first Val of a round. `Start` is a step of the orchestrator that
  does so, at any time and any number of times.
- A member decides `v` when its round yields `Finalized(v)`; `process_message` reports only `Decided`
  and drops the value.
- The coin is arbitrary at every node and every flip: either bit, or a failure to combine the shares.
  In the classes it is an arbitrary function of the shares collected. A `Config` may restrict it:
  `reliable` says that combining never fails, `common` gives one bit for each round that every
  successful combination in it yields, as genuine shares do. Safety is proved without either. The
  results that need one say so, and the runs built against agreement have both.
- A broadcast adds to what was sent and succeeds. Integers are unbounded.
- `values_r` is a hash set whose iteration order is unspecified; the model lists false before true.
  `values_r` never holds more than one value (`AbaNode.NodeInvariant`), so the order never shows.
- A batch and its digest are opaque and unrelated: no instance checks one against the other.

## Where the code differs from its comments

- The comments in `src/reliable_broadcast/test/reliable_broadcast_test.rs:151-156` call the Echo threshold
  n - f. The code uses `quorum_size - f`, which is n - 2f. The model follows the code. Echo quorums then need
  not intersect for n <= 5f, and agreement comes from the Ready quorums. For 3f + 2 <= n <= 5f neither
  suffices, and `RbcBoundary.Disagreement` is a run with two finalized digests.
- The comment at `src/async_bin_agreement/async_bin_agreement_round.rs:216` says that a lost coin keeps an
  estimate "we have all agreed on". When combining the shares fails instead, the node keeps the estimate
  with which it entered the round, which may be the other bit: `AbaRound.FlipOutcome` gives the exact
  condition for one flip, `AbaLock.LockIff` for whole runs, and `AbaBoundary.LockBreaks` a run in which
  one forged share does it.
- A poll after entering a round for which nothing was ever buffered asks the deque to drain more
  buckets than it has. `AbaPolling.NodePollIff` says exactly when a node can poll, and
  `AbaPolling.NodePollFails` is a node that cannot.

## Model

| member | source | states |
|---|---|---|
| Quorums.NewQuorumInfo | src/quorum_info/quorum_info.rs:15-28 | construction succeeds exactly for n >= 3f + 1 and then holds exactly the given f and members and quorum_size n - f; so quorum_size > 2f, and quorum_size - f does not underflow and exceeds f |
| Quorums.QuorumOverlap | src/async_bin_agreement/async_bin_agreement_round.rs:108-110 | any two sets of more than 2f members of an intersecting committee share a correct member |
| Quorums.IntendedSize | src/dumbo1/protocol.rs:69-71 | n = 3f + 1 makes every committee intersecting, and is the only size that does when f members are faulty |
| AbaRoundData.RoundData.constructor | src/async_bin_agreement/async_bin_agreement_round.rs:29-41 | a round starts collecting Val with the given estimate, no accepted value and no votes |
| AbaRoundData.RoundData.InsertVal | src/async_bin_agreement/async_bin_agreement_round.rs:260-270 | refuses exactly a repeated voter and then changes nothing; otherwise records the vote and returns the exact count |
| AbaRoundData.RoundData.InsertAuxVote | src/async_bin_agreement/async_bin_agreement_round.rs:279-289 | the same for the Aux store, keyed by the sequence of values |
| AbaRoundData.RoundData.InsertConf | src/async_bin_agreement/async_bin_agreement_round.rs:297-324 | the same for the Conf store, which adds the given share beside a new voter and keeps the share of a repeated one |
| AbaRoundData.FirstShareStays | src/async_bin_agreement/async_bin_agreement_round.rs:297-324 | over any sequence of Confs the share kept for a voter and a set of values is the one that came with its first Conf for them |
| AbaRoundData.RoundData.InsertFinishVote | src/async_bin_agreement/async_bin_agreement_round.rs:333-342 | the same for the Finish store |
| AbaRoundData.RoundData.TryRegisterBroadcast | src/async_bin_agreement/async_bin_agreement_round.rs:344-346 | registers the value and reports whether it was new |
| AbaRoundData.RoundData.AcceptEstimate | src/async_bin_agreement/async_bin_agreement_round.rs:43-53 | the round's reaction to a Val in every phase, which AbaRound.AcceptMeaning gives case by case; no other store is touched |
| AbaRoundData.RoundData.InsertEstimate | src/async_bin_agreement/async_bin_agreement_round.rs:55-77 | a repeated vote changes nothing; any other is recorded, and the round accepts the value, re-broadcasts it or waits, on the exact counts |
| AbaRoundData.RoundData.AcceptAuxiliary | src/async_bin_agreement/async_bin_agreement_round.rs:79-91 | the round's reaction to an Aux in every phase, early, timely or late, given by AbaRound.AcceptMeaning; no other store is touched |
| AbaRoundData.RoundData.InsertAux | src/async_bin_agreement/async_bin_agreement_round.rs:93-120 | the set comparisons of the code, both the superset and the equality, amount to the ballot lying within the accepted values |
| AbaRoundData.RoundData.AcceptConfirmation | src/async_bin_agreement/async_bin_agreement_round.rs:122-137 | the round's reaction to a Conf in every phase, given by AbaRound.AcceptMeaning; only a Conf in time adds its own share, and only to those for its values, unless its sender has one there; the coin is that of the stored shares with this one |
| AbaRoundData.RoundData.InsertConfirmation | src/async_bin_agreement/async_bin_agreement_round.rs:139-170 | the coin is flipped on exactly the shares stored for the winning values, this vote's own included; every other share is unchanged; a combine error keeps the estimate |
| AbaRoundData.RoundData.PerformCoinFlip | src/async_bin_agreement/async_bin_agreement_round.rs:172-219 | yields no verdict exactly when the shares do not combine, and then the estimate is unchanged; otherwise finishes or abandons the round as the winning set and coin say |
| AbaRoundData.RoundData.AcceptFinish | src/async_bin_agreement/async_bin_agreement_round.rs:221-232 | the round's reaction to a Finish in every phase |
| AbaRoundData.RoundData.InsertFinish | src/async_bin_agreement/async_bin_agreement_round.rs:234-248 | finalizes above 2f votes, re-broadcasts once above f, and otherwise only counts |
| AbaRound.AcceptMeaning | src/async_bin_agreement/async_bin_agreement_round.rs:43-248 | every vote in every phase: Queue exactly for a ballot of a later phase, Ignored exactly for one of an earlier phase, AlreadyAccepted exactly for a repetition in time, and each broadcast, abandonment and finalization exactly in its own case of phase, count and coin; phase, estimate, sets and votes change as that verdict says |
| AbaRound.OneIsDue | src/async_bin_agreement/async_bin_agreement_round.rs:43-248 | the cases are exclusive: at most one verdict is due |
| AbaRound.AcceptKeepsLive | src/async_bin_agreement/async_bin_agreement_round.rs:43-248 | any vote with any coin keeps the round invariant (nothing counted early, no decisive ballot above 2f, each phase founded on a ballot of exactly 2f + 1 votes) or abandons the round through a full winning set |
| AbaRound.AcceptAdvances | src/async_bin_agreement/async_bin_agreement_round.rs:43-248 | phases advance by at most one, the accepted value is fixed once chosen, the estimate stays until the round finishes, only the voter's own vote is added, and a message is queued unchanged or counted |
| AbaRound.AcceptAnnounces | src/async_bin_agreement/async_bin_agreement_round.rs:55-248 | Aux and Conf are broadcast exactly on entering their phase and for the accepted value, Val and Finish exactly for a newly registered value, Val only above f votes, and a decision only above 2f |
| AbaRound.FlipOutcome | src/async_bin_agreement/async_bin_agreement_round.rs:154-218 | the coin is flipped on exactly 2f + 1 distinct shares; the round finishes only with the winning value equal to the coin; leaving it, the next estimate is the winning value if and only if the shares combined or the estimate already was that value |
| AbaPending.AddRefines | src/async_bin_agreement/pending_messages.rs:19-38 | adding to the deque is pushing on the stack of the round in a map from rounds to stacks |
| AbaPending.PopRefines | src/async_bin_agreement/pending_messages.rs:40-60 | popping from the deque is dropping the older rounds of the map and popping the round's stack |
| AbaPending.AddMeaning | src/async_bin_agreement/pending_messages.rs:19-38 | for any round, early or late: a message for a round before the base is dropped and changes nothing; any other goes on top of its round's stack, the base stays, and the deque grows exactly to reach the round |
| AbaPending.PopMeaning | src/async_bin_agreement/pending_messages.rs:40-60 | for any round: the base moves up to a later round, exactly the older buckets go, and the top of the front bucket is taken |
| AbaPending.LastInFirstOut | src/async_bin_agreement/pending_messages.rs:19-60 | what was added last for a round is popped first, and leaves the stack as it was |
| AbaPending.BufferRefinesMap | src/async_bin_agreement/pending_messages.rs:19-60 | over any history of queueing, requeueing, round changes and polls the deque equals the map; a poll returns the map's answer, of the node's own round; no message is lost or duplicated except with a discarded round |
| AbaPending.PollDrainsIff | src/async_bin_agreement/pending_messages.rs:45-56 | over any history of uses, a poll can drain if and only if the base is the round or some message of the round before or a later one was ever added |
| AbaPending.PollFailsUnbuffered | src/async_bin_agreement/pending_messages.rs:49-52 | the shortest failing history of the buffer alone: taken to round 1 with nothing queued it cannot be polled (for a node, see AbaPolling.NodePollFails) |
| AbaPolling.RunIsHistory | src/async_bin_agreement/async_bin_agreement.rs:79-101 | every run of a node, over any messages, polls and coins, is a history of its buffer with the same round and deque, to which exactly the messages reported queued were added; so the map refinement and conservation hold of every node |
| AbaPolling.NodePollIff | src/async_bin_agreement/async_bin_agreement.rs:79-81 | after any run a node can poll if and only if its buffer's base is its round or it ever queued a message of the round before or a later one |
| AbaPolling.NodePollFails | src/async_bin_agreement/async_bin_agreement.rs:79-81 | a node alone in its committee that receives its Val, Aux and Conf in time and loses the coin is in round 1 and cannot poll |
| AbaInstance.PendingMessages.AddMessage | src/async_bin_agreement/pending_messages.rs:19-38 | the padding loop leaves exactly the buffer of the refinement above |
| AbaInstance.PendingMessages.PopMessage | src/async_bin_agreement/pending_messages.rs:40-60 | discarding, rebasing and popping leave and return exactly what the refinement above says |
| AbaInstance.AsyncBinaryAgreement.constructor | src/async_bin_agreement/async_bin_agreement.rs:34-51 | a node starts in round 0 with its input bit and nothing buffered |
| AbaInstance.AsyncBinaryAgreement.AdvanceToNextRound | src/async_bin_agreement/async_bin_agreement.rs:53-62 | the old round is kept, unchanged, as the last of the previous rounds; a fresh round with the next estimate replaces it |
| AbaInstance.AsyncBinaryAgreement.Poll | src/async_bin_agreement/async_bin_agreement.rs:79-81 | polls the buffer at the node's round and changes nothing else |
| AbaInstance.AsyncBinaryAgreement.Act | src/async_bin_agreement/async_bin_agreement.rs:127-214 | every verdict of the round has the one effect on node, buffer, network and result that the step function gives |
| AbaInstance.AsyncBinaryAgreement.ProcessMessage | src/async_bin_agreement/async_bin_agreement.rs:83-215 | new state, result and broadcast are those of the step function, on the coin that the round's shares for the confirmed values yield |
| AbaNode.ResultMeaning | src/async_bin_agreement/async_bin_agreement.rs:91-214 | a message is reported ignored if and only if nothing changes, queued if and only if it went on top of its round's stack, decided if and only if its vote completes a quorum to finish; only processed messages broadcast, in the node's round, a Conf with its own share of that round |
| AbaNode.ProcessMeaning | src/async_bin_agreement/async_bin_agreement.rs:91-214 | a message is queued exactly if it is of a later round, or of this round and a later phase; ignored, with no change, exactly if it is of an earlier round or phase or repeats a vote; any other changes the round as AbaRound.AcceptMeaning says and leaves the node in it or, on a losing flip, in the next |
| AbaNode.BroadcastMeaning | src/async_bin_agreement/async_bin_agreement.rs:137-205 | a node broadcasts a message if and only if the processed one prompts it: Val(b) exactly when a fresh Val(b) brings its count above f and at most 2f and b was not re-broadcast before; Aux, Conf with the node's own share, and Finish likewise in their own cases |
| AbaNode.AbandonsIff | src/async_bin_agreement/async_bin_agreement_round.rs:154-218 | a node enters the next round with a given estimate exactly when a Conf completes a winning set and set, coin or combine error decide that estimate |
| AbaNode.PollMeaning | src/async_bin_agreement/async_bin_agreement.rs:79-101 | a polled and processed message goes back on its stack exactly if it is still early, and otherwise is gone from the buffer; a stale one changes nothing else |
| AbaNode.NodeInvariant | src/async_bin_agreement/async_bin_agreement_round.rs:55-248 | after any messages, polls and coins: accepted values empty while collecting Val and one fixed value afterwards; re-broadcast estimates are exactly those above f votes while collecting Val; no ballot that could end the phase has more than 2f votes; the coin was flipped exactly once in each round left or finished, each left through a winning set of exactly 2f + 1 with the estimate that set and coin decide; the node finishes with its coin's bit, and has decided exactly the values with more than 2f Finish votes |
| AbaSystem.StepKeepsInv | src/async_bin_agreement/async_bin_agreement.rs:83-215 | every step of the system keeps the invariant: counted votes were cast, own messages match the state of their round, every registered Val and every Aux and Conf due was sent, each registered Finish was sent exactly once |
| AbaSystem.RunInv | src/async_bin_agreement/async_bin_agreement.rs:83-215 | that invariant holds in every state of every run, for any n >= 3f + 1 |
| AbaQuorums.RunStrongInv | src/async_bin_agreement/async_bin_agreement_round.rs:55-248 | in every run every Val of a correct member repeats an entry estimate of that round, and every value it finishes with is confirmed by more than 2f members |
| AbaQuorums.OneSeconded | src/async_bin_agreement/async_bin_agreement_round.rs:93-120 | no round has Aux quorums for both bits |
| AbaQuorums.LeavesWithConfirmed | src/async_bin_agreement/async_bin_agreement_round.rs:154-218 | a correct member that leaves a round leaves a value confirmed there; it takes that value along, which is then the opposite of its coin, if its own combination in that round succeeded, and its entry estimate if it failed |
| AbaSafety.Agreement | src/async_bin_agreement/async_bin_agreement_round.rs:172-248 | whenever two correct members finalize, in any two states of any run, the values and the rounds are the same; combine errors and differing coins included |
| AbaBoundary.Disagreement | src/quorum_info/quorum_info.rs:16 | every committee admitted by the constructor whose quorums can miss each other has, for every common coin that takes both values, a run without combine errors in which two correct members finalize different bits |
| AbaBoundary.CoinAgreementIff | src/quorum_info/quorum_info.rs:16 | under any such common coin, agreement holds over all runs without combine errors if and only if n plus the faulty members is at most 4f + 1 |
| AbaBoundary.AgreementIff | src/quorum_info/quorum_info.rs:16 | agreement holds over all runs, whatever the coins, under the same condition; with f faulty members, if and only if n = 3f + 1 |
| AbaSafety.OneValuePerRound | src/async_bin_agreement/async_bin_agreement_round.rs:93-120 | all Conf and Finish messages of correct members in one round carry the same single bit |
| AbaSafety.FinishingForever | src/async_bin_agreement/async_bin_agreement_round.rs:43-137 | a finishing member stays finishing in its round for the rest of the run |
| AbaSafety.Blocking | src/async_bin_agreement/async_bin_agreement.rs:93-133 | once n - 2f correct members (f + 1 of 3f + 1) are finishing in round r, no correct member ever leaves CollectingVal of round r + 1, and those members never send a message of a later round |
| AbaSafety.FinishDiscipline | src/async_bin_agreement/async_bin_agreement_round.rs:204-248 | each correct member has broadcast Finish exactly once, for its estimate, if it is finishing, in that round, and not at all otherwise; any value it finalized is its own estimate |
| AbaSafety.NoAmplification | src/async_bin_agreement/async_bin_agreement_round.rs:242-245 | a finishing correct member never broadcasts another Finish, whatever it receives or polls: the f + 1 branch never fires |
| AbaValidity.Validity | src/async_bin_agreement/async_bin_agreement_round.rs:55-248 | every entry estimate, current estimate, Val, Aux, Conf, Finish and decision of a correct member, in every round, is the input bit of some correct member (n >= 3f + 1) |
| AbaValidity.WinningSetIsSingle | src/async_bin_agreement/async_bin_agreement_round.rs:198-202 | a correct member only ever flips the coin over the single accepted value: the branch for several values is never taken |
| AbaLock.LockIff | src/async_bin_agreement/async_bin_agreement_round.rs:154-218 | for a value confirmed in any round of any run: every correct member enters, says and finalizes only that value from the next round on, if and only if every correct member whose shares failed to combine in the round had entered it with that value |
| AbaLock.ValueLock | src/async_bin_agreement/async_bin_agreement_round.rs:154-218 | when combining never fails, once a correct member left a round, one value is confirmed there and every correct member enters, says and finalizes only it from the next round on, whatever the coins |
| AbaLock.UnanimousLock | src/async_bin_agreement/async_bin_agreement_round.rs:154-218 | when all correct inputs agree every round left locks, even if combining fails, for any n >= 3f + 1 |
| AbaBoundary.LockBreaks | src/async_bin_agreement/async_bin_agreement_round.rs:163-165 | every committee with a faulty member has, for any common coin, a run in which the forged share of a faulty member makes a correct member fail to combine in round 0: it enters round 1 with its own input true while false is confirmed, and there is no lock |
| AbaProgress.RunAccounts | src/async_bin_agreement/async_bin_agreement.rs:91-101 | in every run each message delivered to a correct member is still buffered, counted, or of a round or phase already passed |
| AbaProgress.RoundProgress | src/async_bin_agreement/async_bin_agreement_round.rs:43-170 | if all correct members entered a round with one estimate and sent Val for it, everything between them in that round is delivered and nothing acceptable is buffered, then every correct member is finishing in the round or past it (n >= 3f + 1) |
| AbaProgress.ValSpreads | src/async_bin_agreement/async_bin_agreement_round.rs:55-77 | once a correct member has accepted a value in a quiescent round, every correct member still collecting Vals there has re-broadcast that value |
| AbaProgress.ValTotality | src/async_bin_agreement/async_bin_agreement_round.rs:55-77 | if in a quiescent round that all correct members have reached some have accepted v and none another value, then all have accepted v (n >= 3f + 1) |
| AbaProgress.AllDecide | src/async_bin_agreement/async_bin_agreement_round.rs:221-248 | if all correct members are finishing in a round, everything between them in that round is delivered and nothing acceptable is buffered, then all have finalized one value |
| AbaCoin.OneOutcome | src/async_bin_agreement/async_bin_agreement_round.rs:181-218 | under a common coin, once a correct member finishes in a round, any correct member that has left the round failed to combine in it |
| AbaCoin.NobodyLeaves | src/async_bin_agreement/async_bin_agreement_round.rs:181-218 | under a common coin without combine errors, no correct member ever leaves a round in which a correct member finishes |
| AbaCoin.UnanimousRound | src/async_bin_agreement/async_bin_agreement_round.rs:43-248 | a unanimous quiescent round under a common coin without combine errors: every correct member has finalized the common estimate if it is the coin, and has entered the next round with it otherwise |
| RbcInstance.MessageTracking.HandleReceivedEcho | src/reliable_broadcast/reliable_broadcast.rs:277-279 | exactly this sender joins the set of echoers |
| RbcInstance.MessageTracking.HandleReceivedReady | src/reliable_broadcast/reliable_broadcast.rs:281-283 | exactly this sender joins the set of readiers |
| RbcInstance.PendingMessages.QueueMessage | src/reliable_broadcast/reliable_broadcast.rs:223-235 | an Echo or Ready goes to the back of its own buffer; the other is unchanged |
| RbcInstance.PendingMessages.PopEcho | src/reliable_broadcast/reliable_broadcast.rs:237-239 | removes and returns the oldest queued Echo, if any |
| RbcInstance.PendingMessages.PopReady | src/reliable_broadcast/reliable_broadcast.rs:241-243 | removes and returns the oldest queued Ready, if any |
| RbcInstance.ReliableBroadcastInstance.constructor | src/reliable_broadcast/reliable_broadcast.rs:52-61 | an instance starts in Init without proposal, counted senders or queued messages |
| RbcInstance.ReliableBroadcastInstance.HasPendingMessages | src/reliable_broadcast/reliable_broadcast.rs:63-69 | true if and only if the phase is Proposed with a queued Echo or Echoed with a queued Ready, which is when the next poll returns a message |
| RbcInstance.ReliableBroadcastInstance.PollMessage | src/reliable_broadcast/reliable_broadcast.rs:71-77 | returns a message if and only if the phase is Proposed with a queued Echo or Echoed with a queued Ready: the oldest of that buffer, taken off it; nothing else changes |
| RbcInstance.ReliableBroadcastInstance.ProcessMessage | src/reliable_broadcast/reliable_broadcast.rs:80-155 | new state, result and broadcast are those of the step function |
| RbcInstance.ReliableBroadcastInstance.ProcessEcho | src/reliable_broadcast/reliable_broadcast.rs:115-127 | the echo is counted, and Ready is broadcast on the exact threshold n - 2f |
| RbcInstance.ReliableBroadcastInstance.ProcessReady | src/reliable_broadcast/reliable_broadcast.rs:136-147 | the ready is counted, and the instance finalizes on the exact threshold 2f + 1 |
| RbcInstance.ReliableBroadcastInstance.FinalizeBroadcast | src/reliable_broadcast/reliable_broadcast.rs:187-204 | the outcome in every phase, errors included |
| RbcModel.PollMeaning | src/reliable_broadcast/reliable_broadcast.rs:63-77 | in Init and Ready, or with the phase's buffer empty, a poll returns nothing and changes nothing; else it takes the head of the buffer that the phase counts |
| RbcModel.ResultMeaning | src/reliable_broadcast/reliable_broadcast.rs:90-154 | Finalized is reported if and only if a timely Ready makes 2f + 1 readiers, ignored if and only if a Send comes after a proposal, queued if and only if an Echo or Ready is not for the proposal or not of the phase; otherwise the very message given |
| RbcModel.BroadcastMeaning | src/reliable_broadcast/reliable_broadcast.rs:91-124 | Echo is broadcast exactly on the first Send and for its digest, Ready exactly when a timely Echo makes n - 2f echoers, and nothing else ever |
| RbcModel.ChangeMeaning | src/reliable_broadcast/reliable_broadcast.rs:90-154 | what each message changes, field by field, and nothing else |
| RbcModel.FinalizeIff | src/reliable_broadcast/reliable_broadcast.rs:187-204 | finalizing delivers the proposed batch and digest if and only if the phase is Ready; the missing-proposal error cannot occur |
| RbcModel.ThresholdsAlways | src/reliable_broadcast/reliable_broadcast.rs:90-155 | over any messages and polls: fewer than n - 2f echoers while Proposed and exactly n - 2f from Echoed on, exactly 2f + 1 readiers in Ready, the phase never goes back, the proposal never changes, and n - 2f exceeds f |
| RbcDelivery.EchoPass | src/reliable_broadcast/reliable_broadcast.rs:71-128 | k polls over k queued echoes reach Echoed if the matching senders reach the threshold; otherwise all of those are counted and exactly the mismatched echoes remain, in their order |
| RbcDelivery.ReadyPass | src/reliable_broadcast/reliable_broadcast.rs:71-148 | the same for queued readies from Echoed to Ready |
| RbcDelivery.OrderIndependence | src/reliable_broadcast/reliable_broadcast.rs:71-155 | two instances given the same set of messages with one Send digest, in any orders and with any polls, are in the same phase once no matching pollable message is left, and that phase is the one given by the counts of distinct echoers and readiers delivered |
| RbcSystem.RunInv | src/reliable_broadcast/reliable_broadcast.rs:80-155 | in every run each correct member counted only what was sent, and has sent what its phase and proposal say, each once |
| RbcSafety.Agreement | src/reliable_broadcast/reliable_broadcast.rs:108-148 | no two correct members ever finalize different digests, equivocating sender included, for every committee with intersecting Ready quorums (n = 3f + 1) or intersecting Echo quorums (n > 5f) |
| RbcBoundary.Disagreement | src/reliable_broadcast/reliable_broadcast.rs:117-118 | every other committee admitted by the constructor has a run in which two correct members finalize different digests, although only the designated sender sends a Send |
| RbcBoundary.AgreementIff | src/quorum_info/quorum_info.rs:16 | agreement on the digest holds over all runs if and only if the committee is safe, whether or not others than the designated sender send a Send; with f faulty members, if and only if n = 3f + 1 or n > 5f |
| RbcSafety.BroadcastsOnce | src/reliable_broadcast/reliable_broadcast.rs:95-124 | a correct member has broadcast Echo exactly once and only for its proposal, and Ready exactly once for it if past Proposed and not at all before |
| RbcSafety.BatchAgreement | src/reliable_broadcast/reliable_broadcast.rs:187-204 | the finalized batches agree too, if no two Sends carry one digest with different batches |
| RbcSafety.ReadyIsJustified | src/reliable_broadcast/reliable_broadcast.rs:115-122 | every Ready of a correct member is backed by at least n - 2f >= f + 1 distinct echoers of its digest, a correct one among them |
| RbcSafety.FinalizedIsJustified | src/reliable_broadcast/reliable_broadcast.rs:136-145 | every finalization is backed by at least f + 1 correct Readies for its digest |
| RbcSafety.Integrity | src/reliable_broadcast/reliable_broadcast.rs:91-102 | with a correct designated sender and no other Sends, only its batch and digest are ever finalized |
| RbcSafety.Completion | src/reliable_broadcast/reliable_broadcast.rs:80-204 | with a correct designated sender and no other Sends, once everything between correct members is delivered and no matching pollable message is left, every correct member finalizes the sender's batch and digest |

## Left out

- AbaLock.ValueLock: assumes that combining never fails; AbaLock.LockIff is the exact condition without that assumption.
- RbcSafety.BatchAgreement: conditional on the digest binding its batch, because no instance checks a digest against its payload.
- AbaInstance.PendingMessages.PopMessage: requires that the deque is long enough to drain, because the program panics otherwise; AbaPending.PollDrainsIff says exactly when that is.
- RbcInstance.PendingMessages.QueueMessage: requires an Echo or a Ready, because the program marks the third case unreachable.
- Termination of the binary agreement: split Aux votes can wait forever, and the stack of a round returns a requeued message first. Progress and decision are proved for a unanimous round at quiescence.
- Totality of the reliable broadcast (if one correct member finalizes, all do): there is no Ready amplification, so it is not a property of this code.
- `ABAProtocol::finalize` of the binary agreement is not implemented in the program.
- Threshold signatures, hashing and serialization: foreign calls, here an arbitrary function of the shares or an arbitrary coin.
- `src/dumbo1/` (epochs, ordering, network wrappers): its decisive transitions are not implemented; only the intended committee size is used.
- Committee election and the request aggregator: interfaces without an implementation to model.
- Failed broadcasts: the reliable broadcast logs and continues, the binary agreement panics; here every broadcast succeeds.
- Overflow of machine integers, logging and debug output.
