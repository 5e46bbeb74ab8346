# Linera: verified models of the consensus, messaging and accounting core

Linera runs many small chains ("microchains") on one set of validators. This project models the
parts of the protocol whose correctness is hard to see from the code, as self-contained Dafny
modules, and proves what the code promises about them over all inputs and all runs. Verify it with
`dafny verify dfyconfig.toml`.

## How the models are built

Each stateful component has a value-level specification (a datatype for its state and one function per
operation) and, where the code changes fields in place, a class with those fields whose methods are proved
to do exactly what the specification functions say. The theorems are about the specification functions and
about whole runs of them. Operations that can fail return a `Result`; a failed step of an inbox, a
registry or a chain yields no next state, because the code discards the state then
(linera-chain/src/chain.rs:685-689).

* `Base`, `Runs`: options, results, machine integers; induction along runs.
* `Rounds`, `Committees`: the order of rounds and their successors; weighted quorums.
* `Manager`: the voting rules and the state of one chain manager.
* `VotingRules`, `ManagerHistory`: who is accepted in which round; the manager's state as a function of its history.
* `Consensus`: runs of a committee of honest managers and arbitrary faulty validators.
* `FastLock`: the lock of the fast round: how it is lost, when it is held, and full agreement while it is.
* `Certificates`: aggregating and checking signatures.
* `QuorumResponses`: collecting validator answers until a quorum agrees or none can.
* `Messages`, `Inbox`, `ChainInboxes`: cross-chain bundles, the two-queue inbox, the index of unskippable bundles.
* `Delivery`: what becomes of received bundles, in terms of the kinds and grants of their messages.
* `Outboxes`, `Dispatch`: outboxes, channels, and the counters of undelivered heights; what an execution outcome puts into which outbox.
* `Routing`: message identifiers and the bundles sent to each recipient.
* `Applications`, `Registration`: dependency search and registration on receiving chains.
* `Resources`: fees drained from ordered funding sources.
* `Amounts`: decimal text of amounts.
* `Oracles`: recording and replaying oracle answers.

Main results, hardest first:

* **Consensus safety.** With faulty weight below the validity threshold, in every run at one height, once a
  block is confirmed in a non-fast round no other block is ever validated in that or a later round
  (`LockPersistence`), any two non-fast confirmations agree and any two fast confirmations agree
  (`Agreement`), and without super owners at most one block is confirmed (`AtMostOneBlock`). With super owners
  agreement across all rounds fails (`AgreementFails`); a validator that voted fast refuses other blocks exactly
  while it holds the lock (`FastLockExact`), and runs that respect this agree in full (`CarefulAgreement`,
  `LockedAgreement`).
* **The manager remembers.** After every history the stored proposal, the lock, the timeout, the current round and
  its deadline are exactly those that the requests handled so far call for (`StateOfHistory`,
  `DeadlineOfHistory`); a certificate carried by an accepted proposal binds all later proposals
  (`CarriedCertificateBinds`).
* **Inbox confluence.** A history of adds and removes succeeds exactly when its two logs are reconcilable,
  and the inbox then depends on the logs only, not on their interleaving (`HistoryMatchesLogs`,
  `Confluence`); the lazily cleaned queue of unskippable bundles always lists exactly what is waiting
  (`UnskippableIndex`). Every inbox of a chain goes through exactly the operations of its origin
  (`InboxOfHistory`), so bundles with protected, tracked or granted messages are executed or indexed
  (`DemandingIsExecutedOrIndexed`), and others never stand in the way (`OptionalNeverHoldsUp`).
* **Outbox counters** are exact after every history, so acknowledging never meets a missing counter
  (`OutboxCounters`); what an outcome adds to every queue and channel is stated in full (`OutcomeQueues`,
  `OutcomeChannels`).
* **Dependency search** terminates and lists everything reachable once, and an application after everything it
  needs if and only if it does not need itself (`FindDependencies`); every user message is preceded by such a
  registration message (`EveryMessageAnnounced`); the descriptions register on every chain if and only if there
  are no circles (`RegistersEverywhere`), as on every chain that never changed a description
  (`BuiltRegistersEverywhere`).
* **Aggregation and quorums.** Exactly the call that first brings the signers to a quorum yields the
  certificate (`AnswerOfCall`); the response loop returns the quorum key whenever there is one, and gives up
  early only when no continuation could produce one (`CommunicateWithQuorum`, `HopelessIsFinal`,
  `StillPossible`).
* **Accounting.** A run of charges succeeds exactly when there is room and money for all of it, and is then
  one in-order payment of the total (`RunVerdict`); a user action on the merged balance refines direct
  charging (`UserActionRefinesRun`); the remaining fuel is exact (`RemainingFuelIsExact`).
* **Round trips.** Amounts parse back from their text exactly when at most 18 decimals were asked for
  (`DisplayParses`); posted messages are found again under their index (`PostedIndexFound`); replaying a live
  execution's record reproduces its answers and its record (`ReplayReproduces`).

Where the documentation and the code differ, the model follows the code:

* The header of linera-chain/src/manager.rs (lines 6-9 and 38-44) promises one confirmed block per height in
  all rounds. The lock of the fast round is held only by the stored proposal (lines 259-268), which the next
  accepted proposal replaces (line 382), so a block confirmed in the fast round can be followed by another one:
  `AgreementFails` gives the run. `FastLockExact` says when a validator still refuses other blocks: the fast
  proposal is still the stored one, or there is a lock, or no round is left.
* The comment at linera-execution/src/applications.rs:146 promises descriptions preceded by their recursive
  dependencies. Identifiers do not cover the requirements (linera-base/src/data_types.rs:807-813) and registering
  again replaces, so a chain can hold circular dependencies (`CircularRegistry`). The search then still succeeds,
  and the promise holds for exactly the applications that do not need themselves. A registry in which no
  description was ever changed has no circles (`BuiltAcyclic`).
* `message_bundles_for` numbers messages with 32-bit arithmetic; `PostedIndexFound` states the truncation and
  that it is invisible in blocks of at most 2^32 messages.

## Model

| member | source | states |
|---|---|---|
| `Rounds.RankIsDerivedOrder` | linera-base/src/data_types.rs:101-115 | the rank used for comparisons is exactly the derived order: kind of round first, then number, and equal ranks are equal rounds |
| `Rounds.NextRoundIncreases` | linera-base/src/ownership.rs:157-172 | the successor of a round is strictly later, and only the very last round has none |
| `Rounds.RoundAfterTimeoutMonotone` | linera-base/src/ownership.rs:157-172 | successors preserve the order of rounds, also where the last round saturates |
| `Rounds.NextRoundSkipsNothing` | linera-base/src/ownership.rs:157-172 | between a round and its successor lie only multi-leader rounds beyond the configured number |
| `Rounds.NextRoundIsConfigured` | linera-base/src/ownership.rs:157-172 | a successor that is a multi-leader round is one of the configured ones |
| `Rounds.FirstRoundIsFirstOpen` | linera-base/src/ownership.rs:132-142 | the first round is the earliest one in which somebody may propose |
| `Rounds.DurationsGrow` | linera-base/src/ownership.rs:112-129 | single-leader and validator rounds start with the base timeout and each lasts longer than the one before by the increment, up to saturation |
| `Rounds.LastMultiLeaderTimesOut` | linera-base/src/ownership.rs:112-129 | of the configured multi-leader rounds only the last one has a duration, the base timeout |
| `Committees.NewCommittee` | linera-execution/src/committee.rs:292-312 | adds up the votes of all validators and sets both thresholds from the total |
| `Committees.Thresholds` | linera-execution/src/committee.rs:296-302 | two quorums overlap in the validity threshold, and what is outside a quorum is below it, for every total |
| `Committees.QuorumsOverlap` | linera-execution/src/committee.rs:296-302 | any two quorums share signers of at least the validity threshold |
| `Committees.QuorumsShareCorrect` | linera-execution/src/committee.rs:296-302 | with faulty weight below the validity threshold two quorums share a validator that is not faulty |
| `Manager.ChainManager.constructor` | linera-chain/src/manager.rs:160-209 | a new manager starts in the first round, with its deadline, knowing nothing |
| `Manager.ChainManager.UpdateRound` | linera-chain/src/manager.rs:447-467 | moves to the highest round known and restarts its deadline, or changes nothing |
| `Manager.ChainManager.Propose` | linera-chain/src/manager.rs:374-414 | records the proposal, takes over a newer lock that certifies the executed block, and votes: confirm in the fast round, validate otherwise; after an accepted proposal the current round is exactly the proposal's and the highest known |
| `Manager.ChainManager.Confirm` | linera-chain/src/manager.rs:417-442 | locks the validated block and votes to confirm it, unless a validator is already in a later round; the current round stays exactly the highest known and does not decrease |
| `Manager.ChainManager.HandleTimeout` | linera-chain/src/manager.rs:471-485 | keeps the timeout certificate of the highest round and enters the round after it; the current round stays exactly the highest known and does not decrease |
| `Manager.AcceptedProposalRound` | linera-chain/src/manager.rs:217-282 | an accepted proposal is not before the current round, and strictly after the certificate it carries and the previous proposal |
| `Manager.CreateVoteTracks` | linera-chain/src/manager.rs:374-414 | although the lock changes after the round update, the current round stays exactly the highest known and does not decrease |
| `Manager.CreateFinalVoteTracks` | linera-chain/src/manager.rs:417-442 | confirming keeps the current round exact and does not lower it |
| `Manager.HandleTimeoutTracks` | linera-chain/src/manager.rs:471-485 | a timeout keeps the current round exact and does not lower it |
| `Manager.PendingIsLastVote` | linera-chain/src/manager.rs:374-442 | a request leaves pending exactly the vote it made the validator sign, or the earlier one if it made it sign none |
| `Manager.RoundTracking` | linera-chain/src/manager.rs:447-467 | after every history the current round is the maximum of the rounds the state knows and has a deadline exactly if it has a duration, and no continuation lowers it |
| `VotingRules.RegularOwnerStaysFast` | linera-chain/src/manager.rs:230-249 | in the fast round a certificate-free proposal of a regular owner in a later round is refused |
| `VotingRules.AnyOwnerEntersEarly` | linera-chain/src/manager.rs:230-249 | outside the fast round, without a lock or a stored proposal from that round on, every owner is accepted in any round from the current one to the first single-leader round |
| `VotingRules.SuperOwnerEntersEarly` | linera-chain/src/manager.rs:230-249 | a super owner is accepted in any round from the current one on |
| `VotingRules.RegularOwnerWaits` | linera-chain/src/manager.rs:230-249 | above the first single-leader round a regular owner is accepted only in exactly the current round or the one after the certificate, whichever is later |
| `VotingRules.AcceptedExactly` | linera-chain/src/manager.rs:217-282 | the full condition, both ways, under which a proposal is accepted |
| `VotingRules.RoundErrors` | linera-chain/src/manager.rs:235-249 | a wrong round is reported with the due round, as insufficient exactly to those who may go ahead and as wrong exactly to the others |
| `VotingRules.LockRefuses` | linera-chain/src/manager.rs:270-280 | a proposal in time whose certificate is missing or older than the lock is refused with the lock's height and round |
| `VotingRules.CertificateOpensDueRound` | linera-chain/src/manager.rs:217-282 | a certificate that the lock allows gets every owner accepted in the due round |
| `VotingRules.LastHeightRefused` | linera-chain/src/manager.rs:217-282 | exactly the last height is refused as such |
| `VotingRules.AcceptedThenSkipped` | linera-chain/src/manager.rs:250-253 | an accepted proposal that comes again is skipped |
| `VotingRules.SkippedIsStored` | linera-chain/src/manager.rs:250-253 | only the stored content is skipped |
| `VotingRules.ConfirmedThenSkipped` | linera-chain/src/manager.rs:337-371 | a validated block that was confirmed is skipped when it comes again |
| `VotingRules.AcceptedCertificate` | linera-chain/src/manager.rs:337-371 | a validated block is not accepted over a pending timeout vote, a later vote to validate, the same vote to confirm, or a lock as recent |
| `ManagerHistory.NewestIsNewest` | linera-chain/src/manager.rs:387-399 | the newest certificate is one of those offered and none of them is newer |
| `ManagerHistory.HighestIsHighest` | linera-chain/src/manager.rs:447-467 | the highest round is one of those offered and none of them is higher |
| `ManagerHistory.StateOfHistory` | linera-chain/src/manager.rs:374-485 | after every history the stored proposal is the last one accepted, the lock the newest certificate offered by accepted proposals and validated blocks, the timeout the newest of all timeout certificates, and the current round the highest of the first round, the rounds of accepted proposals and validated blocks and the successors of all timeouts |
| `ManagerHistory.PendingOfHistory` | linera-chain/src/manager.rs:374-442 | after every history the pending vote is the last block vote the history called for; a node without a signing key never gets one |
| `ManagerHistory.NoTimeoutForgotten` | linera-chain/src/manager.rs:471-485 | the current round is at or after the successor of every timeout certificate ever received |
| `ManagerHistory.CarriedBecomesLock` | linera-chain/src/manager.rs:387-399 | accepting a proposal takes over the certificate it carries for the executed block, unless the lock is from that very round |
| `ManagerHistory.TakenBecomesLock` | linera-chain/src/manager.rs:417-442 | a validated block that is taken up becomes the lock |
| `ManagerHistory.LockOnlyGrows` | linera-chain/src/manager.rs:374-442 | over every continuation a lock is replaced only by newer ones |
| `ManagerHistory.CarriedCertificateBinds` | linera-chain/src/manager.rs:270-280 | once a proposal with a certificate was accepted, at every later point the lock is at least as recent, and so is the certificate of every proposal accepted |
| `ManagerHistory.DeadlineOfHistory` | linera-chain/src/manager.rs:447-467 | after every history the deadline is the duration of the current round after the moment it was entered, saturating, if it has one |
| `Consensus.StepAdvances` | linera-chain/src/manager.rs:217-485 | no request moves the lock, the proposal or the current round of a validator backwards |
| `Consensus.ProposalVoteOrdered` | linera-chain/src/manager.rs:270-280 | a vote for a proposal follows all earlier votes; after a non-fast vote to confirm it rests on a certificate for its own block from in between |
| `Consensus.FinalVoteOrdered` | linera-chain/src/manager.rs:337-371 | a vote to confirm follows all earlier votes and is the only one to confirm in its round |
| `Consensus.NodeStepInv` | linera-chain/src/manager.rs:217-485 | every request keeps the voting invariant of an honest validator |
| `Consensus.RunInv` | linera-chain/src/manager.rs:28-44 | the voting invariant holds at every point of every run |
| `Consensus.OneValidationPerRound` | linera-chain/src/manager.rs:250-258 | in one round at most one executed block is validated |
| `Consensus.ConfirmedWasValidated` | linera-chain/src/manager.rs:417-442 | a block confirmed outside the fast round was validated in the same round |
| `Consensus.LockPersists` | linera-chain/src/manager.rs:38-44 | in a reachable network, a block confirmed in a non-fast round is the only one validated in that or later rounds, by induction along the certificates that proposals carry |
| `Consensus.LockPersistence` | linera-chain/src/manager.rs:38-44 | lock persistence between any two points of any run |
| `Consensus.FastConfirmationUnique` | linera-chain/src/manager.rs:250-258 | at most one executed block is confirmed in the fast round |
| `Consensus.Agreement` | linera-chain/src/manager.rs:6-9 | any two confirmation certificates of a run carry the same executed block if both are fast or neither is; across the two kinds see `AgreementFails` and `CarefulAgreement` |
| `Consensus.NoFastRound` | linera-chain/src/manager.rs:489-515 | without super owners nothing is certified in the fast round |
| `Consensus.AtMostOneBlock` | linera-chain/src/manager.rs:6-9 | without super owners a height is confirmed at most once |
| `Consensus.VoteDiscipline` | linera-chain/src/manager.rs:28-37 | an honest validator's rounds never decrease, and in one round it casts at most a vote to validate followed by one to confirm |
| `Consensus.PendingIsLast` | linera-chain/src/manager.rs:374-442 | at every point of every run the pending vote of an honest validator is the last vote it signed |
| `Consensus.CertificateConfirmed` | linera-chain/src/manager.rs:337-371 | in every reachable network an honest validator votes to confirm a validated block from its current round or later that is newer than its lock |
| `Consensus.OneRegularProposer` | linera-chain/src/manager.rs:489-515 | in single-leader and validator rounds at most one regular owner may propose, the leader |
| `Consensus.SharedRounds` | linera-chain/src/manager.rs:489-515 | in multi-leader rounds exactly the owners of either kind may propose, in the fast round exactly the super owners |
| `FastLock.FastLockExact` | linera-chain/src/manager.rs:259-280 | in every reachable network, a validator that voted for a block in the fast round accepts no other block without a certificate if and only if its stored proposal is still fast, or it has a lock, or its stored proposal is in the very last round |
| `FastLock.HeldLockAccepts` | linera-chain/src/manager.rs:259-280 | while the lock is held, an accepted proposal without a certificate is for the block voted for |
| `FastLock.LostLockAccepts` | linera-chain/src/manager.rs:217-282 | otherwise a super owner has a proposal for another block that is accepted |
| `FastLock.TwoBlocksConfirmed` | linera-chain/src/manager.rs:374-442 | for every validator that is a quorum by itself, every super owner and any two executed blocks, a run that confirms one in the fast round and the other in a multi-leader round |
| `FastLock.AgreementFails` | linera-chain/src/manager.rs:6-9 | for every ownership with super owners there is a committee and a run in which two different executed blocks are confirmed |
| `FastLock.CarefulStepKept` | linera-chain/src/manager.rs:33-37 | a vote to validate after a fast confirmation is for the same block or rests on a certificate from in between, if no validator that voted fast accepts another executed block without a certificate |
| `FastLock.FastLockPersists` | linera-chain/src/manager.rs:38-44 | then a block confirmed in the fast round is the only one ever validated |
| `FastLock.CarefulAgreement` | linera-chain/src/manager.rs:6-9 | in every run in which no honest validator that voted fast accepts another executed block without a certificate, any two confirmations agree, fast or not |
| `FastLock.LockedAgreement` | linera-chain/src/manager.rs:6-9 | the same if every validator that voted fast holds the lock whenever it moves, and executing a block has one outcome |
| `Certificates.NeighboursSuffice` | linera-chain/src/data_types.rs:1108-1110 | comparing neighbours is equivalent to the whole list being strictly ordered, which names nobody twice |
| `Certificates.FindPlace` | linera-chain/src/data_types.rs:1163-1173 | binary search finds the one place of a validator in an ordered list |
| `Certificates.InsertKeepsOrder` | linera-chain/src/data_types.rs:1163-1173 | inserting a new signer there keeps the list strictly ordered |
| `Certificates.InsertAdds` | linera-chain/src/data_types.rs:1163-1173 | insertion adds exactly the new signature and loses none |
| `Certificates.SignatureAggregator.constructor` | linera-chain/src/data_types.rs:1061-1072 | an aggregator starts without weight, signers or signatures |
| `Certificates.SignatureAggregator.AddSignature` | linera-chain/src/data_types.rs:1163-1173 | keeps the signatures ordered and adds exactly one signer |
| `Certificates.SignatureAggregator.AppendSignature` | linera-chain/src/data_types.rs:1077-1103 | checks, marks the validator as used, adds the weight and the signature, and resets the weight when it yields the certificate |
| `Certificates.AnswerOfCall` | linera-chain/src/data_types.rs:1077-1103 | in every run, which answer a call gives, from the calls alone: each error exactly when its cause holds, and the certificate exactly at the call that first brings the signers to a quorum |
| `Certificates.AtMostOneCertificate` | linera-chain/src/data_types.rs:1077-1103 | no run yields two certificates |
| `Certificates.SomeCertificate` | linera-chain/src/data_types.rs:1077-1103 | a run whose signers reach a quorum yields a certificate |
| `Certificates.CertificateIsProper` | linera-chain/src/data_types.rs:1074-1076 | the certificate is strictly ordered, lists exactly the signers so far with signatures that were offered, and passes the check |
| `Certificates.CheckSignatures` | linera-chain/src/data_types.rs:1269-1298 | accepts exactly lists of distinct voting validators with valid signatures and a quorum; the error is decided by the first fault |
| `Certificates.CertificatesOverlap` | linera-chain/src/data_types.rs:1269-1298 | two accepted certificates share a signer that is not faulty |
| `QuorumResponses.OneQuorumKey` | linera-core/src/updater.rs:172-178 | at most one key can reach a quorum, so the order of the map is irrelevant |
| `QuorumResponses.TrustedRulesOutQuorum` | linera-core/src/updater.rs:148-156 | once an error has the validity threshold, no key has a quorum however the collection goes on |
| `QuorumResponses.TrustedIsHonest` | linera-core/src/updater.rs:151-154 | a trusted error was returned by a validator that is not faulty |
| `QuorumResponses.HopelessIsFinal` | linera-core/src/updater.rs:158-165 | when the best key and the remaining votes are below the quorum, no continuation brings any key to it |
| `QuorumResponses.StillPossible` | linera-core/src/updater.rs:158-165 | otherwise some continuation does, so the cutoff is exact |
| `QuorumResponses.SettledByTally` | linera-core/src/updater.rs:158-165 | the loop's test on its two counters says exactly that a key has a quorum or none can get one |
| `QuorumResponses.SampleErrors` | linera-core/src/updater.rs:187-191 | at most four errors, all or the heaviest, in descending order |
| `QuorumResponses.Collect` | linera-core/src/updater.rs:126-166 | the tables are exact after every response; the loop stops at the first trusted error; the grace period begins exactly once the outcome is settled |
| `QuorumResponses.CommunicateWithQuorum` | linera-core/src/updater.rs:98-192 | returns Ok exactly if a key has a quorum, with that key and its values in order of arrival; a trusted error exactly if there is one; otherwise, no consensus if no error was reported, or else a sample of the heaviest errors |
| `Messages.PosIsDerivedOrder` | linera-chain/src/inbox.rs:55-72 | positions compare like cursors: height first, then index |
| `Inbox.InboxStateView.constructor` | linera-chain/src/inbox.rs:27-53 | a new inbox is empty with both cursors at the origin |
| `Inbox.InboxStateView.Remove` | linera-chain/src/inbox.rs:169-223 | discards skippable bundles before the one consumed, then takes it from the queue or anticipates it, with the errors in order |
| `Inbox.InboxStateView.Add` | linera-chain/src/inbox.rs:229-274 | reconciles the bundle with the front of the anticipated ones or queues it, with the errors in order |
| `Inbox.AddVerdict` | linera-chain/src/inbox.rs:229-274 | adding succeeds exactly when the longer log of adds is still reconcilable with the removes |
| `Inbox.AddResult` | linera-chain/src/inbox.rs:229-274 | the inbox then represents the longer log, and the flag tells whether the bundle is waiting |
| `Inbox.RemoveVerdict` | linera-chain/src/inbox.rs:169-223 | removing succeeds exactly when the longer log of removes is still reconcilable with the adds |
| `Inbox.RemoveResult` | linera-chain/src/inbox.rs:169-223 | the inbox then represents the longer log, and the flag tells whether the bundle had been added |
| `Inbox.HistoryMatchesLogs` | linera-chain/src/inbox.rs:27-53 | a history succeeds exactly when its logs are increasing, countable and compatible, and the inbox is the one they represent |
| `Inbox.Confluence` | linera-chain/src/inbox.rs:27-53 | every interleaving of the same logs gives the same verdict and the same inbox |
| `Inbox.ReachableInbox` | linera-chain/src/inbox.rs:27-53 | the queues are the logs restricted to what is due, in order; at most one is non-empty; both empty means equal cursors |
| `Inbox.UnskippableNeverLost` | linera-chain/src/inbox.rs:182-196 | an unskippable bundle that was added has been consumed or is still waiting |
| `Inbox.NextHeightFollowsLog` | linera-chain/src/inbox.rs:157-164 | the next height to receive is the one after the last block received, or the first |
| `ChainInboxes.SettleKeepsLive` | linera-chain/src/chain.rs:659-681 | lazy deletion leaves the same live list as deleting at once, and the front is never dead |
| `ChainInboxes.UnskippableIndex` | linera-chain/src/chain.rs:527-683 | after every history the queue without its dead entries lists exactly the unskippable bundles still waiting, in order of arrival; dead entries are in the queue but never at its front |
| `ChainInboxes.GroupByOrigin` | linera-chain/src/chain.rs:622-636 | groups a block's bundles by origin in order, and fails if one is later than the block |
| `ChainInboxes.RemoveFromInbox` | linera-chain/src/chain.rs:648-657 | removes one origin's bundles in order and collects the unskippable ones that were present |
| `ChainInboxes.RemoveGroups` | linera-chain/src/chain.rs:637-658 | handles each origin's inbox on its own, in any order of origins |
| `ChainInboxes.ChainState.constructor` | linera-chain/src/chain.rs:261-266 | a new chain has no inboxes and nothing unskippable |
| `ChainInboxes.ChainState.ReceiveMessageBundle` | linera-chain/src/chain.rs:527-594 | adds the bundle to its inbox and, if it is new and unskippable, to the index |
| `ChainInboxes.ChainState.SettleQueue` | linera-chain/src/chain.rs:659-681 | deletes dead entries from the front of the index and remembers the others |
| `ChainInboxes.ChainState.RemoveBundlesFromInboxes` | linera-chain/src/chain.rs:622-683 | succeeds exactly when every inbox can give up the block's bundles, and then all inboxes and the index are as specified |
| `Delivery.DemandsOrOptional` | linera-chain/src/data_types.rs:801-807 | a bundle may be skipped exactly if all its messages are simple or bouncing without grant, that is, none is protected, tracked or has a grant |
| `Delivery.DemandingNeverLost` | linera-chain/src/inbox.rs:182-196 | in every history of an inbox, an added bundle with a protected, tracked or granted message was consumed or is waiting |
| `Delivery.HeldUpExactly` | linera-chain/src/inbox.rs:182-196 | a removal is refused for the sake of another bundle exactly if such a bundle waits before it |
| `Delivery.DemandingHoldsUp` | linera-chain/src/inbox.rs:182-196 | while such a bundle waits, no later bundle can be removed |
| `Delivery.OptionalNeverHoldsUp` | linera-chain/src/inbox.rs:182-196 | bundles of simple or bouncing messages without grant never stand in the way: a later removal goes as if they had not been there |
| `Delivery.InboxOfHistory` | linera-chain/src/chain.rs:527-683 | every inbox of a chain goes through exactly the adds and removes of its origin |
| `Delivery.BlockVerdict` | linera-chain/src/chain.rs:622-683 | a block can be executed exactly if none of its bundles is later than the block and for every origin the logs can be reconciled |
| `Delivery.ReceiveVerdict` | linera-chain/src/chain.rs:565-587 | a bundle of subscriptions and unsubscriptions alone stays out of the inboxes, and any other one is received exactly if the logs can be reconciled |
| `Delivery.LiveIsDemanding` | linera-chain/src/chain.rs:568-587 | the live index holds exactly the waiting bundles with a protected, tracked or granted message |
| `Delivery.DemandingIsExecutedOrIndexed` | linera-chain/src/chain.rs:527-683 | every such bundle that a chain received for an inbox was executed by a block or is in the live index |
| `Delivery.SeenWhenReceived` | linera-chain/src/chain.rs:580-587 | the index remembers for every entry the local time at which its bundle was received |
| `Outboxes.ScheduleAllCounts` | linera-chain/src/chain.rs:1145-1156 | scheduling a height to many targets keeps every counter exact |
| `Outboxes.ProcessOutcomeCounts` | linera-chain/src/chain.rs:1086-1195 | a whole execution outcome, with direct, broadcast, subscribe and unsubscribe parts, keeps every counter exact |
| `Outboxes.MarkReceivedCounts` | linera-chain/src/chain.rs:410-440 | acknowledging never meets a missing or exhausted counter and keeps every counter exact, including when the outbox is deleted |
| `Outboxes.MarkReceivedRemoves` | linera-chain/src/chain.rs:410-440 | an acknowledgement removes exactly the heights up to it, from exactly that outbox |
| `Outboxes.MarkReceivedDeletes` | linera-chain/src/chain.rs:410-440 | an outbox from which something was acknowledged is deleted exactly if nothing is left in it, otherwise it remembers its next height; other outboxes stay as they are |
| `Outboxes.OutboxCounters` | linera-chain/src/chain.rs:410-453 | after every history a counter is the number of outboxes holding the height, zero counters are absent, and every acknowledgement goes through |
| `Outboxes.CountersFit` | linera-chain/src/chain.rs:271 | after every history a counter is positive and at most the number of outboxes, so it fits in 32 bits if that number does |
| `Outboxes.AllMessagesDeliveredUpTo` | linera-chain/src/chain.rs:442-453 | looking at the lowest counter tells exactly whether some queue still holds a height up to the given one |
| `Outboxes.ScheduleOneMore` | linera-chain/src/chain.rs:1145-1156 | scheduling to a set of targets can be done one at a time in any order |
| `Outboxes.TakeCovered` | linera-chain/src/outbox.rs:57-70 | splits a queue after exactly the heights that are acknowledged |
| `Outboxes.ChainOutboxesView.constructor` | linera-chain/src/chain.rs:267-273 | a new chain has no outboxes, counters or channels |
| `Outboxes.ChainOutboxesView.ScheduleTo` | linera-chain/src/outbox.rs:43-53 | queues a height unless it is already scheduled, and counts it |
| `Outboxes.ChainOutboxesView.ScheduleToAll` | linera-chain/src/chain.rs:1145-1156 | schedules to every target of a set |
| `Outboxes.ChainOutboxesView.CountDown` | linera-chain/src/chain.rs:420-433 | counts down once per acknowledged height and deletes counters that reach zero |
| `Outboxes.ChainOutboxesView.MarkMessagesAsReceived` | linera-chain/src/chain.rs:410-440 | takes the acknowledged heights off the queue, counts them down and deletes an emptied outbox |
| `Outboxes.ChainOutboxesView.ScheduleHeightsTo` | linera-chain/src/chain.rs:1241-1248 | schedules several heights to one target in order, and tells whether any was new |
| `Outboxes.ChainOutboxesView.SubscribeTo` | linera-chain/src/chain.rs:1217-1249 | a new subscriber is sent every height broadcast so far, an existing one nothing; the flag tells whether a counter went up |
| `Outboxes.ChainOutboxesView.ProcessSubscriptions` | linera-chain/src/chain.rs:1199-1251 | handles subscriptions to distinct channels in order, and fails if a channel appears twice; the flag tells exactly whether new outbox entries were created |
| `Outboxes.ChainOutboxesView.ProcessUnsubscriptions` | linera-chain/src/chain.rs:1253-1274 | removes subscribers from distinct channels, and fails if a channel appears twice |
| `Outboxes.ChainOutboxesView.ProcessRawExecutionOutcome` | linera-chain/src/chain.rs:1086-1195 | sends direct messages, unsubscribes, broadcasts to the remaining subscribers and subscribes, in this order |
| `Dispatch.ScheduleListQueue` | linera-chain/src/outbox.rs:43-53 | which heights of a list end up in a queue, and from where on the outbox takes further ones |
| `Dispatch.OrderedHeightsGetIn` | linera-chain/src/outbox.rs:43-53 | of heights recorded in order, exactly those that are new for the outbox get in |
| `Dispatch.OutcomeQueues` | linera-chain/src/chain.rs:1086-1195 | for every target and height, the height is in the queue after a successful outcome exactly if it was before, or it is the outcome's own new height and the target is a direct recipient or a chain subscribed to a broadcast channel after the unsubscriptions, or the target newly subscribes and it is one of the channel's recorded heights that is new |
| `Dispatch.OutcomeChannels` | linera-chain/src/chain.rs:1158-1274 | which chains subscribe to every channel afterwards, and that exactly the broadcast channels record the height |
| `Dispatch.OutcomeVerdict` | linera-chain/src/chain.rs:1086-1274 | below the last height an outcome fails exactly if it names a channel twice among its subscriptions or among its unsubscriptions |
| `Routing.MessageById` | linera-chain/src/data_types.rs:854-871 | finds the message at a position of the block counted over all transactions, and nothing for other chains, heights or positions |
| `Routing.OperationMessageFound` | linera-chain/src/data_types.rs:827-852 | the identifier given to an operation's message leads back to that message |
| `Routing.OperationMessageNamed` | linera-chain/src/data_types.rs:827-852 | in a block that can be numbered, exactly the existing messages of an operation have an identifier |
| `Routing.CollectAddressed` | linera-chain/src/data_types.rs:1232-1236 | picks the messages of a transaction addressed to the recipient, with their indices |
| `Routing.MessageBundlesFor` | linera-chain/src/data_types.rs:1222-1251 | computes the bundles of a recipient with the block's epoch, with a running index truncated to 32 bits |
| `Routing.BundlesHoldAddressed` | linera-chain/src/data_types.rs:1222-1251 | the bundles together hold exactly the recipient's messages, in block order |
| `Routing.BundleSource` | linera-chain/src/data_types.rs:1218-1221 | each bundle is the non-empty share of one transaction |
| `Routing.BundlesIncrease` | linera-chain/src/data_types.rs:1222-1251 | the transaction indices of the bundles are strictly increasing |
| `Routing.PostedIndexFound` | linera-chain/src/data_types.rs:1222-1251 | a posted index is the position in the block truncated to 32 bits, and in a block of at most 2^32 messages looking it up gives the message back |
| `Routing.AddressedIsBundled` | linera-chain/src/data_types.rs:1222-1251 | no message addressed to the recipient is missing |
| `Routing.PostedComesFrom` | linera-chain/src/data_types.rs:302-340 | a message in a direct bundle was directed at the recipient, one in a channel bundle at the subscribers of that name by that application, and its signer, grant, refund account, kind and content are unchanged |
| `Routing.DirectedIsPosted` | linera-chain/src/data_types.rs:302-340 | every message so directed is in the bundle of its transaction, unchanged |
| `Applications.PushChildren` | linera-execution/src/applications.rs:137-141 | pushes exactly the unseen requirements, the first one last |
| `Applications.PendingIsReversed` | linera-execution/src/applications.rs:137-141 | popped from the stack, the pushed requirements are the unseen ones in their own order |
| `Applications.NeedsSorted` | linera-execution/src/applications.rs:120-126 | on the second visit of an entry that does not need itself, everything it needs has been sorted |
| `Applications.FindDependencies` | linera-execution/src/applications.rs:104-144 | terminates on any relation; succeeds exactly if everything reachable is known, listing it exactly once, and an application after all its recursive requirements if and only if it does not need itself; otherwise names an unknown reachable application |
| `Registration.ApplicationRegistryView.constructor` | linera-execution/src/applications.rs:25-29 | wraps the applications known so far |
| `Registration.ApplicationRegistryView.RegisterApplication` | linera-execution/src/applications.rs:52-63 | registers an application whose requirements are known, and otherwise names the first unknown one |
| `Registration.FirstUnknownIsFirst` | linera-execution/src/applications.rs:56-59 | the error names the first requirement that is unknown |
| `Registration.DescribeApplicationsWithDependencies` | linera-execution/src/applications.rs:147-163 | describes everything reachable in the order of the search, or names an unknown reachable application |
| `Registration.AllRequirementsFirst` | linera-execution/src/applications.rs:104-144 | in dependency order all recursive requirements come first, not only the direct ones |
| `Registration.SortedRegisters` | linera-execution/src/applications.rs:52-63 | in dependency order registration succeeds on every chain and adds exactly the described applications |
| `Registration.RegisteredIsSorted` | linera-execution/src/applications.rs:52-63 | an order that registers on an empty chain is a dependency order |
| `Registration.RegistersEverywhere` | linera-execution/src/applications.rs:147-163 | the descriptions register on every chain if and only if there are no circular dependencies |
| `Registration.CircularRegistry` | linera-execution/src/applications.rs:52-63 | any two applications can be registered so that each needs the other |
| `Registration.RegisteredWellKeyed` | linera-execution/src/applications.rs:59-61 | registering files every description under its own identifier |
| `Registration.BuiltAcyclic` | linera-execution/src/applications.rs:52-63 | a registry built from nothing without ever changing a description is closed under requirements and has no circles |
| `Registration.BuiltRegistersEverywhere` | linera-execution/src/applications.rs:104-163 | on such a registry the search for known applications never fails, and what it describes registers on every chain |
| `Registration.AllSendersSend` | linera-execution/src/execution.rs:240-255 | the collected senders of a destination are exactly the applications with a message to it |
| `Registration.CollectSenders` | linera-execution/src/execution.rs:240-255 | collects them in one pass over all outcomes |
| `Registration.Announcements` | linera-execution/src/execution.rs:261-283 | exactly one registration message per destination and nothing else, or an unknown application that some sender needs |
| `Registration.UpdateExecutionOutcomes` | linera-execution/src/execution.rs:236-299 | inserts the registration messages before the first user outcome, or changes nothing if no user message is sent |
| `Registration.FirstUserIsFirst` | linera-execution/src/execution.rs:290-294 | the place of the insertion is that of the first user outcome, or the end |
| `Registration.EveryMessageAnnounced` | linera-execution/src/execution.rs:232-299 | in the updated outcomes, whatever the registry, every user message is preceded by a registration message to its destination that lists the application and everything it needs; it lists the application after everything it needs exactly if the application does not need itself (the converse for registries filed by identifier) |
| `Registration.UpdateOnlyInserts` | linera-execution/src/execution.rs:290-299 | without the inserted outcome the transaction is unchanged |
| `Resources.PayIsExact` | linera-execution/src/resources.rs:367-381 | a debt is paid exactly if the sources suffice together, and exactly the debt is taken |
| `Resources.PayIsInOrder` | linera-execution/src/resources.rs:367-381 | the first sources give all they can before any later one gives anything |
| `Resources.PayTwice` | linera-execution/src/resources.rs:367-381 | two payments drain the sources like one payment of their sum |
| `Resources.CountedCosts` | linera-execution/src/policy.rs:133-165 | each report adds exactly its price to the policy cost of the tracker |
| `Resources.TrackVerdict` | linera-execution/src/resources.rs:122-253 | a report succeeds exactly if counters and limits have room and the sources can pay, and then is one in-order payment of its price |
| `Resources.RunVerdict` | linera-execution/src/resources.rs:122-253 | a whole run succeeds exactly if there is room for all reports and the sources can pay the total, and ends as after one payment of the total |
| `Resources.RunConserves` | linera-execution/src/resources.rs:122-253 | over every successful run the sources plus the cost of the tracker stay constant |
| `Resources.RunDrainsInOrder` | linera-execution/src/resources.rs:367-381 | over a whole run later sources are untouched as long as earlier ones suffice |
| `Resources.UserActionVerdict` | linera-execution/src/execution.rs:193-228 | a user action takes exactly its added cost, in order, from the sources as they are at its end, and succeeds exactly if both balances allow it |
| `Resources.UserActionRefinesRun` | linera-execution/src/execution.rs:193-228 | undisturbed, working on the merged balance gives the same verdict and state as charging the sources directly |
| `Resources.MergeMovesDifference` | linera-execution/src/resources.rs:86-98 | merging moves exactly the difference of the balances: a loss is paid in order, a gain goes to the last source |
| `Resources.MergeVerdict` | linera-execution/src/resources.rs:86-98 | merging fails exactly if the loss exceeds the sources or the gain does not fit into the last one |
| `Resources.RemainingFuelIsExact` | linera-execution/src/resources.rs:111-119 | within the block limit, exactly the amounts up to the remaining fuel can be used |
| `Resources.ResourceController.constructor` | linera-execution/src/resources.rs:23-30 | holds a policy, a tracker and the sources |
| `Resources.ResourceController.Balance` | linera-execution/src/resources.rs:352-358 | the sum of the sources, or an overflow exactly if it exceeds 128 bits |
| `Resources.ResourceController.TrySubAssign` | linera-execution/src/resources.rs:367-381 | drains the sources in order, also when they do not suffice |
| `Resources.ResourceController.TryAddAssign` | linera-execution/src/resources.rs:360-365 | credits the last source |
| `Resources.ResourceController.UpdateBalance` | linera-execution/src/resources.rs:101-108 | pays fees or reports insufficient funding |
| `Resources.ResourceController.MergeBalance` | linera-execution/src/resources.rs:86-98 | transfers the difference of two balances to or from the sources |
| `Resources.ResourceController.RemainingFuel` | linera-execution/src/resources.rs:111-119 | the fuel the balance can buy within the block limit |
| `Resources.ResourceController.TrackGrant` | linera-execution/src/resources.rs:122-125 | tracks and pays a grant; succeeds exactly if there is room and money, and then takes exactly the price, in order |
| `Resources.ResourceController.TrackBlock` | linera-execution/src/resources.rs:128-136 | tracks and pays a block; succeeds exactly if there is room and money, and then takes exactly the price, in order |
| `Resources.ResourceController.TrackOperation` | linera-execution/src/resources.rs:139-161 | tracks and pays an operation and then the bytes of a user operation; succeeds exactly if there is room and money, and then takes exactly the price, in order |
| `Resources.ResourceController.TrackMessage` | linera-execution/src/resources.rs:164-186 | tracks and pays a message and then the bytes of a user message; succeeds exactly if there is room and money, and then takes exactly the price, in order |
| `Resources.ResourceController.TrackFuel` | linera-execution/src/resources.rs:189-201 | tracks fuel, checks the block limit and pays; succeeds exactly if there is room and money, and then takes exactly the price, in order |
| `Resources.ResourceController.TrackReadOperations` | linera-execution/src/resources.rs:204-212 | tracks and pays read operations; succeeds exactly if there is room and money, and then takes exactly the price, in order |
| `Resources.ResourceController.TrackWriteOperations` | linera-execution/src/resources.rs:215-223 | tracks and pays write operations; succeeds exactly if there is room and money, and then takes exactly the price, in order |
| `Resources.ResourceController.TrackBytesRead` | linera-execution/src/resources.rs:226-238 | tracks bytes read, checks the limit (which must not be reached) and pays; succeeds exactly if there is room and money, and then takes exactly the price, in order |
| `Resources.ResourceController.TrackBytesWritten` | linera-execution/src/resources.rs:241-253 | tracks bytes written, checks the limit (which must not be reached) and pays; succeeds exactly if there is room and money, and then takes exactly the price, in order |
| `Amounts.FromStr` | linera-base/src/data_types.rs:539-567 | the loop over characters, with its errors in order |
| `Amounts.ScanMeaning` | linera-base/src/data_types.rs:546-563 | scanning succeeds exactly on numerals with few enough decimals whose digits fit, and then holds their number |
| `Amounts.ParseMeaning` | linera-base/src/data_types.rs:539-567 | a text parses to an amount exactly if it is a numeral with at most 18 decimals and that exact value, so no intermediate overflow rejects a representable amount |
| `Amounts.CoreIsInside` | linera-base/src/data_types.rs:542-545 | for every text with white space around it, the parser reads the text inside without one leading plus sign |
| `Amounts.OnlyWhitespace` | linera-base/src/data_types.rs:542-545 | a text of only white space is read as the empty text |
| `Amounts.DigitsShown` | linera-base/src/data_types.rs:491-503 | the digits printed are those of the number, scaled by the decimals left out |
| `Amounts.DisplayParses` | linera-base/src/data_types.rs:491-567 | the printed form in any sign, width and alignment, padded with white space or not at all, parses back if and only if no more than 18 decimals are asked for |
| `Amounts.DecimalsAreShort` | linera-base/src/data_types.rs:491-503 | no more decimals are shown than asked for or needed |
| `Amounts.IntegerPartIsShort` | linera-base/src/data_types.rs:491-498 | there is no leading zero but a single one in front of the point |
| `Amounts.SignShown` | linera-base/src/data_types.rs:503-504 | a plus sign is shown exactly if asked for and the amount is positive |
| `Amounts.PadShape` | linera-base/src/data_types.rs:505-523 | the text is as wide as asked for and stands where the alignment puts it |
| `Oracles.AskConsumes` | linera-execution/src/transaction_tracker.rs:82-109 | a call that succeeds in replay consumes one response and records that same response |
| `Oracles.LiveAnswer` | linera-execution/src/runtime.rs:926-1023 | what a live call answers: an assertion succeeds exactly if the local time is before the timestamp, a blob read gives the stored content, a query or request what the world answers if enabled |
| `Oracles.LiveRecord` | linera-execution/src/runtime.rs:926-1023 | what a live success records: the kind of oracle with its answer or blob |
| `Oracles.ReplayRefuses` | linera-execution/src/runtime.rs:926-1023 | in replay a call answers what the list says and fails if it is at its end or the next response is of another kind or blob |
| `Oracles.ReplayRecordsList` | linera-execution/src/transaction_tracker.rs:111-127 | a replayed execution that succeeds records exactly the list it was given |
| `Oracles.AskAgain` | linera-execution/src/runtime.rs:926-1023 | offered the response that a live call recorded, the same call gives the same answer at any time and in any world, if the blob of that response is still readable with the same content and, for a query or request, the unstable oracles are enabled |
| `Oracles.ReplayReproduces` | linera-execution/src/runtime.rs:926-1023 | for every deterministic contract, replaying a live record gives the same answers and succeeds with the same record, if the recorded blobs are still readable with the same content and, where queries or requests were recorded, the unstable oracles are enabled |
| `Oracles.TransactionTracker.constructor` | linera-execution/src/transaction_tracker.rs:27-34 | starts with the responses to replay, if any, and an empty record |
| `Oracles.TransactionTracker.AddOracleResponse` | linera-execution/src/transaction_tracker.rs:76-78 | appends to the record |
| `Oracles.TransactionTracker.NextReplayedOracleResponse` | linera-execution/src/transaction_tracker.rs:99-109 | takes the next response in replay, or fails if there is none |
| `Oracles.TransactionTracker.ReplayOracleResponse` | linera-execution/src/transaction_tracker.rs:82-97 | records the response after comparing it with the next replayed one, and tells whether it was replayed |
| `Oracles.ContractRuntime.QueryService` | linera-execution/src/runtime.rs:926-953 | answers from the replay or the service, and records the answer; a success records exactly one response, in replay the next one |
| `Oracles.ContractRuntime.HttpPost` | linera-execution/src/runtime.rs:955-985 | answers from the replay or the web, and records the answer; a success records exactly one response, in replay the next one |
| `Oracles.ContractRuntime.AssertBefore` | linera-execution/src/runtime.rs:987-1002 | checks the clock only when not replaying; a success records exactly one response, in replay the next one |
| `Oracles.ContractRuntime.ReadDataBlob` | linera-execution/src/runtime.rs:1004-1013 | records the blob and reads it; a success records exactly one response, in replay the next one |
| `Oracles.ContractRuntime.AssertDataBlobExists` | linera-execution/src/runtime.rs:1015-1023 | records the blob and checks that it is there; a success records exactly one response, in replay the next one |

## Left out

- Agreement: states nothing between a fast confirmation and a later one, where it is false; `FastLock` has the run and the condition.
- OutboxCounters: counters are unbounded numbers; `CountersFit` bounds them by the number of outboxes, and their overflow beyond 2^32 outboxes is not modelled.
- NewCommittee: weights and thresholds are unbounded numbers; the 64-bit range of their sums is not modelled.
- SampleErrors: ties between errors of equal weight are broken arbitrarily, and the score list shown with a missing consensus is not modelled.
- UserActionVerdict: the balance shown in an insufficient-funding error is not modelled, and neither are the requests that change the sources while a user action executes; their effect is an arbitrary parameter.
- DisplayParses: says nothing about padding with a fill character that is not white space.
- MessageBundlesFor: overflow of the running index wraps, as in a release build.
- ReceiveMessageBundle: the immediate messages of a bundle (opening a chain, system subscriptions) and the received log are not part of this operation's model; subscriptions are modelled in `Outboxes`.
- Timeout and fallback votes, and the constraints on timeout certificates: `Consensus` allows arbitrary timeout certificates, which only adds runs.
- Liveness of consensus: it needs assumptions on timing and clients.
- Leader selection by weighted randomness: leaders are an arbitrary function of the round.
- Signatures, hashes and serialization: a signature check is an arbitrary predicate and hashes are taken to be injective.
- The worker around the manager: that it checks carried certificates, their value and the proposer first (linera-core/src/chain_worker/state/temporary_changes.rs:182-194 and 230-236) is a premise of `Consensus`.
- Storage views, asynchronous streams, the network, clients, wallets and metrics: views are sequences, sets and maps, and iteration orders of hash maps are arbitrary.
- Executed-block sizes and stored bytes in the resource tracker, and the price of a bundle of resources: they are not charged by the modelled calls.
- Execution outcomes and message indices in the transaction tracker: only oracle responses are tracked here.
- Wasm execution and cross-application calls.
