# A verified model of the consensus engine

The model covers the parts of this Tendermint fork that must agree with one another, across
nodes and across crashes:

* the consensus state machine, its votes, locks, timeouts and signer (`Quorums`, `VoteSets`,
  `VoteCounting`, `Consensus`, `ConsensusInvariants`, `Agreement`, `LedgerAgreement`,
  `Progress`, `Majorities`, `Deciding`, `Halting`, `HaltingExample`, `PartsProofs`,
  `ConsensusState`, `Ticker`, `PrivVal`);
* validator sets with their proposer priorities, and their history in the state store, stored
  sparsely and pruned (`Validators`, `Priorities`, `Proposers`, `ValidatorUpdates`, `History`,
  `HistoryProofs`, `HistoryChanges`, `HistoryExample`, `StateStore`, `PruneProofs`,
  `PruneExample`);
* the light client, and what full nodes produce for it (`Verifier`, `CommitChecks`, `Retry`,
  `LightClient`, `LightChain`, `Producer`, `HonestProvider`, `SkippingChain`);
* crash recovery with the evidence of a block, the block store and the write-ahead log
  (`Validation`, `Recovery`, `RecoveryProofs`, `BlockStore`, `BlockStoreProofs`,
  `BlockPruning`, `BlockStoreRuns`, `Wal`, `WalRepair`);
* the mempool, its cache, iterators, search tree and recheck, and peer IDs (`TxIterator`,
  `Llrb`, `LlrbProofs`, `TxCache`, `Mempool`, `MempoolProofs`, `CacheProofs`, `PeerIds`);
* the snapshot pool of state sync (`Snapshots`).

Code that updates objects in place is a class whose methods are proved against functions on
values; the properties of whole runs are lemmas about those functions.

## How it is modelled

* **Network.** Every vote ever signed is in a growing set. Honest nodes run the transitions of
  `consensus/state.go`; other validators cast any votes; any cast vote reaches any node at any
  time, in any order, any number of times. Timeouts fire whenever they have been scheduled.
* **Choosability.** A block is choosable in a round while the faulty validators, the honest
  ones that precommitted it there and the honest ones not yet past precommit there hold +2/3.
  The invariant is that +2/3 prevotes for one thing leave nothing else choosable earlier.
* **Validators.** `Agreement` takes the validators of a height as given; in `LedgerAgreement`
  each node derives them from the blocks it has itself finalized.
* **Crashes.** Durable writes are listed in order, and a crash is a prefix of the list. This
  holds for a commit, for the recovery after it, and for saving and pruning blocks.
* **Inputs from outside** are parameters: whether a signature is made, whether the evidence in
  a block passes with a node's pool, the application's answers, clocks, what a provider
  answers at each question, whether witnesses agree, how a snapshot sync ends.
* **Part sets** are shared between the proposal, the lock and the valid block, as in the code;
  one that is complete is so for all of them.
* **Hashes** are injective, signatures are attributed to the key that made them, and encodings
  round-trip.

## Where the code does not do what it promises

* Loading validators increments priorities by n in one call, while blocks increment them one
  by one; the call normalises once. So a loaded set can differ from the one that was in force
  in its priorities, never in its members. `HistoryExample.SparseDiffers` is a run where it
  does, `HistoryProofs.EveryRunLoads` says exactly when it does not.
* The search of `libs/tree/llrb.go` goes right at every key below the start, also when that
  entry is over the limits, and so misses allowed entries to its left.
  `LlrbProofs.LlrbMisses` is an example of two entries, `TxIterator.SearchIff` the exact
  condition. The btree search has no such case.
* The mock application of the handshake repeats transaction results only, so validator and
  parameter updates of the block it replays are lost: `RecoveryProofs.UpdateLost`,
  `RecoveryProofs.ExactIff`. It also overwrites the saved responses with the shortened ones.
* The handshake validates the last block with a stub in place of the evidence pool. A node
  that stops between saving a block and saving the state never starts again if the block has
  evidence that only a pool lets through: `RecoveryProofs.EvidenceSticks`,
  `RecoveryProofs.StuckIff`, `RecoveryProofs.NeverStarts`.
* A recheck is exact only if no transaction is stored twice (`MempoolProofs.ExactIffIndexed`).
  The cache prevents that until a stored or pending transaction is pushed out of it, which
  later transactions do: `CacheProofs.KeptIff`, `CacheProofs.StoredTwice`.
* `types/vote_set.go` says every vote in `votes` has an entry in `votesByBlock`. A conflicting
  vote for the majority's block replaces the canonical vote without one when no peer claims
  that block: `VoteSets.EntryMissing`, `VoteSets.BuiltTrackedIff`.
* `repairWalFile` opens its destination for reading only, so it fails as soon as there is a
  message to write: `WalRepair.Repair`. Opened for writing, it would leave the corrupt end in
  place, since the destination is the log that was copied and is not truncated:
  `WalRepair.OverwritingKeepsTail`, `WalRepair.RestoresIff`.
* Pruning states from below the base can meet a kept height that is gone and panic:
  `PruneExample.PrunePanics`, `PruneProofs.PanicsIff`. From the base up it never does, also
  after a stop between pruning blocks and pruning states.
* A node panics over inputs that others can cause. A precommit of height 0 does it at height 1
  until the first round begins, since there is no LastCommit to add it to:
  `Halting.FirstHeightHalts`. So does a block committed under two part-set headers, at a node
  that holds it under the other (`HaltingExample.TwoHeadersHalt`), or that locked it with the
  empty part set that the prevotes put in place of its own (`HaltingExample.EmptyPartsHalt`).
  Without a key a node panics on conflicting votes and on a lock released past round 0, where
  the code asks for the key without looking whether there is one. And it panics if its own
  evidence pool refuses what +2/3 accept: `HaltingExample.PoolsDifferHalt`. Nothing else does:
  `Halting.HaltsIff`, `Halting.HaltedIff`.
* Full nodes check the signatures of a commit by position and do not look at the addresses in
  it, which the trusting check of the light client goes by. So there are accepted chains on
  which it fails although all trusted validators signed: `SkippingChain.SwappedFails`,
  `SkippingChain.SkipsExactly`. With the right addresses it never does:
  `SkippingChain.SkipsIff`.
* The retry loops of the light client count in 16 bits and do not end with the limit 65535
  while the primary fails: `Retry.NeverReturns`, `Retry.EndsIff`.
* A block store whose first save was interrupted, and was then begun at a greater height,
  still answers for the lower one: `BlockStoreRuns.LeftBelow`, `BlockStoreRuns.NothingLeftIff`.
* Pruning blocks flushes with the height just deleted as the new base, so a stop after a flush
  opens a store whose base block is gone: `BlockStoreRuns.LosesBase`,
  `BlockPruning.BaseGoneIff`.

## Model

| member | source | states |
|---|---|---|
| Quorums.QuorumThreshold | types/vote_set.go:231-302 | the integer test `sum >= total*2/3 + 1` of the vote set, and `sum > total*2/3` of the commit checks, both mean 3·sum > 2·total |
| Quorums.QuorumsMeet | types/vote_set.go:430-440 | any two +2/3 sets share a validator outside any set holding less than a third of the power |
| VoteSets.AddVoteIsValid | types/vote_set.go:154-302 | adding any vote, first, repeated or conflicting, tracked by a peer's claim or not, keeps the vote set's invariant: sums count each voter once, the majority is the block that reached +2/3, every canonical vote was offered; that no vote is lost is `VoteCounting.CountsVotes` |
| VoteSets.ClaimIsValid | types/vote_set.go:309-342 | a peer's majority claim, which may start tracking a block, keeps the same invariant |
| VoteSets.MajorityIsQuorum | types/vote_set.go:557-596 | when there is a majority, the canonical votes for it alone hold +2/3, so the commit made from them does, whatever conflicting votes came in between |
| VoteSets.MajorityIsStable | types/vote_set.go:231-342 | once set, the majority is never replaced, by a vote or a claim |
| VoteSets.MajorityIffQuorum | types/vote_set.go:430-440 | a majority is reported exactly when some tracked block has +2/3 |
| VoteSets.TrackingIff | types/vote_set.go:231-302 | on a set in which every canonical vote is among its block's votes, adding a vote keeps that iff it is not a conflicting vote for the majority's block while no peer claims that block |
| VoteSets.ClaimKeepsTracking | types/vote_set.go:309-342 | a claim always keeps it |
| VoteSets.BuiltTrackedIff | types/vote_set.go:34-56 | over any calls from the empty set: every canonical vote has its entry iff no call so far added such a vote; once lost it is not regained |
| VoteSets.EntryMissing | types/vote_set.go:48-49 | five votes of four equal validators after which a canonical vote has no entry |
| VoteCounting.CountsVotes | types/vote_set.go:154-302 | over any votes and claims, in any order: exactly the validators that offered a vote have one, also after there is a majority; the sum is their power; the first vote of each is counted for its block, and is the canonical one unless that is for the majority's block; +2/3 of any votes are there iff those validators are a quorum, and all votes iff every validator with power has voted |
| VoteCounting.AddedIs | types/vote_set.go:154-302 | a vote is added if it is the validator's first, or new and for a block some peer claims; only then; and what is added is counted |
| VoteCounting.CountedOnly | types/vote_set.go:231-302 | a vote counted for a block was offered, as the validator's first or after a peer claimed that block |
| VoteCounting.MajorityReached | types/vote_set.go:231-302 | once validators with +2/3 have voted for one thing and nothing else, that is the majority, whatever else was offered or claimed |
| ConsensusInvariants.EnterNewRoundKept | consensus/state.go:852-912 | entering a round keeps the node's invariant and only adds to its history |
| ConsensusInvariants.EnterProposeKept | consensus/state.go:918-985 | the same for entering propose, with the proposal already complete or not |
| ConsensusInvariants.EnterPrevoteKept | consensus/state.go:1088-1146 | the same for entering prevote: the vote requested is for the locked block, a valid proposal, or nil, and against an earlier own precommit only after +2/3 prevotes against it |
| ConsensusInvariants.EnterPrevoteWaitKept | consensus/state.go:1149-1175 | the same for the prevote wait and its timeout |
| ConsensusInvariants.EnterPrecommitKept | consensus/state.go:1183-1282 | the same for entering precommit, in all of relock, lock, unlock on nil, unlock on an unknown block, and no polka; precommits for a block have +2/3 prevotes of that round behind them |
| ConsensusInvariants.EnterPrecommitWaitKept | consensus/state.go:1308-1332 | the same for the precommit wait |
| ConsensusInvariants.EnterCommitKept | consensus/state.go:1335-1396 | the same for entering commit, with the block at hand or still to come |
| ConsensusInvariants.FinalizeCommitKept | consensus/state.go:1428-1543 | the same for finalizing: what is finalized has +2/3 precommits of one round behind it |
| ConsensusInvariants.UpdateToStateKept | consensus/state.go:541-627 | the same for moving to the next height, where lock, valid block and votes start afresh |
| ConsensusInvariants.HandleTimeoutKept | consensus/state.go:789-823 | the same for any timeout scheduled earlier, stale or not; where a timeout leads is stated by the `Progress` rows |
| ConsensusInvariants.AddBlockKept | consensus/state.go:1684-1762 | the same for a completed proposal block |
| ConsensusInvariants.AddLateVoteKept | consensus/state.go:1823-1848 | the same for a precommit of the previous height |
| ConsensusInvariants.AfterPrevoteKept | consensus/state.go:1868-1938 | the same for what an added prevote sets off: unlocking on a later polka, the valid block, round skips, entering precommit or prevote wait |
| ConsensusInvariants.AfterPrecommitKept | consensus/state.go:1940-1967 | the same for what an added precommit sets off: commit, round skips, precommit wait |
| ConsensusInvariants.HandleKept | consensus/state.go:789-1967 | every input, in any state, keeps the invariant and never rewrites history |
| Agreement.RunOk | consensus/state.go:541-1967 | in every state of every run, honest nodes satisfy their invariant, and no block other than Y is choosable in a round before one with +2/3 prevotes for Y |
| Agreement.ChoiceKept | consensus/state.go:1115-1146 | one event cannot create +2/3 prevotes against a block that was still choosable in an earlier round |
| Agreement.Agree | consensus/state.go:1183-1453 | two honest nodes that finalize at a height, at any two times of a run and in any rounds, finalize the same block, with less than a third of each height's power faulty |
| Agreement.SameLedger | consensus/state.go:1428-1543 | honest nodes past a height have finalized exactly one block there, and the same one |
| LedgerAgreement.LocalHandle | consensus/state.go:789-1967 | chains that agree up to a node's height make the same of any input, but for what the node does at the next height once it is there |
| LedgerAgreement.OneLedger | consensus/state.go:541-627 | a run in which each node goes by the validators and validity that the blocks it has itself finalized determine is a run under one ledger, of just the blocks the nodes have finalized, so all that holds of the latter holds of it |
| LedgerAgreement.OwnAgree | consensus/state.go:1183-1543 | agreement for such runs, if less than a third of the power is faulty whatever the blocks are |
| Agreement.PolkaIsFinal | consensus/state.go:1183-1282 | once +2/3 prevoted for a block or nil in a round, at no later time are there +2/3 precommits for another block in an earlier round |
| Halting.PolkaIsValid | consensus/state.go:1256-1260 | in every state of every run, +2/3 votes of either kind are behind valid blocks only, among all votes cast and in each node's vote sets, so the panics over an invalid block, in enterPrecommit and finalizeCommit, are out of reach but for evidence that a node's own pool refuses |
| Halting.HaltsIff | consensus/state.go:789-1967 | which inputs make a node panic, in any state that keeps the node invariant and whose +2/3 votes are for valid blocks: a precommit of height 0 before the first round; +2/3 precommits, or the last part, of a block whose hash the node holds without all the parts of the header it is committed under; without a key, a conflicting vote or a lock released past round 0; anything that makes the node lock or commit a block with +2/3 behind it whose evidence its pool refuses; and no others |
| Halting.HaltedIff | consensus/state.go:789-1967 | the same for every delivery of every run; a node that panicked does nothing more |
| Halting.PolRoundIs | consensus/types/height_vote_set.go:153-164 | POLInfo is the last round with +2/3 prevotes for one thing |
| Halting.FirstHeightHalts | consensus/state.go:1825-1831 | a run in which a made-up precommit of height 0 meets the missing LastCommit of height 1 |
| HaltingExample.TwoHeadersHalt | consensus/state.go:1440-1447 | a run of four equal validators, the proposer faulty and the only one to propose twice, in which a node holds the committed block under another header, and panics |
| HaltingExample.EmptyPartsHalt | store/store.go:322-324 | the same with the prevotes in between: the node locks the block with an empty part set of the right header, and panics when it has to save it |
| HaltingExample.PoolsDifferHalt | consensus/state.go:1256-1260 | a run in which a node panics over +2/3 prevotes for a block whose evidence passes with the others' pools and not with its own |
| PartsProofs.HandleParts | consensus/state.go:789-1967 | if blocks are put together under their own header, any input keeps: proposal and locked block are under their own headers, and votes signed name them so |
| PartsProofs.HaltedOnlyFirst | consensus/state.go:789-1967 | over all runs in which each block has one header, parts never make a node panic: it does iff it is given a precommit of height 0 at height 1 before its first round, has no key and gets a conflict or releases a lock past round 0, or its pool refuses a block with +2/3 behind it |
| Agreement.LockDiscipline | consensus/state.go:1183-1282 | in every reachable state: no locked block iff the locked round is -1; a lock has +2/3 prevotes at its round, which is at most the current one and equal only from precommit on; a precommit for B at R stays locked on B at R or later until +2/3 prevote for something else in a later round |
| Agreement.NeverBack | consensus/state.go:541-1967 | height, round and step never decrease over a run, and requests, signatures and finalized blocks are only added to |
| Agreement.RequestDiscipline | consensus/state.go:1970-2050 | votes are requested in strictly rising height, round and type, so once for each, always for the round being entered; no timeout of the current height is of a later round |
| Progress.PrevoteStep | consensus/state.go:1088-1146 | entering prevote changes the step and asks for one prevote of the height and round: for the locked block under its part-set header; else for the proposal block if it passes, under its header; else nil |
| Progress.PrecommitStep | consensus/state.go:1183-1282 | entering precommit asks for one precommit: nil and the lock as it was without a polka; nil and no lock on a polka for nil; the block, locked at this round with its parts, if it is the locked or the proposed one; for another block nil, no lock, and its parts are collected |
| Progress.RoundStep | consensus/state.go:852-912 | a new round leaves votes and lock, opens the next round's votes, and drops the proposal unless it is round 0; then it waits for transactions, with a timeout if empty blocks are wanted, or is proposing with its timeout |
| Progress.ProposeStep | consensus/state.go:918-985 | entering propose schedules the timeout, and goes on to the prevote iff the proposal is complete |
| Progress.TimeoutIgnored | consensus/state.go:793-796 | a timeout of another height, or behind the node's round and step, changes nothing |
| Progress.CommitTimeout | consensus/state.go:803-809 | after the commit timeout round 0 begins, after the one for transactions the proposal is awaited, each with the timeout that ends it |
| Progress.ProposeTimeout | consensus/state.go:810-812 | after the propose timeout the node has asked for its prevote, by the rule of `PrevoteStep` |
| Progress.PrevoteTimeout | consensus/state.go:813-815 | after the prevote timeout it has asked for its precommit, by the rule of `PrecommitStep` |
| Progress.PrecommitTimeout | consensus/state.go:816-819 | after the precommit timeout it is in the next round, with the propose timeout of that and no proposal, having precommitted by the rule if it had not |
| Progress.TimeoutAdvances | consensus/state.go:789-823 | every current timeout moves the node strictly on in height, round and step |
| Progress.HandleSteady | consensus/state.go:541-1967 | every input keeps: a node in NewHeight, Propose or PrevoteWait, or that waits for precommits, has scheduled the timeout that ends it |
| Progress.WaitingEnds | consensus/state.go:789-823 | in every run a waiting node has its timeout, and moves on when it fires, or panics as `Halting.HaltedIff` says |
| Majorities.PrevotesSkip | consensus/state.go:1921-1925 | +2/3 of any prevotes of a later round take the node into it |
| Majorities.PrevotesWait | consensus/state.go:1926-1932 | +2/3 of any prevotes of the round, with no majority, change the step to PrevoteWait and schedule its timeout, and nothing else |
| Majorities.PrecommitsWait | consensus/state.go:1957-1960 | +2/3 of any precommits of this or a later round, with no majority, leave the node in that round waiting, with the timeout |
| Majorities.VotesStay | consensus/state.go:1921-1960 | votes without +2/3 of anything, and votes of a past round without a majority, change nothing but the count |
| Majorities.EarlyPrevotes | consensus/state.go:1926-1932 | prevotes of the round, also a polka, do not take a node past its own prevote |
| Majorities.PolkaPrecommits | consensus/state.go:1868-1932 | on a polka for nil or for the proposed block a node that has prevoted asks for a precommit of just that, is locked on it or on nothing, and has it as valid block |
| Majorities.PolkaWaits | consensus/state.go:1896-1932 | on a polka for any other block it waits, with the timeout, asks for nothing and collects that block's parts |
| Majorities.PolkaUnlocks | consensus/state.go:1872-1932 | a polka for another block or nil, in a round past the lock's and up to the node's own, releases the lock; only a polka of the node's own round may put a lock in its place, on its own block |
| Majorities.NamedPolkaPrevotes | consensus/state.go:1933-1938 | a complete proposal that names a polka of an earlier round is prevoted, by the rule, when that is there |
| Majorities.NamedPolkaAwaited | consensus/state.go:1031-1045 | a proposal that names a polka round is not prevoted before there is one, though its block is whole |
| Majorities.PrecommitsMove | consensus/state.go:1940-1956 | +2/3 precommits for one thing: the node is in that round or past it and has precommitted; for a block it commits, finalizes it if it is at hand, and otherwise collects its parts; for nil it waits, with the timeout; with all precommits in and no commit timeout wanted the next height's round begins |
| Majorities.CommitMoves | consensus/state.go:1335-1543 | entering commit with the block at hand finalizes it and, if the application takes it, starts the next height with nothing left over, its commit timeout, and the precommits as last commit; without it, the node waits in Commit for the parts |
| Majorities.BlockMoves | consensus/state.go:1749-1758 | the block of a commit arrives and the height is done in the same way |
| Majorities.BlockPrevotes | consensus/state.go:1749-1756 | the whole proposed block makes a node that has not prevoted ask for its prevote, and its precommit as well if the polka is there |
| Majorities.BlockBecomesValid | consensus/state.go:1731-1747 | a block that arrives after its polka becomes the valid block of the round |
| Majorities.BadBlockOnce | consensus/state.go:1702-1724 | parts that make no acceptable block are put together once, and nothing more is made of them |
| Majorities.TxsMove | consensus/state.go:825-841 | transactions end the wait of round 0, and are ignored at any other step or round |
| Majorities.ProposalTaken | consensus/state.go:1645-1680 | a proposal is taken iff it is the first of the height and round, signed by the proposer, and its polka round is -1 or before its own; parts that are being collected stay |
| Majorities.ClaimHeard | types/vote_set.go:309-342 | a peer's first claim makes votes for its block count beside others; no vote changes |
| Majorities.LateVoteJoins | consensus/state.go:1823-1848 | a late precommit of the round committed joins the last commit, and the last of them begins the round if no commit timeout is wanted |
| Deciding.Decides | consensus/state.go:1183-1967 | a node that holds the whole proposed block, and is not locked on another, has finalized it once the precommits of +2/3 for it are among the votes delivered: with any prevotes for it, in any order, repeated or not |
| ConsensusState.State.StartRound | consensus/state.go:852-912 | the fields after enterNewRound are those of its specification |
| ConsensusState.State.StartPropose | consensus/state.go:918-985 | the same for enterPropose |
| ConsensusState.State.StartPrevote | consensus/state.go:1088-1146 | the same for enterPrevote with defaultDoPrevote |
| ConsensusState.State.PolInfo | consensus/types/height_vote_set.go:153-164 | the last round, among those opened, with +2/3 prevotes for one thing |
| ConsensusState.State.Precommits | consensus/state.go:1204-1226 | the fields after the search for a polka and the check of its round are those of the specification |
| ConsensusState.State.LockAndPrecommit | consensus/state.go:1228-1282 | the same for the outcomes of enterPrecommit with a polka: nil, relock, lock, a refused block, an unknown block |
| ConsensusState.State.StartCommit | consensus/state.go:1335-1396 | the same for enterCommit |
| ConsensusState.State.Finalize | consensus/state.go:1428-1543 | the same for finalizeCommit, with its panics and that of SaveBlock over a part set that is not complete |
| ConsensusState.State.UpdateTo | consensus/state.go:541-627 | the same for updateToState |
| ConsensusState.State.OnTimeout | consensus/state.go:789-823 | the fields after handleTimeout are those of its specification, of which `Progress.TimeoutIgnored` to `Progress.TimeoutAdvances` say where each timeout leads |
| ConsensusState.State.OnBlock | consensus/state.go:1684-1762 | the same for the last part of a block, which does or does not make a block that passes |
| ConsensusState.State.OnVote | consensus/state.go:1808-1967 | the same for addVote |
| ConsensusState.State.Receive | consensus/state.go:789-1967 | the same for any input, so every property of the specification's runs is one of the object's |
| Ticker.TimeoutTicker.Tick | consensus/ticker.go:94-119 | the timer's entry after a tick is the later of the two |
| Ticker.AcceptedRise | consensus/ticker.go:94-134 | accepted entries strictly rise in height, round and step, for ticks of positive step as all scheduled ones are |
| Ticker.LatestOfAll | consensus/ticker.go:94-134 | no tick so far is later than the current entry |
| Ticker.AcceptsIffAfter | consensus/ticker.go:101-112 | a tick is accepted iff it is later, or both have step 0 and are the same |
| PrivVal.FilePV.Sign | privval/file.go:302-393 | signing a vote or proposal, with a stop before or after the save, does what its specification says to memory, file and answer, which `PrivVal.AnsweredExactly` states over the messages themselves |
| PrivVal.ServedKept | privval/file.go:93-125 | a request or a crash keeps: the stored sign bytes are of the stored height, round and step, and everything released for that step is what is stored; none of the panics is reached |
| PrivVal.NoDoubleSigning | privval/file.go:302-435 | after any requests with crashes and reloads anywhere, all signatures released for the proposal, the prevote or the precommit of a height and round are one signature on one message with one timestamp; messages saved strictly rise by height, round, and proposal before prevote before precommit; the next request does not panic |
| PrivVal.AnsweredExactly | privval/file.go:27-125 | a request is answered with its own message iff that is past the last one saved, by height, round, and proposal before prevote before precommit; with the saved message and signature iff it repeats that up to the timestamp; and is refused otherwise; what is past is saved first, and a crash before or after shows in the file accordingly |
| PrivVal.SignsWholeRound | privval/file.go:27-125 | in a round past the last one the proposal, the prevote and the precommit are all signed, in that order and with any of the first two left out |
| PrivVal.RefusesGoingBack | privval/file.go:93-125 | after the precommit of a round its prevote and proposal are refused, after the prevote the proposal, and nothing changes |
| Priorities.IncrementMembers | types/validator_set.go:116-178 | however increments are batched, addresses, powers and order stay |
| Priorities.IncrementOnce | types/validator_set.go:116-164 | after an increment the average priority rounds to 0, and a set that is centred and within the window is only rotated |
| Proposers.RotatePays | types/validator_set.go:166-178 | exactly one validator leads: that of the greatest priority after everyone gained their power, the lowest address among equals; it pays the total power, and nothing else changes |
| Priorities.RotateKeepsSum | types/validator_set.go:166-178 | so a rotation keeps the sum of the priorities |
| Proposers.PriorityIsShare | types/validator_set.go:116-178 | after n rotations a priority has moved by n times the power less the total for each time led |
| Proposers.NeverOverShare | types/validator_set.go:116-178 | from even priorities, nobody ever leads a whole turn more than its share of the rounds |
| Proposers.FairTurns | types/validator_set.go:116-178 | from even priorities, in as many rounds as there is power every validator leads exactly as often as it has power, and the set is as it was |
| Proposers.NormalisedCalm | types/validator_set.go:123-164 | after rescaling and centring the priorities lie within twice the total power and average to 0, and sets that did are only shifted |
| Priorities.ExactIffCalm | types/validator_set.go:116-164 | n increments in one call equal n single ones, for every count up to n, iff no set in between is spread over more than twice the total power |
| Priorities.UpdatedWellFormed | types/validator_set.go:590-640 | an accepted change set leaves distinct addresses of positive power |
| ValidatorUpdates.UpdatedPowers | types/validator_set.go:477-640 | after an accepted change set every address has the power its change names, is gone if that is 0, and otherwise keeps its power |
| ValidatorUpdates.UpdatedOrder | types/validator_set.go:477-640 | they are ordered by power, then address; the others bring the priority they had, newcomers minus nine eighths of the power before removals, rounded, and then all are rescaled and centred together |
| ValidatorUpdates.AcceptedIff | types/validator_set.go:376-640 | changes are accepted iff their powers are within the cap, no address comes twice, only members are removed, somebody is left, and their power is within the cap |
| HistoryProofs.RunLinked | state/execution.go:465-525 | every run from genesis is linked: heights count up, the sets are well formed, a set not changed at a height is the one before incremented once, and parameters not changed stay |
| HistoryChanges.ChangesInForce | state/execution.go:465-525 | in every run the powers in force two heights after a block are those one height after it with just the block's changes made; its parameters are in force one height after it |
| HistoryChanges.GenesisInForce | state/state.go:302-337 | the powers at heights 1 and 2 are those of the genesis document |
| HistoryChanges.GenesisTurns | state/state.go:302-337 | the genesis validators start with even priorities, by power and address, and the first height is one turn on |
| HistoryProofs.StoredEntries | state/store.go:113-131 | saving states stores, at each height, the full set where it changed or at a checkpoint, and elsewhere a pointer |
| HistoryProofs.LastFull | state/store.go:392-395 | the height a pointer leads to is the last one stored in full, less than a checkpoint interval back |
| HistoryProofs.Loads | state/store.go:352-390 | what a load returns in closed form: the set of the last full height, incremented in one call by fewer steps than the checkpoint interval |
| HistoryProofs.EveryRunLoads | state/store.go:352-525 | for every run from genesis, every saved height loads with the members, powers and order of the set in force, and with the parameters in force; all sets load exactly, priorities included, iff none between two pointers is spread over more than twice the total power |
| HistoryProofs.ExactIffCalmHistory | state/store.go:352-390 | the same equivalence for any linked states |
| HistoryExample.SparseDiffers | state/store.go:352-390 | a run from genesis with a height whose loaded set is not the one in force |
| HistoryProofs.StateHoldsSets | state/execution.go:465-525 | the state's last, current and next validators are the sets in force at its height, one and two later |
| StateStore.Store.Save | state/store.go:113-131 | saving a state writes its entries, or panics over a change that lies ahead |
| StateStore.Store.Prune | state/store.go:151-269 | pruning is refused, succeeds or panics exactly when its specification says; on success validators, parameters and responses are the specified ones, and after a panic they are those of a shorter range that could be pruned, whatever was flushed |
| PruneProofs.PrunedValsLoad | state/store.go:151-269 | pruning any range of a store that holds entries of linked states with what they point to keeps every height from `to` on, each height still stored loads what it did, and those in the range hold the very set in force |
| PruneProofs.PrunedParamsLoad | state/store.go:151-269 | the same for the consensus parameters, which are those in force |
| PruneProofs.PanicsIff | state/store.go:151-269 | pruning such a store panics iff the entry at `to` is a pointer, its change lies in the range, and that height is gone; never from the base up |
| PruneProofs.HistoryGood | state/store.go:151-269 | the same over every history from genesis of commits and prunes of any range, each finished, panicked or stopped after any flush, as when a node stops between pruning blocks and states |
| PruneProofs.PrunedLoadsAsUnpruned | state/store.go:151-269 | over every such history, every height still stored, so every one from the base on, loads the validators that the unpruned store of the same chain loads and the parameters in force; the responses stored are those to the chain's blocks |
| PruneExample.PrunePanics | state/store.go:174-201 | a history from genesis, without validator changes and pruned up to the checkpoint, in which pruning from 1 to the next height panics |
| Verifier.AdjacentSound | light/verifier.go:95-136 | an adjacent header that verifies is signed by +2/3 of the validators its predecessor named next |
| Verifier.NonAdjacentSound | light/verifier.go:32-81 | a non-adjacent header that verifies is signed by +2/3 of its own validators and by a trusted validator that is not faulty, while the faulty ones of the trusted set do not exceed the trust level; the converse is in `CommitChecks.NonAdjacentIs` |
| CommitChecks.TrustingIs | types/validator_set.go:770-830 | the trusting check accepts iff some first signatures name trusted validators rightly, no one twice, and those named hold more than the trust level; it finds too little iff all do and they do not; signers it does not know never count against a commit |
| CommitChecks.TrustingCounts | types/validator_set.go:770-830 | so if every signature names its signer, and no one twice, it just compares the trusted power among the signers with the trust level |
| CommitChecks.LightIs | types/validator_set.go:710-765 | the light check accepts iff the commit is for the block and height, has a place for each validator, and some first signatures for the block are the validators' own and hold +2/3 |
| CommitChecks.AdjacentIs | light/verifier.go:95-136 | an adjacent step verifies iff the trusted header is not expired, the new one is sound, on the chain, of the next height, later and not from the future, its validators are those the trusted one names, and it is well signed by them |
| CommitChecks.NonAdjacentIs | light/verifier.go:32-81 | any other step verifies iff the same holds of a later height, trusted signers reach the trust level, and the header is well signed by its own validators |
| Verifier.PathRises | light/verifier.go:139-216 | along a path of verified headers heights and times strictly rise, every header but the last is unexpired, every one but the first is sound and carries its own validators |
| LightChain.PathSound | light/verifier.go:32-136 | every step of a path of verified headers leads to a header signed by +2/3 of its own validators and by one that is not faulty of the set trusted before it, while the faulty ones cannot carry the step alone |
| LightChain.StaysOnChain | light/client.go:617-775 | whatever the providers serve, a path of verified headers that begins on the chain is on the chain to its end, if less than a third of each of its sets is faulty, the others sign the chain's headers only, and the trust level is at least a third |
| Verifier.FullImpliesLight | types/validator_set.go:665-765 | a commit the full check accepts passes the early-exit light check |
| LightClient.PivotBetween | light/client.go:737-740 | the 9/16 pivot lies strictly between non-adjacent heights |
| LightClient.Client.ReplacePrimary | light/client.go:1082-1095 | the first of at least two witnesses becomes primary; otherwise nothing changes |
| Retry.EndsIff | light/client.go:1100-1133 | with its 16-bit counter the retry loop returns iff the limit is below 65535, or the primary answers at some time and, where the answer is no good, so does each witness that replaces one |
| Retry.NeverReturns | light/client.go:1101 | with limit 65535 a primary that keeps failing is asked for ever |
| LightClient.Client.Ask | light/client.go:1100-1177 | where it ends, the loop returns what its steps lead to, using up witnesses from the front; what is returned is valid |
| LightClient.Client.SignedHeaderFromPrimary | light/client.go:1100-1143 | the same for headers: one that is returned is sound and of the height asked for |
| LightClient.Client.Sequence | light/client.go:617-677 | ends, if each retry loop does; success yields a path of verified adjacent headers from the trusted one to the target, one a height; it succeeds when providers serve headers that verify |
| LightClient.Client.Bisection | light/client.go:684-775 | ends, if each retry loop does, by witnesses, then distance to the target, then to the last cached header, then cache depth; success yields a path of verified headers from the trusted one to the target; it succeeds when providers serve headers that verify or are too far apart |
| Producer.SignedSoundly | state/validation.go:37-98 | a header of an accepted chain, with the next block's LastCommit, is sound, on the chain and signed by its own validators |
| Producer.SequenceAccepts | light/verifier.go:95-198 | for every chain accepted from genesis, every adjacent step between two heights below the tip verifies, if the first header is unexpired and the last not from the future |
| Producer.SetsTravel | state/validation.go:37-98 | the set a block's execution makes is announced by the next block, is in force for the one after, and signs that one |
| Producer.TimesRise | state/validation.go:84-107 | block times strictly rise from the genesis time on |
| HonestProvider.ChainIsServed | light/client.go:617-677 | providers that serve an accepted chain serve what sequential verification needs: the headers in between are acceptable, and all adjacent steps verify |
| HonestProvider.FollowChain | light/client.go:617-677 | with such providers the client verifies any later header below the tip from any header that is not expired |
| SkippingChain.SkipsIff | light/verifier.go:32-81 | on every accepted chain whose commit names its signers, a step over several heights verifies iff the trusted validators among the signers hold more than the trust level, and otherwise asks for a header in between |
| SkippingChain.SkipsExactly | light/verifier.go:32-81 | for any accepted chain, also with wrong addresses in the commit: exactly when such a step verifies, when it asks for a header in between, and that it fails in all other cases |
| SkippingChain.SwappedFails | types/validator_set.go:665-708 | a chain that full nodes accept, with two validators that sign everything, on which a step over two heights fails, since the addresses in the commit are swapped and full nodes do not look at them |
| SkippingChain.ChainIsBisected | light/client.go:684-775 | providers that serve an accepted chain, its commits naming their signers, serve what bisection needs |
| SkippingChain.SkipAlong | light/client.go:684-775 | with such providers the client gets by bisection from any header that is not expired to any later one below the tip |
| Validation.ValidateEvidence | state/validation.go:117-153 | a block's evidence passes with a pool iff no two are equal, none is committed, and each is pending or stands by itself: not amnesia evidence still to be tried, its header known if it is about another chain, and verified |
| Validation.RefusedIff | consensus/replay_stubs.go:53-66 | evidence that passed with a pool is refused without one iff some is about another chain, or was taken as pending and does not stand by itself |
| Validation.CommittedOnce | state/validation.go:117-153 | in every run of blocks, each passed with a pool that has marked the evidence of those before it, no evidence is in two places |
| Recovery.Process.ApplyBlock | state/execution.go:161-225 | writes nothing if the block's evidence does not pass with the pool; otherwise its durable writes, in order: responses, application commit, state |
| Recovery.Process.ReplayBlock | consensus/replay.go:461-478 | the same without a pool, as the handshake does it |
| Recovery.Process.ReplayRange | consensus/replay.go:411-458 | the missing blocks are committed on the application one by one, unchecked, the last in full if asked |
| Recovery.Process.ReplayBlocks | consensus/replay.go:278-478 | the handshake makes exactly the writes of its specification and ends as that says |
| Recovery.Process.FinalizeCommit | consensus/state.go:1451-1559 | a panic and no write over a block whose evidence does not pass; otherwise the durable writes of a commit, in order: block, end of height, responses, application commit, state, pruning |
| RecoveryProofs.FinalizeSafe | consensus/state.go:1464-1559 | a commit stopped after any write leaves a disk the handshake can start from |
| RecoveryProofs.ReplaySafe | consensus/replay.go:278-478 | so does a handshake stopped after any write; it ends in an error iff the state is behind the store and the last block's evidence does not pass without a pool, and otherwise has application and state at the store's height |
| RecoveryProofs.RunsMissing | consensus/replay.go:411-478 | the application runs the blocks it lacks, once each and in order, all within the store |
| RecoveryProofs.CrashRecovery | consensus/replay.go:278-478 | after any commits, crashes and interrupted recoveries, with the application back at any height it may come back at: no panic, the saved responses are found, and application and state end at the store's height, each block run once and in order, iff the state is at the store's height or the last block's evidence passes without a pool; if not, the handshake ends in an error and leaves the state |
| RecoveryProofs.StuckIff | consensus/replay.go:461-478 | a commit stopped after any number of writes leaves such a disk iff the block is saved, the state is not, and some of its evidence needs the pool |
| RecoveryProofs.NeverStarts | consensus/replay.go:461-478 | from then on every restart fails, with the application at any height |
| RecoveryProofs.EvidenceSticks | consensus/replay.go:461-478 | a run of two blocks that gets there, by evidence about another chain in the second |
| RecoveryProofs.ExactIff | consensus/replay_stubs.go:94-109 | a recovery keeps the state that of a node that never crashed iff it is refused, does not use the mock, or the block has no validator or parameter updates |
| RecoveryProofs.UpdateLost | consensus/replay_stubs.go:94-109 | a run of one block in which the mock loses a validator update |
| BlockStore.Store.SaveBlock | store/store.go:311-371 | saving makes exactly its writes in order, or panics on a gap and writes nothing |
| BlockStore.Store.PruneBlocks | store/store.go:228-303 | pruning is refused, or deletes exactly the keys of the heights below and moves the base; its writes in order, with a flush of base and batch every 1000 blocks |
| BlockStore.PrunedExactly | store/store.go:228-303 | a finished prune takes meta, hash, commit, seen commit and all parts of the blocks below, and no other key, leaves all other values, and saves the new base |
| BlockStoreProofs.SaveHolds | store/store.go:311-371 | stopped after any single write, a save reopens to a store that holds what it held; finished, it holds the block as well |
| BlockStoreProofs.LoadsSaved | store/store.go:78-225 | every height from base to height loads the bytes and seen commit saved, by height and by hash; below the top the block commit is the next block's LastCommit; below base there is a block to load only where one was left behind |
| BlockStore.BaseIsKnown | store/store.go:440-466 | a store with blocks has a first one, also if its descriptor was saved without a base |
| BlockPruning.Cut | store/store.go:228-303 | after any number of a prune's writes the store is the old one without some first part of the deletes, and its base is a height whose own deletes are last in it, or where pruning ends |
| BlockPruning.CutHolds | store/store.go:228-303 | then every block above the base is there as saved, and the base block is there or gone, never in part |
| BlockPruning.BaseGoneIff | store/store.go:287-296 | the base block is gone, where it was there before, iff the last write made is a delete of that block |
| BlockStoreRuns.FinishedPrune | store/store.go:228-303 | a finished prune holds from the height asked for and leaves nothing more below |
| BlockStoreRuns.AlwaysHolds | store/store.go:228-466 | after any saves and prunes, each finished or stopped at any write, the first block at any height, the reopened store is contiguous from its base, or from the block above one that is gone, to its height |
| BlockStoreRuns.FlushLosesBase | store/store.go:287-296 | any store of more than a thousand blocks, pruned of a thousand and stopped after the first flush, has a base that is gone |
| BlockStoreRuns.LosesBase | store/store.go:287-296 | a run that gets there from the empty store |
| BlockStoreRuns.NothingLeftIff | store/store.go:311-371 | nothing is left below the first block iff no save cut short before it was of a lower height |
| BlockStoreRuns.JunkStays | store/store.go:228-371 | what is left below the first block stays for good, and grows only with a prune that is cut short |
| BlockStoreRuns.LeftBelow | store/store.go:311-371 | an interrupted first save and a finished one at a greater height, after which the store answers for a height below its base |
| TxIterator.ScanNext | mempool/clist_mempool.go:143-177 | one pass finds the foremost fitting transaction behind the starter: highest priority, first come |
| TxIterator.Iterate | mempool/clist_mempool.go:143-177 | asking on from each answer lists exactly the fitting transactions, once each, by priority and then arrival |
| TxIterator.DescendFinds | libs/tree/btree.go:42-70 | walking keys downwards finds the greatest allowed entry below the start |
| TxIterator.SearchLoop | libs/tree/llrb.go:56-80 | the loop of the llrb search computes its recursive form |
| TxIterator.SearchIff | libs/tree/llrb.go:56-80 | the llrb search finds the greatest allowed entry iff no disallowed entry on its path hides an allowed one to its left with none above |
| TxIterator.NothingHidden | mempool/tree_mempool.go:109-120 | without limits nothing is hidden, so the recheck cursor's successor is right |
| TxIterator.IteratorsAgree | mempool/tree_mempool.go:177-193 | for every pool of distinct transactions with times in order of arrival, limits and starter, the btree mempool answers as the list mempool, and the llrb mempool does iff nothing is hidden |
| LlrbProofs.LlrbMisses | libs/tree/llrb.go:56-118 | two inserted transactions, the higher one too large: the scan gives the other, the llrb search nothing |
| LlrbProofs.InsertKeeps | libs/tree/llrb.go:83-118 | inserting into a balanced left-leaning search tree leaves one, with the entry added if its key was not there and the same entries if it was |
| LlrbProofs.RemoveKeeps | libs/tree/llrb.go:137-195 | removing a key leaves a balanced left-leaning search tree with all other entries and returns the entry that had the key, if any; on the way no rotation meets a black link and no nil node is used |
| LlrbProofs.ToggleDelete | libs/tree/llrb.go:155-195 | delete does the same whatever the colour of the root, which the code leaves black where the algorithm wants it red |
| LlrbProofs.TreesHold | libs/tree/llrb.go:83-195 | over any inserts and removes the tree is balanced and holds exactly the entries inserted and not removed |
| Mempool.Store.CheckTx | mempool/mempool.go:335-397 | a transaction goes to the application iff the pool has room, the checks pass, it is not cached and the connection is up; it is cached iff it gets that far |
| Mempool.Store.ResCbFirstTime | mempool/mempool.go:474-524 | a first response adds the transaction iff it is accepted and fits both limits, takes it out of the cache if not, and panics during a recheck |
| Mempool.Store.ResCbRecheck | mempool/mempool.go:530-572 | a recheck response panics or changes pool, cursor and cache as specified |
| Mempool.Store.Update | mempool/mempool.go:601-661 | committed transactions go, the good ones stay cached and the others do not, and a recheck starts over what is left |
| Mempool.Store.RemoveTxs | mempool/mempool.go:664-674 | removes up to the first transaction that is not there, from pool and cache |
| TxCache.Cache.Push | mempool/mempool.go:774-796 | a new transaction is cached, at the cost of the one used longest ago when the cache is full; a known one moves to the back |
| TxCache.Cache.Remove | mempool/mempool.go:799-808 | takes out just the transaction |
| TxCache.PushedIs | mempool/mempool.go:774-796 | what a push leaves cached: all that was, but for the front of a full cache, and the new one; no repeats, within the size |
| TxCache.PushedOrder | mempool/mempool.go:774-796 | the transaction pushed is the one used last, and the others keep their order |
| MempoolProofs.CountsRight | mempool/mempool.go:454-674 | over all operations the byte count is the sum of the stored sizes, and both limits hold |
| MempoolProofs.RecheckExact | mempool/mempool.go:530-572 | with every entry indexed: no response mismatches or panics, the cursor follows the requests and is nil after one response each, the pool is the accepted entries in order |
| MempoolProofs.ExactIffIndexed | mempool/mempool.go:530-572 | a recheck is exact for all answers iff every entry is the one its transaction is indexed at |
| MempoolProofs.StaysIndexed | mempool/clist_mempool.go:79-99 | as long as no stored transaction is added again, every entry stays indexed |
| MempoolProofs.UnindexedReachable | mempool/clist_mempool.go:79-99 | two adds of one transaction, and answers for which the recheck is not exact |
| CacheProofs.KeptIff | mempool/mempool.go:335-674 | while every stored or pending transaction is there once and cached, an event keeps that iff it does not push one of them out of a full cache, or send one with no cache |
| CacheProofs.CachedUntilEvicted | mempool/mempool.go:335-674 | over every run without such an event, no transaction is stored twice and every recheck is exact |
| CacheProofs.AddedAgainIff | mempool/mempool.go:335-397 | a stored transaction goes to the application again iff there is room, the checks pass and it is not cached; accepted, it is stored twice |
| CacheProofs.UpdateTakes | mempool/mempool.go:601-661 | after a block exactly the committed transactions are gone, and the others keep their places |
| CacheProofs.UpdateCaches | mempool/mempool.go:617-633 | of the committed transactions only those found good may be cached after it, the last one surely; nothing else comes into the cache |
| CacheProofs.StoredTwice | mempool/mempool.go:774-796 | a run with a cache of one entry that stores a transaction twice |
| Snapshots.Pool.Add | statesync/snapshots.go:78-126 | adds the one offer iff verified, not blacklisted and the peer has fewer than ten; reports whether the snapshot is new; the invariant holds: indexes agree, every snapshot has a peer, no peer offers more than ten, nothing blacklisted is there |
| Snapshots.Pool.Reject | statesync/snapshots.go:199-206 | takes out the snapshot and its offers for good |
| Snapshots.Pool.RejectFormat | statesync/snapshots.go:209-217 | takes out all snapshots of the format for good |
| Snapshots.Pool.RemovePeer | statesync/snapshots.go:232-263 | takes out the peer's offers and the snapshots nobody else offers |
| Snapshots.Pool.RejectPeer | statesync/snapshots.go:220-229 | the same for good, except for the empty ID |
| Snapshots.Pool.Best | statesync/snapshots.go:129-196 | a stored snapshot, if there is any, such that none has a greater height, or the same and a greater format, or both the same and more peers |
| Snapshots.Pool.RejectSenders | statesync/syncer.go:193-199 | the snapshot is gone iff the empty ID is not among its senders |
| Snapshots.Pool.SyncAny | statesync/syncer.go:130-213 | with nothing added: it ends at the first sync that succeeds, aborts or fails otherwise, or when no snapshot is left; what it restores is the best snapshot still there; only a timeout or a refused snapshot blacklists snapshots, only a refused format formats, only refused senders peers; every pass that neither returns nor retries uses up a snapshot, so there are at most as many as snapshots, except where it refuses the senders of a snapshot that the empty ID offers |
| PeerIds.Ids.NextPeerID | mempool/reactor.go:60-73 | unless all IDs are taken, the wrapping search ends at an ID that is not active and not 0 |
| PeerIds.Ids.ReserveForPeer | mempool/reactor.go:49-56 | the peer gets a new ID, no two peers share one |
| PeerIds.Ids.Reclaim | mempool/reactor.go:76-85 | the peer's ID is free again, nothing else changes |
| Wal.WordRoundTrip | consensus/wal.go:318-321 | the big-endian words of the header read back |
| Wal.Encoder.Encode | consensus/wal.go:296-325 | writes the message's frame over the file at its position, or nothing and fails: if the length, as 32 bits hold it, is too big, or the file is read-only |
| Wal.HeadReads | consensus/wal.go:296-417 | what any frame reads back as, with messages whose length wraps cut to what the frame has room for |
| Wal.Decoder.Decode | consensus/wal.go:363-417 | reads one frame: a message, the end, or corruption |
| Wal.RoundTrip | consensus/wal.go:296-417 | decoding the concatenation of any encoded messages gives exactly them, then the end |
| Wal.DecodesExactly | consensus/wal.go:363-417 | decoding gives a message iff the bytes begin with checksum and length of some data, not too long, that decodes to it; and the end iff there is no room for a checksum |
| Wal.Truncated | consensus/wal.go:363-417 | any truncation gives the messages whose frames are whole, then the end, or corruption if at least four more bytes are there |
| WalRepair.Repair | consensus/state.go:2075-2107 | what the repair leaves in its destination and whether it succeeds, for a destination opened read-only, writable, or truncated; read-only, as it is opened, it never changes, and the repair succeeds iff nothing is readable |
| WalRepair.RepairFails | consensus/state.go:2093-2104 | it fails on every log of one message and anything after it |
| WalRepair.RestoresIff | consensus/state.go:2075-2107 | the destination ends as the frames of exactly the readable messages iff none is too big, and the file was truncated, or is writable and not longer than them, or is empty with nothing readable |
| WalRepair.OverwritingKeepsTail | consensus/state.go:319-335 | writable but not truncated, the log that its own copy is written over is as it was, with its corrupt end |
| WalRepair.RepairIsIdempotent | consensus/state.go:2075-2107 | with a truncated destination, and an encoding that is not longer than what was decoded, the repair succeeds, what it leaves decodes to what was readable without error, and repairing that changes nothing |
| WalRepair.RepairKeepsLongest | consensus/state.go:2075-2107 | with a truncated destination, repairing a cut log keeps its longest decodable prefix |

## Left out

- Consensus: the order of block parts (the last one stands for all), proposing, proposer rotation within the round state, what goes into evidence and proof-of-lock-change records, replay of the round state from the log after a crash, the limit of two catch-up rounds a peer.
- Halting.HaltsIff: leaves out panics over the disk, the log and the application, and rounds at the end of 32 bits; rounds are unbounded.
- Agreement.Agree: is about honest nodes that do not crash; that a signer does not sign twice across crashes is PrivVal.NoDoubleSigning.
- Consensus timeouts: durations and clocks; a scheduled timeout may fire at any later time.
- Progress.WaitingEnds: leaves out the wait for transactions at the start of a height, which ends when they come, by Majorities.TxsMove, or with the timeout that Progress.RoundStep schedules if empty blocks are wanted.
- Validators: clipping of priorities and overflow of powers at 64 bits; powers and priorities are unbounded, the cap on the total power is kept.
- History: the override of genesis validators by InitChain and the bootstrap of state sync, which seed the state differently; a crash between the single writes of SaveState.
- StateStore.Store.Prune: takes parameter entries to point back, as all that are saved do, by PruneProofs.HistoryGood.
- Verifier: overflow in computing the trust threshold; backwards verification.
- LightChain.StaysOnChain: is about the path of one verification, from a header that is on the chain.
- LightClient: trusted headers of negative height; comparing with witnesses runs concurrently and is one answer here; the trusted store, cleanup and backwards verification. Sequence and Bisection take each retry loop to end, by a limit below 65535 or providers that answer sooner or later.
- Producer.SequenceAccepts: leaves out the checks of validateBlock on versions, consensus parameters, median time and evidence, which only refuse more blocks.
- Recovery: InitChain at height 0; the checks of validateBlock other than evidence and the comparison of application hashes, which pass again for a deterministic application; pruning blocks is one write here, its single writes are those of BlockPruning.
- Validation.ValidateEvidence: takes VerifyEvidence as an answer, and leaves out that the pool is given amnesia evidence that is refused.
- Llrb: nodes are values here, so updating them in place is not shown.
- Mempool: the log, notifications, senders and Flush, which the code calls unsafe; concurrent RemoveTxs during a recheck.
- Snapshots.Pool.SyncAny: chunks and the concurrent arrival of snapshots are left out.
- Wal: rotation of files and the search for an end of height.
- WalRepair.Repair: decodes a plain file, whose last read may fill its buffer only in part without an error, so that a frame cut within trailing zero bytes still decodes; here a frame that is cut does not.
- Gossip, peer-to-peer networking, reactors, RPC, configuration, metrics, events and what the evidence pool keeps: they would add easy members or depend on timing.
