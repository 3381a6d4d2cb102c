# Chained HotStuff, verified in Dafny

This project models the consensus core of go-hotstuff and proves what it is for. There are three parts.

- **The replica** (`consensus/consensus.go`, `consensus/entity.go`, `consensus/hotstuff.go`). It stores blocks, tallies
  votes into quorum certificates, moves its highest, locked and executed certificates, and decides by the three-chain
  rule. N replicas, up to F of them faulty, run over a network that may lose, delay, repeat and reorder messages.
- **The round-robin pacemaker** (`pacemaker/roundrobin.go`). It moves views, skips dead leaders and gathers new-view quorums.
- **The storage below** (`common/db/memorydb/lru_cache.go`, `common/db/leveldb/provider.go`). It is an LRU block cache and
  many logical databases in one key space.

`dafny verify dfyconfig.toml` checks everything.

## How the model is laid out

| module | content |
|---|---|
| `Types`, `Quorum`, `Entity`, `BlockTree` | data, quorum size, certificate checks, block hash, ancestry |
| `Replica`, `HotStuff`, `Notices`, `Errors` | the handlers as functions on the value of a replica; the class that implements them; what it tells its pacemaker; when it fails |
| `Heights`, `SafeVotes` | certificate heights and the vote rule, without any assumption on who signs what |
| `System`, `EveryRun` | N replicas and a network; what holds in every run under either vote rule |
| `World`, `WorldSteps` | block tree and ballots of a run, lock safety and quorum intersection for any such world |
| `ReplicaInv`, `HandlerSafety`, `OrderlyRuns`, `Agreement` | every handler keeps the invariant; orderly runs have it; agreement |
| `Fork`, `DoubleVote`, `LostBlock`, `TwoCertificates` | runs that are not orderly, and what goes wrong in them |
| `LockOrder` | what an unverified certificate does |
| `Progress`, `ClosedLoop`, `LoopRuns` | runs in which every honest replica decides |
| `TallyRuns`, `Completion`, `BogusTally`, `HotStuffBase` | vote conservation, QcFinish, tallies that arrive unchecked, the guard in front of the tally |
| `DecideRuns`, `SkippedBlock` | what gets decided, in which order, how often; runs that break the order |
| `Pacemaker`, `PacemakerRuns`, `RoundRobin`, `PacedRuns` | the pacemaker on values, over runs, as a class, and driving the cores |
| `PacemakerSends`, `VoteRoute` | what it sends, starts and hands on; whether a vote finds the replica that counts it |
| `PacedMoves`, `Rotation`, `TurnRuns` | runs with pacemakers in which everything has a cause; one leader's turn; leaders that take turns and decide, some of them down |
| `Lru`, `MemoryDb`, `LevelKeys`, `Provider` | storage |

Each mutable object of the program is a class whose methods are proved equal to a function of the old state. The theorems are
about those functions, over all states, all runs, or all reachable states.

## Modelling choices

- **Vote gating.** The field comment at `consensus/consensus.go:40-41` and the comments of the vote rule say that a replica
  votes when the rule raises `voteHeight`. The code at lines 182-188 sends the vote either way. The class follows the code
  (`AsWritten`); `Meant` is the documented rule. Every theorem about runs is for both.
- **The missing grandparent.** `update` returns nil, so the vote goes out, when the justify block of the justify block is not
  stored, and then no lock is taken.
- **Orderly runs.** These two are where the code departs from the protocol. A run is *orderly* (`OrderlyRuns.Orderly`) if
  every vote in it repeats one the replica has cast before, or was accepted by the vote rule and cast with the grandparent stored or
  the lock high enough already. All this can be told before the call. A replica's ballots are its first signatures, one per block
  hash, so receiving a proposal again is in order. `OrderlyRuns.OrderlyIff` shows that these are exactly the runs in which all ballots are lawful, and
  `Agreement` is about them. Agreement is false for the code in general: `DoubleVote.AgreementFailsAsWritten` has a run of the
  code as written, and `LostBlock.AgreementFailsWithoutLock` a run under the documented vote rule with one lost message, in
  which two honest replicas decide blocks on different branches.
- **Valid blocks.** `OnReceiveProposal` does not recheck what `OnPropose` and `createLeaf` build. A run delivers blocks whose
  height is the parent's plus one, whose justify is the parent or an ancestor of it, and whose justify verifies or is for
  genesis (`System.ValidBlock`). A block may come into being without being delivered to anybody. `LockOrder` says exactly what a
  justify that does not verify does to the order of the certificates, and what a replica does on a chain of such blocks.
- **Hashes.** The hash function is a parameter `Bytes -> Hash` with no assumption. A run assumes that no two of its blocks
  share a hash (`System.Fits`). That also fixes one justify per hash, which the hash itself does not cover.
- **Signatures** are ideal: only the owner makes signatures that verify. Faulty replicas may sign anything, and sign twice.
- **Steps.** Each handler is one atomic step. `AsyncWaitBlock` is the question whether the block is stored. Connection status
  is an arbitrary answer to each question asked. The clock is a parameter of `OnPropose`.
- **The store** is an unbounded map in the protocol proofs. `Lru.IdealWhileKeysFit` and `Lru.RetrievableUntilCrowdedOut` say
  when the 30-entry cache behaves like one.
- **Votes after a skipped leader.** A replica that finds the next leader dead sends its vote to a later one, but the vote keeps
  the view number it was made with, and `handleVote` admits a vote only at the leader after that view. So the vote is
  dropped. `VoteRoute.RoutedVoteAdmittedIff` has the exact condition and `VoteRoute.SkippedLeaderLosesVote` such a vote. A
  leader that skips its successor in `OnProposeEvent` renumbers the proposal, and then all votes arrive
  (`TurnRuns.TurnsAreDecided`).
- **Re-voting under a lock.** A replica can be locked on the block it votes for. The lock argument therefore counts only
  ballots whose lock is a different block, and `WorldSteps.BackersAreFresh` shows that a block becomes certified by a quorum of such ballots.

## Model

| member | source | states |
|---|---|---|
| `Agreement.AgreementTheorem` | consensus/consensus.go:139-314 | with N >= 3F+1 and at most F faulty, in every orderly run, under either vote rule, whatever any honest replica has decided at any moment and whatever any other has decided at any other moment lie on one branch, and stay decided |
| `Agreement.SameHeightSameCommands` | consensus/consensus.go:300-309 | in every orderly run two honest replicas that decide at one height decide one block with one parent and the same commands, unless the hash function collides on the two |
| `Agreement.LockSafetyInRuns` | consensus/consensus.go:152-285 | in every orderly run, once b, b', b'' are direct parents in a row and b'' has an accepted certificate, every block with an accepted certificate at or above b's height extends b |
| `Agreement.OneCertificatePerHeight` | consensus/entity.go:34-59 | in every orderly run two certificates that VerifyQuorumCert accepts for blocks of one height are for one block |
| `Agreement.DecidedBlocksComparable` | consensus/consensus.go:280-309 | in any state with the invariant, blocks decided by any two honest replicas are one an ancestor of the other |
| `EveryRun.CertificateOrder` | consensus/consensus.go:256-363 | in every state of every run, under either vote rule, with any number of faulty replicas and whatever is missing, exec <= locked <= generic in height, with locked < generic unless the lock is genesis |
| `EveryRun.RunIsMonotone` | consensus/consensus.go:316-363 | along every such run the heights of genericQC and lockedQC never fall, events stay, and tree and ballots only grow |
| `EveryRun.LeaderVoteIsSafe` | consensus/consensus.go:99-131 | in every such state the leader's own vote, cast with no lock check, is safe for the lock held when it is signed |
| `EveryRun.RunIsTidy` | consensus/consensus.go:99-232 | in every such state all stored blocks are blocks of the tree, and all three certificates name stored blocks |
| `OrderlyRuns.OrderlyIff` | consensus/consensus.go:152-188 | a run is orderly if and only if in each of its states every honest replica's ballots rise in height, obey the vote rule, and were cast under a lock as high as every ballot so far calls for |
| `OrderlyRuns.StepLawfulIff` | consensus/consensus.go:152-188 | one call keeps ballots lawful if and only if its vote, if any, was cast before, or is accepted by the rule and the grandparent is stored or the lock high enough |
| `OrderlyRuns.RunInv` | consensus/consensus.go:99-232 | every state of every orderly run satisfies the invariant of tree, ballots and all honest replicas |
| `OrderlyRuns.ApplyKeeps` | consensus/consensus.go:99-232 | each orderly call under either rule keeps that invariant, as does a block that appears without being delivered |
| `OrderlyRuns.InitInv` | consensus/consensus.go:69-94 | freshly constructed replicas satisfy it |
| `DoubleVote.AgreementFailsAsWritten` | consensus/consensus.go:182-188 | agreement is false of the code as written: a run of four replicas, one faulty, in which two honest replicas decide different blocks of height 1 |
| `DoubleVote.StrayVotesDisagree` | consensus/consensus.go:182-188 | so it is for any hash function that does not collide on the eight blocks of that run: replica 0 decides block 1 of one chain and replica 1 block 1 of the other |
| `LostBlock.AgreementFailsWithoutLock` | consensus/consensus.go:267-271 | agreement is false even if every vote obeys the vote rule: a run in which one lost block lets a replica vote without a lock, and two honest replicas decide blocks of heights 1 and 4 on different branches |
| `LostBlock.LostBlockDisagrees` | consensus/consensus.go:267-271 | so it is for any hash function that does not collide on the eleven blocks of that run; replica 0 decides block 1 of one chain and replica 1 block 4 of the other |
| `LostBlock.VotesUnlocked` | consensus/consensus.go:267-271 | a replica that has block 2 but not block 1 accepts block 3 and signs it with its lock still at genesis |
| `TwoCertificates.TwoCertificatesAtOneHeight` | consensus/consensus.go:182-188 | for every setup with N >= 3F+1, at most F faulty and N known replicas, and any two blocks of height 1 that justify genesis by an empty certificate and arrive with empty tallies, a run of the code as written after which both have certificates that VerifyQuorumCert accepts, made of the real votes of all honest replicas and of nobody else |
| `World.LockSafety` | consensus/consensus.go:152-180 | the lock argument: every certified block at or above a committed block extends it, by induction over certified heights |
| `World.LockCarriesOver` | consensus/consensus.go:267-285 | some honest replica backs both b'' and any higher certified block, and cast the later ballot under a certified lock at or above b |
| `World.OneCertifiedPerHeight` | consensus/entity.go:34-59 | quorum intersection and strictly rising ballots leave one certified block per height |
| `World.CommittedComparable` | consensus/consensus.go:280-285 | any two tails of certified three-chains lie on one branch |
| `World.VerifiedIsCertified` | consensus/entity.go:34-59 | a certificate the program accepts has N - F signers of which every honest one really signed that block |
| `Quorum.QuorumIsGreatest` | common/utils/utils.go:11-13 | the quorum is the greatest number of votes that is always reached: a number is at most the quorum exactly if, whichever replicas, at most F, are silent, that many others are left |
| `Quorum.QuorumsIntersect` | common/utils/utils.go:11-13 | two sets of N - F replicas share at least F + 1, one of them honest |
| `WorldSteps.AddBlock` | consensus/consensus.go:143-150 | a valid new block keeps every invariant of tree and ballots |
| `WorldSteps.AddBallot` | consensus/consensus.go:182-188 | a ballot that obeys the vote rule keeps every invariant of tree and ballots |
| `WorldSteps.BackersAreFresh` | consensus/consensus.go:156-188 | everybody who backs a block that is not certified yet, the newest ballot included, did so under a lock on some other block |
| `HandlerSafety.ReceiveKeeps` | consensus/consensus.go:139-191 | OnReceiveProposal under either rule keeps the replica's and the world's invariant, whether it votes in order, refuses or fails |
| `HandlerSafety.ProposeKeeps` | consensus/consensus.go:99-136 | so does OnPropose on the highest certificate, self-vote and tally included, if the lock is in place when it signs |
| `HandlerSafety.VoteKeeps` | consensus/consensus.go:194-232 | so does OnProposalVote, parked or counted, below or at the quorum, and it signs nothing |
| `SafeVotes.WalkFindsLockIffExtends` | consensus/consensus.go:169-179 | the bounded parent walk, if no block is missing, ends at the locked block exactly when that is the proposed block or an ancestor, for every linked tree and all heights |
| `SafeVotes.ClosedStoreWalks` | consensus/consensus.go:170-175 | with all parents stored the walk misses nothing |
| `SafeVotes.JudgeIsSafeNode` | consensus/consensus.go:156-180 | unless a block is missing, voteHeight is raised exactly for a higher block that is safe for the lock |
| `SafeVotes.VoteRuleExact` | consensus/consensus.go:156-180 | with all parents stored the same holds for every stored block with a stored justify |
| `SafeVotes.SelfVoteIsSafe` | consensus/consensus.go:122-131 | a block that justifies genericQC is safe for the lock, because the lock is below genericQC or is genesis |
| `Heights.UpdateOrders` | consensus/consensus.go:256-314 | whoever signed what: update keeps the order of the certificates, moves neither genericQC nor lockedQC down, and the lock ends up as high as the block calls for if and only if the grandparent is stored or it was that high |
| `Heights.ReceiveOrders` | consensus/consensus.go:139-191 | so does OnReceiveProposal under either rule |
| `Heights.ProposeOrders` | consensus/consensus.go:99-136 | so does a proposal on the highest certificate, self-vote included |
| `Heights.VoteOrders` | consensus/consensus.go:194-232 | so does OnProposalVote with any vote whatever |
| `LockOrder.LockOrderIff` | consensus/consensus.go:265-272 | whatever the block's justify is worth, after update the lock is below genericQC or genesis if and only if the justify verifies or the new lock is below genericQC already or genesis |
| `LockOrder.ForgedChainLocks` | consensus/consensus.go:343-363 | on a chain none of whose certificates verify a replica votes for all n blocks, locks height n - 2 and decides heights 1 to n - 3 while genericQC stays at genesis |
| `ReplicaInv.UpdateKeeps` | consensus/consensus.go:256-314 | update keeps certificate order, certified locks and decided blocks on committed branches, and the lock ends up as high as the block calls for exactly if the grandparent is stored or it was there |
| `ReplicaInv.HighestKeeps` | consensus/consensus.go:316-341 | after UpdateHighestQC genericQC is at least as high as any certificate that verified, and is certified |
| `ReplicaInv.LockedKeeps` | consensus/consensus.go:343-363 | after updateLockedQC the lock is at least as high as the block offered, and still below genericQC or genesis |
| `ReplicaInv.DecideKeeps` | consensus/consensus.go:280-309 | everything the decide phase notifies is the tail of a certified three-chain or an ancestor of it |
| `ReplicaInv.DecidedAreAncestors` | consensus/consensus.go:300-309 | the decide loop notifies only ancestors of the block it starts from |
| `LoopRuns.CommandsAreDecided` | consensus/consensus.go:99-232 | for every sound setup, honest leader and three or more commands whose ledger hashes do not repeat (NoRepeat) there is an orderly run in which exactly these commands are proposed, in order and by the leader, only proposals it announced are delivered and only votes of honest replicas counted, and after which the commands of the blocks that each honest replica has decided are all commands but the last three, in order; all of them store the same chain with these commands, whose blocks after the first justify the one before by a verifying certificate of honest signatures that the leader announced with QcFinish |
| `LoopRuns.AnyCommandsAreDecided` | consensus/consensus.go:99-232 | the same, clause by clause, for four replicas of which one is faulty, leader 0, a hash function that keeps all its input, and any three or more commands |
| `TurnRuns.TurnsAreDecided` | pacemaker/roundrobin.go:80-330 | for every setup of N >= 2 replicas of which no two that follow each other are down, and three or more commands on which the hash neither collides nor is empty, there is a run of the replicas with their pacemakers in which only messages that were sent arrive, votes pass handleVote, handlers run only for what was announced, started or timed out, connections are reported as they are, and every vote is in order; command k is proposed by the leader of the k-th view whose leader is up, and in the end the commands each honest replica has decided are all but the last three, in order; if the first leader is down the run begins with a view change |
| `TurnRuns.FourTakeTurns` | pacemaker/roundrobin.go:80-330 | the same for four replicas, a hash function that keeps all its input, and any three or more commands; command k is proposed in view k by replica k % 4 |
| `TurnRuns.ThreeGoOn` | pacemaker/roundrobin.go:80-330 | the same with replica 0 down: command k is proposed in view k + k / 3 + 1 by replica k % 3 + 1 |
| `TurnRuns.ChangeView` | pacemaker/roundrobin.go:108-253 | with the first leader down, all time out into view 1 and tell its leader, whose beat starts when N - F have, its own message included |
| `Rotation.Opens` | pacemaker/roundrobin.go:80-155 | in its turn a leader's OnBeat builds, votes for and announces the next block on its highest certificate, and OnProposeEvent sends it to all, for the next view if the next leader is down |
| `Rotation.PassOn` | pacemaker/roundrobin.go:157-188 | a replica that receives that block accepts it, and its pacemaker goes to the proposal's view and sends the vote to the next leader that is up, once |
| `Rotation.TakesOver` | pacemaker/roundrobin.go:315-330 | with a quorum counted OnQcFinishEvent takes the next leader to its own view with a beat for the command that waits, and all replicas are ready for its block |
| `LoopRuns.ProposeStep` | consensus/consensus.go:99-136 | the run grows by one call of OnPropose, and the leaf is the block this call builds, justified by the leader's highest certificate |
| `ClosedLoop.LeaderProposes` | consensus/consensus.go:99-136 | the leader votes for its block, counts that vote and announces the block with it |
| `ClosedLoop.CountsVote` | consensus/consensus.go:202-229 | each further vote is added, and the one that completes the quorum makes the block's own certificate the highest and announces it |
| `Progress.TeamDecides` | consensus/consensus.go:139-191 | for every chain that a team of honest replicas endorses block by block there is an orderly run in which all of them vote for all n blocks and the blocks they decide are exactly those of heights 1 to n - 3, in order |
| `Progress.CatchUp` | consensus/consensus.go:139-191 | a replica that has followed such a chain accepts the next block, votes for it, locks two below and decides three below |
| `Progress.HonestAreAQuorum` | common/utils/utils.go:11-13 | the honest replicas are at least a quorum, and exactly one if F are faulty |
| `Progress.VotesVerify` | consensus/entity.go:34-59 | the votes of any N - F replicas make a certificate that verifies |
| `DecideRuns.DecidesWholeBranchIff` | consensus/consensus.go:280-309 | in every run whose three-chain tails lie on one branch, the decided blocks are at all times the branch from height 1 to the last executed, each exactly once, if and only if no tail arrives below the last executed block and no block between the two is missing |
| `DecideRuns.StepPrefixIff` | consensus/consensus.go:280-309 | one call keeps that if and only if its tail is not below the last executed block and no block between them is missing |
| `DecideRuns.DecidedPrefixIff` | consensus/consensus.go:297-309 | the same for one update |
| `DecideRuns.UpdateEmitsInterval` | consensus/consensus.go:300-309 | one update emits the heights from its tail down to the first missing block, but none at or below the last executed one |
| `DecideRuns.DecidedOnBranch` | consensus/consensus.go:301-309 | the decide loop lists the stored blocks of the branch from the top down to the first missing one, and fails exactly if one is missing |
| `SkippedBlock.LostBlockIsSkipped` | consensus/consensus.go:297-305 | a replica that receives blocks 2 to 5 of a chain but not block 1 decides block 2 only and leaves execQC there, so block 1 is skipped |
| `SkippedBlock.LateBlockIsDecided` | consensus/consensus.go:287-305 | but not for good: if block 1 arrives late and blocks 3 and 5 again, execQC falls back to genesis and the replica has decided blocks 2, 2, 1 |
| `SkippedBlock.LateTailDecidesTwice` | consensus/consensus.go:287-305 | with nothing lost, blocks 3 and 5 received again after blocks 1 to 5 make the replica decide blocks 1, 2, 2, 1 |
| `SkippedBlock.RepeatsDecideAgain` | consensus/consensus.go:287-305 | in any run that holds blocks 0 to 5 and has executed block 2, block 3 again moves execQC to genesis and block 5 again decides blocks 2 and 1 |
| `DecideRuns.UpdateWithoutTail` | consensus/consensus.go:256-285 | an update that builds no three-chain decides nothing and leaves execQC |
| `DecideRuns.HappyPath` | consensus/consensus.go:256-309 | a replica fed a chain that always justifies the parent has after n >= 3 blocks decided exactly the blocks of heights 1 to n - 3, in that order |
| `TallyRuns.TallyConservation` | consensus/consensus.go:194-224 | for a block stored once, in any order of block and votes, while below the quorum the counted and parked voters are exactly the initial ones and all delivered since |
| `TallyRuns.CertsNeverReplaced` | consensus/consensus.go:209-217 | for a block stored once, over any run a recorded certificate is never dropped or replaced |
| `TallyRuns.SecondStoreKeepsIff` | consensus/consensus.go:139-150 | a proposal for a stored hash keeps every recorded certificate if and only if its block carries them all |
| `TallyRuns.RepeatLosesVote` | consensus/consensus.go:139-150 | a proposal, a vote that is counted, and the same proposal again: the vote is lost |
| `TallyRuns.VoteConserves` | consensus/consensus.go:194-224 | one vote adds exactly its voter below the quorum and nothing at the quorum |
| `TallyRuns.ApplyVotesKeys` | consensus/consensus.go:414-425 | counting parked votes adds exactly their voters and keeps every earlier certificate |
| `Completion.QcFinishOnce` | consensus/consensus.go:202-229 | over any run in which the block is stored at most once and with a tally below the quorum, QcFinish is notified for it once if its tally reaches the quorum and never otherwise |
| `Completion.StepFinishes` | consensus/consensus.go:202-229 | a call notifies QcFinish exactly when it takes the tally from below the quorum to it |
| `Completion.FinishedQcVerifies` | consensus/consensus.go:194-232 | if all votes and initial certificates are vetted, every certificate announced passes VerifyQuorumCert |
| `HotStuffBase.HandleVote` | consensus/hotstuff.go:162-185 | a vote reaches the tally exactly if it is admitted, which AdmittedIff writes out, and nothing happens otherwise |
| `VoteRoute.AdmittedIff` | consensus/hotstuff.go:162-185 | a vote of view v >= 0 is admitted exactly if it names a block, is signed by a known replica that is the sender and the voter, and (v + 1) % N is this replica |
| `VoteRoute.AnnouncedVote` | consensus/consensus.go:182-188 | a vote announced for a received proposal carries the proposal's view, this replica's id, the block's hash and a signature of it that verifies |
| `VoteRoute.VoteFindsCounter` | consensus/hotstuff.go:162-185 | the vote that OnReceiveProposal announces for a proposal of view v is admitted by replica (v + 1) % N and by no other, for every v >= 0 and N |
| `VoteRoute.RoutedViewIs` | pacemaker/roundrobin.go:157-178 | a proposal of view k is routed for k if the leader after the larger of k and curView is this replica or connected, and otherwise for the first view after that of which this holds |
| `VoteRoute.OneCopyPerView` | pacemaker/roundrobin.go:157-188 | curView ends at the first view, not below either, whose next leader is this replica or connected, and the vote is sent once and once more for every leader skipped, or not at all |
| `VoteRoute.RoutedVoteAdmittedIff` | pacemaker/roundrobin.go:157-188 | all that the pacemaker sends for a received proposal are copies of its vote to one replica, the leader after the view v where the search for a live one ends, and this replica admits it exactly if v and the proposal's view differ by a multiple of N |
| `VoteRoute.VoteSurvivesIff` | pacemaker/roundrobin.go:157-188 | so a vote sent by a replica that is not ahead of the proposal is admitted where it goes exactly if the leader after the proposal's view was reported connected, and then it goes to that one |
| `VoteRoute.SkippedLeaderLosesVote` | pacemaker/roundrobin.go:167-180 | a vote of four replicas that goes to the leader after a dead one, and is dropped there |
| `HotStuffBase.GuardedRunsFinishVerified` | consensus/hotstuff.go:162-185 | with that guard, and real signatures only in the tallies that proposals arrive with, every certificate ever announced by QcFinish passes VerifyQuorumCert |
| `BogusTally.CompletedVerifiesIff` | consensus/consensus.go:202-229 | a counted, vetted vote leaves a certificate signed by exactly the recorded voters and its own; it verifies if and only if that count less the bogus entries of the stored tally is a quorum, and with nothing parked, if and only if there is no bogus entry |
| `BogusTally.BogusStays` | consensus/consensus.go:202-229 | over any run of vetted votes in which the block is stored at most once, its tally and every certificate announced for it have exactly the bogus entries the block was stored with |
| `BogusTally.FinishedVerifyIff` | consensus/consensus.go:202-229 | so a certificate announced in such a run verifies if and only if it has a quorum of signers besides those |
| `HotStuffBase.GuardedFinishIff` | consensus/hotstuff.go:162-185 | with the guard, whatever tallies proposals arrive with, a certificate announced for a block stored once passes VerifyQuorumCert if and only if it has a quorum of signers besides the bogus entries the block arrived with |
| `HotStuffBase.TallyThenVote` | consensus/hotstuff.go:162-185 | from a fresh replica: a proposal with a tally one short of the quorum and one vote through the guard announce a certificate, which VerifyQuorumCert accepts if and only if nothing in that tally was bogus |
| `HotStuffBase.UnvettedTallyFinishes` | consensus/consensus.go:202-229 | whatever the last vote is worth, a stored tally one short of the quorum with no real signature in it ends in QcFinish with a certificate that VerifyQuorumCert rejects |
| `HotStuffBase.GuardIsNotEnough` | consensus/hotstuff.go:162-185 | such a run of four replicas whose announced certificate VerifyQuorumCert rejects |
| `Entity.VerifyQuorumCert` | consensus/entity.go:34-59 | accepts exactly the certificates with enough entries of which enough are verified signatures of known replicas |
| `Entity.QcVerifiesIffEnoughSigners` | consensus/entity.go:34-59 | for a non-negative quorum that is exactly N - F distinct known signers |
| `Entity.NegativeQuorumNeverVerifies` | consensus/entity.go:58 | with F > N the unsigned comparison rejects every certificate |
| `Entity.ComputeBlockHash` | consensus/entity.go:75-90 | hashes the parent, the height as eight bytes with the lowest first, and the commands |
| `Entity.HashOfLayout` | consensus/entity.go:75-90 | the hashed bytes are exactly those with the parent in front, (height / 256^i) % 256 in the i-th of the next eight places and the commands behind |
| `Entity.ByteAt` | consensus/entity.go:78-79 | byte i of a number written so is (x / 256^i) % 256 |
| `Notices.GenesisHash` | consensus/consensus.go:71-90 | genesis is hashed as eight zero bytes and certified for view -1 without signatures |
| `Entity.PreimageDeterminesContent` | consensus/entity.go:75-90 | for 32-byte parents the hashed bytes determine parent, height and commands |
| `Entity.OrdinaryIsNotGenesis` | consensus/entity.go:75-90 | and are never the bytes of genesis |
| `Entity.OneHashOneContent` | consensus/entity.go:75-90 | without collisions among stored blocks, one hash means one content in any two stores |
| `Entity.HashDeterminesHistory` | consensus/entity.go:75-90 | and one list of heights and commands all the way back |
| `Notices.NoticesAreTrue` | consensus/consensus.go:99-341 | in every run under either rule every notice of an honest replica is true: a proposal is its own, for its view, under its real hash and signed; a vote is its own, for the proposal's view and block; a highest certificate verifies and the last one announced is the one it has; a finished one has N - F entries |
| `Notices.HighestTells` | consensus/consensus.go:316-341 | genericQC becomes the certificate offered, with the notice of this very certificate, if and only if it verifies, the block of the old one is stored and its block is higher |
| `Notices.ProposalIsAnnounced` | consensus/consensus.go:99-136 | unless OnPropose fails it announces the given commands on the given parent, one higher, justified by the highest certificate at the call and with the proposer's own vote, and stores the block as announced |
| `Notices.LockMovesIff` | consensus/consensus.go:343-363 | lockedQC becomes the certificate offered if and only if its own block is stored and the block offered is higher |
| `Errors.UpdateOkIff` | consensus/consensus.go:256-314 | update fails exactly if the block's justify block is not stored, or it ends a three-chain of stored blocks and the last executed block or one of those to be decided is not; a missing block further down and a broken chain are no errors |
| `Errors.DecidedOkIff` | consensus/consensus.go:300-309 | the decide loop lists stored blocks, each followed by its parent, and fails exactly if these are fewer than asked for, and then the next one is missing |
| `Errors.VoteOkIff` | consensus/consensus.go:194-232 | counting a vote fails exactly for a recorded voter in a tally short of N - F, and then nothing changes |
| `Errors.ReceiveOkIff` | consensus/consensus.go:139-191 | OnReceiveProposal fails exactly if update does or the vote rule misses a block, and announces a vote exactly if it does not fail and, under the documented rule, the rule accepts |
| `Errors.ProposeOkIff` | consensus/consensus.go:99-136 | OnPropose fails exactly if the parent is not stored, is below voteHeight, or update fails on the new block; in the first two cases nothing changes |
| `Notices.CountingUnparks` | consensus/consensus.go:414-425 | a vote that is counted takes with it all that were parked for its block, and no others |
| `Notices.FirstVoteCounts` | consensus/consensus.go:414-425 | of several parked votes of one voter the first counts |
| `HotStuff.HotStuffCore.constructor` | consensus/consensus.go:69-94 | a new replica holds genesis, and all three certificates are genesis's |
| `HotStuff.HotStuffCore.OnPropose` | consensus/consensus.go:99-136 | the whole new state and the error result: nothing on a missing parent or a height already voted, else block, update, self-vote, tally and event |
| `HotStuff.HotStuffCore.OnReceiveProposal` | consensus/consensus.go:139-191 | the whole new state and the error result, with the vote sent whatever the rule said |
| `HotStuff.HotStuffCore.OnProposalVote` | consensus/consensus.go:194-232 | the whole new state and the error result: parked, ignored, refused as a duplicate, counted, or counted and announced |
| `HotStuff.HotStuffCore.Update` | consensus/consensus.go:256-314 | the three phases as in the specification that the safety proofs use |
| `HotStuff.HotStuffCore.DecidePhase` | consensus/consensus.go:287-309 | execQC moves before the loop, also when the loop then fails |
| `HotStuff.HotStuffCore.NotifyDecided` | consensus/consensus.go:300-309 | the loop notifies the blocks down the parent links, and reports the first missing one |
| `HotStuff.HotStuffCore.UpdateHighestQC` | consensus/consensus.go:316-341 | genericQC moves, with an event, only for a verifying certificate of a higher block |
| `HotStuff.HotStuffCore.UpdateLockedQC` | consensus/consensus.go:343-363 | lockedQC moves only for a higher block |
| `HotStuff.HotStuffCore.ApplyVoteRule` | consensus/consensus.go:156-180 | voteHeight becomes the block's height exactly when the rule accepts it, and an error is a missing block |
| `HotStuff.HotStuffCore.WalkParents` | consensus/consensus.go:170-175 | the loop returns the block that many parent links up, or none |
| `HotStuff.HotStuffCore.TakeParked` | consensus/consensus.go:414-425 | all parked votes of the hash are counted, first ones first, and taken off the queue |
| `HotStuff.HotStuffCore.AddVoteMsg` | consensus/consensus.go:401-412 | the vote is queued last for its hash |
| `HotStuff.HotStuffCore.GetJustifyBlock` | consensus/consensus.go:384-399 | the stored block that the justify names, or none for a missing justify or block |
| `Pacemaker.NextLive` | pacemaker/roundrobin.go:108-118 | skipping dead leaders terminates, at most N views up, whatever the connection status reported at each step |
| `Pacemaker.NextLiveIsLeast` | pacemaker/roundrobin.go:108-118 | it ends at the least later view whose leader is this replica or was reported connected |
| `Pacemaker.Settle` | pacemaker/roundrobin.go:157-171 | the proposal handler's recursion skips fewer than N leaders |
| `Pacemaker.SettleIsLeast` | pacemaker/roundrobin.go:157-171 | it ends at the first view whose next leader is this replica or was reported connected |
| `PacemakerRuns.SkipsToLeastLiveView` | pacemaker/roundrobin.go:100-118 | with a fixed connection status OnNextSyncView ends at the least view above the old one whose leader is this replica or connected |
| `PacemakerRuns.NewViewQuorumOncePerView` | pacemaker/roundrobin.go:191-313 | over every run each view's new-view quorum fires at most once although records are deleted, and the current view's has fired exactly if N - F distinct replicas are recorded |
| `PacemakerRuns.FiresExactlyAtQuorum` | pacemaker/roundrobin.go:269-302 | a message fires the quorum exactly when it takes the distinct senders of its view from below N - F to N - F |
| `PacemakerRuns.ViewNeverFalls` | pacemaker/roundrobin.go:108-336 | curView never falls between any two moments of any run |
| `PacemakerRuns.RunKeeps` | pacemaker/roundrobin.go:108-336 | in every run no view above curView has a record, and records of curView agree with what has fired |
| `PacemakerRuns.VoteRouting` | pacemaker/roundrobin.go:157-188 | a vote is passed on at most N times; after a skip all copies go to one leader that is this replica or connected; copies counted by this replica have the effect of one |
| `PacemakerRuns.SecondDeliveryIsIdle` | consensus/consensus.go:202-217 | the same vote again changes nothing once its block is stored |
| `PacemakerRuns.ParkedForSelf` | consensus/consensus.go:196-219 | copies parked for an unknown block are all kept and will count like one |
| `PacemakerSends.CommandsAreConserved` | pacemaker/roundrobin.go:71-98 | over every run no command is lost, doubled or reordered: those submitted are those proposed or forwarded, in this order, followed by those still queued |
| `PacemakerSends.SentAreAddressed` | pacemaker/roundrobin.go:80-188 | over every run each unicast message goes to another replica, and a new-view message of view v to v % N |
| `PacemakerSends.NextSyncSends` | pacemaker/roundrobin.go:108-136 | if the view v that OnNextSyncView ends in is another replica's, this one was reported connected and exactly one message goes out, to v % N, with v and genericQC; in a view of its own none does |
| `PacemakerSends.NextSyncStarts` | pacemaker/roundrobin.go:127-135 | in its own view a replica with a command records its own message and starts a beat exactly if that completes the quorum |
| `PacemakerSends.NextSyncClears` | pacemaker/roundrobin.go:136 | and of all other views exactly the records of later ones are left |
| `PacemakerSends.NewViewStarts` | pacemaker/roundrobin.go:191-253 | for all four outcomes of a new-view message, what is sent and started, the view after it, and whether the core considers the certificate |
| `PacemakerSends.QuorumProposes` | pacemaker/roundrobin.go:237-249 | the message that completes the quorum in the leader's own view starts a beat, and this beat proposes the first waiting command in this view |
| `PacemakerSends.QcFinishStarts` | pacemaker/roundrobin.go:315-330 | a finished certificate makes the next leader enter its view and start a beat that will propose its first command there, or a view change without one, and all others a view change |
| `PacemakerSends.BeatHandsOn` | pacemaker/roundrobin.go:80-98 | a beat forwards the first command to the leader v % N of the current view v, or proposes it if that is this replica, never both |
| `PacemakerSends.ProposeSends` | pacemaker/roundrobin.go:139-155 | one proposal goes to all with the block as it is, and with the view after the current one if the next leader is another replica that is not connected |
| `PacemakerSends.LowestIsKept` | pacemaker/roundrobin.go:269-302 | below the quorum every sender heard of is recorded once, with the one of all its messages whose certificate has the lowest view |
| `PacedRuns.PacedIsRun` | pacemaker/roundrobin.go:80-253 | every run of the replicas with their pacemakers is a run of the cores, call by call |
| `PacedRuns.DriveIsCalls` | pacemaker/roundrobin.go:80-253 | what a pacemaker handler does to its core is a proposal on the highest certificate, votes it counts itself, or a certificate it considers, and nothing else |
| `PacedRuns.PacedAgreement` | pacemaker/roundrobin.go:80-253 | so replicas driven by their pacemakers agree in every orderly run |
| `RoundRobin.RoundRobinPM.constructor` | pacemaker/roundrobin.go:39-55 | starts in view 0 with nothing recorded |
| `RoundRobin.RoundRobinPM.OnBeat` | pacemaker/roundrobin.go:80-98 | the command goes to the current leader, or this replica proposes on its highest certificate |
| `RoundRobin.RoundRobinPM.OnNextSyncView` | pacemaker/roundrobin.go:108-137 | the recursion reaches the least live view, acts once as its leader or follower, and clears older records |
| `RoundRobin.RoundRobinPM.OnProposeEvent` | pacemaker/roundrobin.go:139-155 | one dead next leader is skipped, in curView and in the proposal sent |
| `RoundRobin.RoundRobinPM.OnReceiveProposal` | pacemaker/roundrobin.go:157-188 | the recursion leaves curView, the proposal's view and all passed votes as in the closed form that VoteRouting is about |
| `RoundRobin.RoundRobinPM.PassOn` | pacemaker/roundrobin.go:177-187 | the vote is sent to the next leader or counted here |
| `RoundRobin.RoundRobinPM.OnReceiveNewView` | pacemaker/roundrobin.go:191-253 | old views are dropped; a newer certificate, a newer view and a completed quorum each have their own effect |
| `RoundRobin.RoundRobinPM.AddNewViewMsg` | pacemaker/roundrobin.go:269-302 | records the message and returns a view exactly when the quorum fires, of the message's own view number |
| `RoundRobin.RoundRobinPM.HighestOf` | pacemaker/roundrobin.go:284-290 | returns a recorded message of maximal view number |
| `RoundRobin.RoundRobinPM.ClearViews` | pacemaker/roundrobin.go:304-313 | exactly the records below curView go |
| `RoundRobin.RoundRobinPM.OnQcFinishEvent` | pacemaker/roundrobin.go:315-330 | curView catches up with the certificate, and the next leader enters its view |
| `RoundRobin.RoundRobinPM.UpdateQcHigh` | pacemaker/roundrobin.go:332-336 | curView becomes the larger of the two |
| `Lru.Inclusion` | common/db/memorydb/lru_cache.go:47-109 | for any common sequence of operations the larger cache holds every key of the smaller with the same value, and the smaller recency list is a subsequence of the larger |
| `Lru.StepIncluded` | common/db/memorydb/lru_cache.go:47-109 | each operation keeps that relation, hit or miss on either side |
| `Lru.HitIsLatestPut` | common/db/memorydb/lru_cache.go:47-94 | after any operations map and list hold the same keys once, within capacity, and a hit is the latest value put and not deleted |
| `Lru.StepValid` | common/db/memorydb/lru_cache.go:47-109 | every operation keeps map and list in step and within capacity |
| `Lru.RetrievableUntilCrowdedOut` | common/db/memorydb/lru_cache.go:47-94 | after any history a key stored or hit is found with its latest value until deleted or until capacity other keys have been stored or hit |
| `Lru.Retention` | common/db/memorydb/lru_cache.go:50-94 | only keys stored or hit since can be ahead of a key that was at the front |
| `Lru.IdealWhileKeysFit` | consensus/consensus.go:78 | while no more than capacity distinct keys are ever put the cache is exactly the map |
| `MemoryDb.LRUCache.constructor` | common/db/memorydb/lru_cache.go:33-39 | starts empty with the given capacity |
| `MemoryDb.LRUCache.Get` | common/db/memorydb/lru_cache.go:47-56 | a hit returns the value and moves the key to the front, a miss changes nothing |
| `MemoryDb.LRUCache.Put` | common/db/memorydb/lru_cache.go:64-83 | the key is in front with the new value, and a new key over capacity evicts the last |
| `MemoryDb.LRUCache.Evict` | common/db/memorydb/lru_cache.go:86-94 | the last key goes from both list and map, or nothing from an empty cache |
| `MemoryDb.LRUCache.Delete` | common/db/memorydb/lru_cache.go:99-109 | the key goes from both, with an error exactly if it was not there |
| `LevelKeys.RoundTripIff` | common/db/leveldb/provider.go:144-150 | retrieveAppKey undoes constructLevelKey for a key if and only if the name has no zero byte |
| `LevelKeys.ApartIff` | common/db/leveldb/provider.go:144-146 | two names can never produce one physical key if and only if neither followed by the separator begins the other's |
| `LevelKeys.SeparatorFreeNamesApart` | common/db/leveldb/provider.go:144-146 | different names without a zero byte are apart |
| `LevelKeys.LogicalDatabasesAreSeparate` | common/db/leveldb/provider.go:53-86 | whatever is written through one handle, another's map does not change |
| `LevelKeys.WrittenShows` | common/db/leveldb/provider.go:53-86 | a write shows under its own handle as in a private map |
| `LevelKeys.WrittenIsPrivate` | common/db/leveldb/provider.go:53-86 | and under no handle whose name is apart |
| `LevelKeys.RangeIsDatabase` | common/db/leveldb/provider.go:91-100 | the iterator's range holds exactly this database's keys within the bounds, all from the start for a nil end, for every name |
| `LevelKeys.IterationIsSortedDatabase` | common/db/leveldb/provider.go:88-142 | iterating it yields exactly the application keys of this database within the bounds, in application-key order |
| `Provider.DBHandle.Get` | common/db/leveldb/provider.go:54-56 | looks the key up in this handle's database |
| `Provider.DBHandle.Put` | common/db/leveldb/provider.go:59-61 | writes that one key of this handle's database |
| `Provider.DBHandle.Delete` | common/db/leveldb/provider.go:64-66 | removes that one key of this handle's database |
| `Provider.DBHandle.LevelBatch` | common/db/leveldb/provider.go:73-81 | the loop builds a physical batch with the effect of the update batch, in whatever order it visits the keys |
| `Provider.DBHandle.WriteBatch` | common/db/leveldb/provider.go:69-86 | writes exactly the batch's puts and deletes to this handle's database |
| `Provider.DBHandle.GetIterator` | common/db/leveldb/provider.go:91-100 | the physical bounds that RangeIsDatabase is about |
| `Provider.Provider.GetDBHandle` | common/db/leveldb/provider.go:36-45 | one handle per name, for that name, the same one every time |

## Left out

- Agreement.AgreementTheorem: for orderly runs, because agreement is false of the code without; that a run is orderly is sufficient for agreement, and exact for lawful ballots (OrderlyRuns.OrderlyIff), but a disorderly run need not disagree.
- Agreement.LockSafetyInRuns: for orderly runs, for the same reason.
- Agreement.OneCertificatePerHeight: for orderly runs, and TwoCertificates.TwoCertificatesAtOneHeight shows that it fails without.
- TallyRuns.TallyConservation: assumes that the block is stored at most once, since a second proposal with the same hash overwrites the tally; SecondStoreKeepsIff says exactly when nothing is lost by that, and RepeatLosesVote has a run that loses a vote.
- TallyRuns.CertsNeverReplaced: assumes the same.
- Completion.QcFinishOnce: assumes the same, and that the block does not arrive with a full certificate of its own.
- HotStuffBase.GuardedRunsFinishVerified: assumes real signatures in the tallies that proposals arrive with, which no handler checks; GuardedFinishIff has the exact condition without that assumption and GuardIsNotEnough the input that breaks it.
- RoundRobin.RoundRobinPM.AddNewViewMsg: which message of maximal view number is returned depends on map order, and all of them have the message's own view; no claim is made about the best certificate.
- LoopRuns.CommandsAreDecided: existence of good runs, not liveness under timeouts.
- TurnRuns.TurnsAreDecided: existence of good runs, not liveness under timeouts; no two leaders in a row are down, because OnProposeEvent skips one at most and handleVote drops the votes of replicas that skip more; and no empty hash, because handleVote drops a vote for one.
- TwoCertificates.TwoCertificatesAtOneHeight: for blocks of height 1 that justify genesis; that suffices to refute one certificate per height.
- PacedRuns.PacedAgreement: for orderly runs, like AgreementTheorem.
- Agreement.SameHeightSameCommands: for orderly runs, for the same reason.
- Interleaving inside a handler, locks, channel blocking, the capacity of the submit channel, timers and their effect on liveness.
- Machine integers: heights and views are unbounded, except in the hash and in the unsigned comparison of VerifyQuorumCert.
- Nil pointers: genericQC, lockedQC and execQC are never nil after the constructor, so their nil branches are not modelled; a missing justify is an error result where OnReceiveProposal would dereference it.
- Sharing of one certificate object by a block and a replica field, and of one block by cache and network message.
- Failing sends and signing errors.
- The LRU list's element pointers, and Keys, Len, EnlargeCapacity and Close.
- OnNewView, Submit, handleProposal, handleViewChange, handleForward and the dispatch loop: they only pass messages on.
- The write-ahead log, connections, transport, commands, signature arithmetic, generated message code and the LevelDB wrapper.
