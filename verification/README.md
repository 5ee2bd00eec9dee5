# A verified model of the consensus core

This project models, in Dafny, the node of a two-path Byzantine consensus system: an optimistic
two-chain path in the style of Jolteon, and a pessimistic path made of a fallback chain and a
multi-valued agreement (SMVBA) with a threshold coin. Two small services it rests on, the store actor
and the payload maker, and the block synchronizer are modelled too. `dafny verify dfyconfig.toml`
checks the whole project.

## How the model is laid out

State that the source updates in place is a class (`Core`, `SmvbaCore`, `Fallback`, `QCMaker`,
`Aggregator`, `StoreActor`, `Task`, `Runner`, `EpochLoop`). Every method of such a class is tied to a
function of the old state, and the statements about whole runs are proved about those functions. The
classes also keep what one node can promise by itself: `Core` its height invariant and that its
collectors weigh exactly their voters, below a quorum, `SmvbaCore` the
discipline of coins and halts, `EpochLoop` the kinds it parks.
Every lemma carries `{:induction false}`: no proof uses an induction that is not written out.

| files | content |
|---|---|
| Committee, Messages, Aggregator, Leader | stake arithmetic and thresholds, blocks, votes and certificates, vote collection, the leader window |
| OptNode, OptEffects, Core | one node on the optimistic path: the handlers as functions, what they must do, the class |
| OptProtocol, OptSafety, OptLogs | all nodes together with a faulty set: certificates, one chain, agreement, commit logs |
| OptProgress | what runs must lead to: certificates from quorums of votes, commits from three blocks in a row |
| OptPremises, SmvbaPremises | what goes wrong when a stated hypothesis is dropped |
| CommitSites | the three commit sites in any interleaving |
| SmvbaNode, SmvbaEffects, SmvbaCore | one node in the agreement: the handlers as functions, what they must do, the class |
| SmvbaProtocol, SmvbaHistory, SmvbaPath | all nodes together: coins and halts, what messages tell about the run before them, the way from locks to halts |
| Fallback | the fallback chain of a node |
| Synchronizer, Store, Payload, Epochs | suspended blocks, waiting reads, payload packing, the epoch switch |

In `OptProtocol` and `SmvbaProtocol` a run is a sequence of worlds linked by events. Correct nodes run
the handlers; faulty authorities send anything that needs no correct node's signature; every message may
be delivered at any time, in any order and any number of times. Every signature of a correct node is
recorded when it is made.

### Hypotheses

They are written as predicates and appear in the statements that need them; the last two are built into
the states and events of the model.

- Signatures are ideal, digests are terms and so collision-free, and the coin of a slot (height, round)
  is one fixed committee member (`OptProtocol.Known`, `Messages.Digest`, `SmvbaNode.Rules`). A digest
  covers exactly the fields the source hashes: a block's digest leaves out its round and all of its
  certificate but the hash.
- Faulty stake is below `2 * quorum - total` (`Committees.FewFaults`); `ThresholdFacts` shows that this is
  "at most f" when the total is 3f + 1. In the agreement fewer faulty members than the coin threshold
  suffice.
- Certificates used on the optimistic path, and the votes of its collectors, have the optimistic tag and
  the block's epoch, and a block that is looped back is of the node's epoch (`OptSafety.Premise`). The code
  checks none of these; `AgreementNeedsTags` gives a run with two different commits at one height in which
  only the tag of two certificates is amiss.
- Proposals carry the optimistic tag and the fallback route carries others (`OptLogs.TagPremise`), needed
  for the shape of the logs but not for agreement; `TagsKeepAncestors` gives a run that breaks it once and
  stops a correct node for want of an ancestor.
- Dones are signed by correct members and by fewer other keys than the coin threshold
  (`SmvbaProtocol.DonesFrom`), needed only for the statement about the first share. The code does not check
  the author of a done against the committee, only the share beside it, and binds the two neither by author
  nor by slot; `CoinAfterFinishesExactly` shows that the bound is exact.
- Inside the agreement all messages are of the node's epoch, verification is on (`exp == 1`) and every
  authority has stake one, as the code assumes where it compares set sizes.
- Blocks that the agreement outputs carry the optimistic or the pessimistic tag.

### Where comments and code disagree

The model follows the code.

- The threshold is announced as N - f and computed as 2f + 1; they agree exactly when N mod 3 is 1.
- A collector is said to make a certificate only once; for totals 2, 3 and 6 it can make two.
- Block processing says that all ancestors of a delivered block are present; that rests on the tag
  hypothesis above.
- The equality of certificates compares the epoch with itself, so a certificate of any epoch, round or tag
  can equal the genesis certificate.

## Model

| member | source | states |
|---|---|---|
| `Committees.WeightUnion` | consensus/src/config.rs:101-114 | Inclusion-exclusion for the stake of two sets of authorities. |
| `Committees.WeightAtMostTotal` | consensus/src/config.rs:101-114 | No set of names, members or not, outweighs the committee. |
| `Committees.QuorumsShareACorrectName` | consensus/src/config.rs:109-114 | Two quorums share an authority that is not faulty, for every stake assignment. |
| `Committees.ThresholdFacts` | consensus/src/config.rs:109-128 | The quorum is N - f iff N mod 3 = 1; two disjoint quorums fit iff N is 2, 3 or 6; for N = 3f + 1 the fault bound reads "at most f". |
| `Messages.VerifyQC` | consensus/src/messages.rs:929-951 | The verification loop accepts exactly the certificates signed by distinct stake-holders of quorum weight over its own digest; each refusal names a reason that holds. |
| `Aggregation.CertificatesSpendStake` | consensus/src/aggregator.rs:121-144 | Each certificate of a collector uses up a quorum of stake that can never vote there again. |
| `Aggregation.UnitBallots` | consensus/src/aggregator.rs:121-144 | With unit stakes, k members voting once give k divided by the quorum certificates, and the remainder stays in the weight. |
| `Aggregation.OneCertificatePerMaker` | consensus/src/aggregator.rs:121-144 | For every stake assignment and vote sequence a collector makes at most one certificate unless the total is 2, 3 or 6. |
| `Aggregation.OnceOnlyExactly` | consensus/src/aggregator.rs:121-144 | With unit stakes the once-only promise holds for all vote sequences iff the total is not 2, 3 or 6. |
| `Aggregation.FeedRecords` | consensus/src/aggregator.rs:121-144 | After verified votes a collector holds signatures of accepted votes only, by distinct authorities with stake. |
| `Aggregation.AggregateVerifies` | consensus/src/aggregator.rs:37-46 | A certificate made from verified votes has distinct stake-holding authors of quorum weight, and passes verification iff all recorded votes were signed over the completing vote's digest. |
| `Aggregation.QCMaker.Append` | consensus/src/aggregator.rs:121-144 | The in-place append changes weight, votes and used as the collector function says, error on a repeated author included. |
| `Aggregation.Aggregator.AddHsVote` | consensus/src/aggregator.rs:37-46 | The vote goes to the collector of its height and hash, created if missing; no other collector changes. |
| `Aggregation.Aggregator.CleanupHsVote` | consensus/src/aggregator.rs:89-91 | Exactly the collectors above the height stay, with their contents. |
| `Leaders.GetLeaders` | consensus/src/leader.rs:44-53 | Entry i is the name i places after the first leader; for a window not wider than the committee it is the name whose leader index is i; every entry has a leader index, so a vote sent to it is not refused. |
| `Leaders.WindowEntry` | consensus/src/leader.rs:44-61 | The name at place i of the window is the one whose index as leader is i, and conversely. |
| `Leaders.WindowReadingsAgree` | consensus/src/leader.rs:44-61 | The window list and the index lookup agree at every height, name and place iff the window is not wider than the committee. |
| `Leaders.WindowSlides` | consensus/src/leader.rs:55-61 | Index i + 1 at a height is index i at the next. |
| `Leaders.FairRotation` | consensus/src/leader.rs:40-61 | Over any n consecutive heights each of the n authorities is in the window exactly `window` times. |
| `CoreNode.CollectWalk` | consensus/src/core.rs:345-381 | The commit loop ends on every store and collects exactly the blocks from the given one down to the last committed height or the first missing parent. |
| `CoreNode.Core.CommitBlock` | consensus/src/core.rs:543-551 | A commit above the mark moves the mark to the block, ends the log with it, and suspends the block at which the walk broke off, if it did. |
| `CoreNode.Core.FastPath` | consensus/src/core.rs:854-869 | The fast path commits the stored block that the certificate names, if it is above the mark: the mark moves to it and the log ends with it. |
| `CoreNode.Core.AdvanceTo` | consensus/src/core.rs:383-407 | A certificate at or above the node's height becomes the highest one, moves the node one above it and drops exactly the collectors up to the height left; a lower one changes nothing. |
| `CoreNode.Core.MakeOptVote` | consensus/src/core.rs:587-600 | A vote is made iff both rules hold, and only then does the voting register move, to the block's height. |
| `CoreNode.Core.TwoChain` | consensus/src/core.rs:532-561 | On consecutive heights the mark is past the grandparent afterwards, and moves to it, with the log ending there, if it was not; a vote leaves exactly under the voting rules and moves the register. |
| `CoreNode.Core.ProcessBlock` | consensus/src/core.rs:487-585 | A block without a parent is suspended, one with both ancestors is stored and, unless the prepare phase fails, gets its grandparent committed and the node's vote exactly under the rules. |
| `CoreNode.Core.HandleProposal` | consensus/src/core.rs:444-484 | A proposal that is not of a leader or does not verify changes nothing, one of a later epoch is parked and ends the epoch; another moves the node above its certificate, and is kept for later or processed. |
| `CoreNode.Core.HandleVote` | consensus/src/core.rs:603-641 | A certificate comes out iff the vote is in time, for a height whose successor the node leads, verified, of a new author, and brings the voters for the block to a quorum; the node then stands one above, on a certificate of that block, with its turn in the window. |
| `CoreNode.Core.Propose` | consensus/src/core.rs:411-442 | A leader processes its own block over its highest certificate and votes for it exactly under the rules, which come down to not having voted at its height. |
| `CoreNode.Core.ParOut` | consensus/src/core.rs:1612-1648 | In time, an optimistic output invokes the fallback one height up; another is stored, and if above the mark committed with the log ending there; the epoch ends iff it is then pessimistic. |
| `CoreNode.Core.NextEpoch` | consensus/src/core.rs:189-220 | The optimistic fields are reset and the store is kept. |
| `OptEffects.ProcessLaws` | consensus/src/core.rs:487-600 | Everything that block processing must do: suspension, storing, the commit of the grandparent of three blocks on consecutive heights, the vote exactly under the rules. |
| `OptEffects.ProposalEffect` | consensus/src/core.rs:444-484 | What becomes of every proposal: dropped, epoch end, stop on an unknown author, or certificate followed by the payload's verdict. |
| `OptEffects.VoteEffect` | consensus/src/core.rs:603-641 | A vote not counted changes nothing, a counted one joins the voters of its block, and the one that completes a quorum moves the node with a certificate by exactly those voters, valid iff they all signed the same. |
| `OptEffects.ParOutEffect` | consensus/src/core.rs:1612-1648 | Exactly when an agreement output is stored, committed and ends the epoch. |
| `OptProtocol.ValidQCCertifies` | consensus/src/messages.rs:929-951 | A verified optimistic certificate means that a quorum, apart from faulty authorities, signed a vote for its digest. |
| `OptProtocol.CertifiedUnique` | consensus/src/core.rs:587-600 | Two certified digests of one epoch and height are equal. |
| `OptProtocol.CertifiedBlock` | consensus/src/core.rs:587-600 | A certified digest is a block of that epoch and height whose parent is certified one height below, or genesis at height one. |
| `OptProtocol.OneChain` | consensus/src/core.rs:587-600 | All certified blocks of an epoch lie on one chain with one block per height. |
| `OptSafety.WalkCertified` | consensus/src/core.rs:345-381 | Committing a certified block hands out certified blocks only, also when the walk breaks off. |
| `OptSafety.ProcessOk` | consensus/src/core.rs:487-600 | Block processing keeps the node's invariant, and a vote leaves only above the voting register for a block whose parent is certified one below. |
| `OptSafety.SigningOk` | consensus/src/core.rs:587-600 | One more vote under the voting rules keeps all votes sound and one per height. |
| `OptSafety.Preserved` | consensus/src/core.rs:444-641 | Every enabled event keeps the invariant of the whole system. |
| `OptSafety.RunInv` | consensus/src/core.rs:1687-1735 | The invariant holds in every world of every run. |
| `OptSafety.Agreement` | consensus/src/core.rs:487-600 | Two correct nodes that have committed blocks of one epoch and height, at whatever times, by the two-chain rule or the fast path, have committed the same block. |
| `OptSafety.CertificatesOnOneChain` | consensus/src/messages.rs:929-966 | Two verified optimistic certificates of one epoch certify the same digest at equal heights, and otherwise the lower one's chain is the prefix of the other's. |
| `OptSafety.HeightInvariant` | consensus/src/core.rs:383-442 | In every world a node stands one above its highest certificate and has not voted above its height, and its own proposal meets the voting rules iff it has not voted at its height. |
| `OptSafety.VotesRise` | consensus/src/core.rs:556-600 | The heights a node votes for in an epoch strictly increase. |
| `OptLogs.WalkIsChain` | consensus/src/core.rs:345-381 | The walk from a certified block never breaks off, and reversed it is the part of the block's chain above the mark. |
| `OptLogs.AncestorsPresent` | consensus/src/synchronizer.rs:155-168 | Once the parent of a processed block is stored its grandparent is found, certified if above genesis. |
| `OptLogs.ExtendedLog` | consensus/src/core.rs:543-551 | The log with a new walk appended is the whole chain of the committed block. |
| `OptLogs.LogPreserved` | consensus/src/core.rs:500-551 | Every event keeps the optimistic part of the store closed under parents and every log equal to a certified chain. |
| `OptLogs.LogsAreChains` | consensus/src/core.rs:345-381 | In every world of every run a log is exactly the path from the epoch's first block to the last committed one, its length is the mark, and no node misses an ancestor. |
| `OptLogs.LogsAreComparable` | consensus/src/core.rs:487-600 | The logs of two correct nodes for an epoch, at whatever times, are prefixes of one another. |
| `OptProgress.TwoChainCommits` | consensus/src/core.rs:487-551 | Over runs, a processed block whose parent and grandparent are stored on the two heights below leaves the mark at least two below it, and the log entry of the grandparent's height is the grandparent. |
| `OptProgress.QuorumAdvances` | consensus/src/core.rs:603-641 | Over runs, verified votes of a quorum for one block delivered within an epoch to a leader of the next height put it above that height, whatever else happens in between. |
| `OptProgress.QuorumCertifies` | consensus/src/core.rs:603-641 | One height up it stands on a certificate of that block, and on one that verifies if votes for a block agree on what they sign. |
| `OptProgress.OwnProposalVerifies` | consensus/src/core.rs:297-343 | In every world the block a node would propose passes verification at every node, carries the payload and stands right above the node's highest certificate. |
| `OptProgress.RouteEffect` | consensus/src/core.rs:757-763 | The fallback route stores a block and votes for it under the pessimistic tag iff it is in time. |
| `OptPremises.AncestorMissingExactly` | consensus/src/synchronizer.rs:155-168 | Block processing misses an ancestor iff the parent is stored without its own parent. |
| `OptPremises.FallbackBlockOrphansChild` | consensus/src/core.rs:757-763 | In any world where the fallback route brings a node an optimistic block whose parent it lacks, a leader's certified child of it stops the node for want of an ancestor, with every hypothesis on certificates and epochs met. |
| `OptPremises.TagsKeepAncestors` | consensus/src/core.rs:757-763 | A whole run from boot, for every quorum without the node and every faulty leader of the first three heights, that ends so and meets all hypotheses but the one on routes. |
| `OptPremises.FallbackCertificatesConflict` | consensus/src/core.rs:689-695 | In every system whose correct authorities weigh a quorum some run certifies two different blocks of one height with the pessimistic tag; verification accepts both certificates and every voter holds both blocks. |
| `OptPremises.AgreementNeedsTags` | consensus/src/core.rs:854-869 | The run goes on to two fast-path commits after which two correct nodes have logged different blocks of one height; only the tags of the two certificates break a hypothesis. |
| `CommitSites.WalkShape` | consensus/src/core.rs:345-381 | A walk descends strictly along the hash chain and stays between the mark and the block's height. |
| `CommitSites.ActSound` | consensus/src/core.rs:532-551 | Each act at a commit site, the two-chain rule with its consecutive-height test included, keeps the log free of repeats and either commits nothing or raises the mark. |
| `CommitSites.CommittedOnce` | consensus/src/core.rs:345-381 | Over all three commit sites and every interleaving in an epoch no block is committed twice and every commit strictly raises the mark, if no stored parent stands above its child. |
| `CommitSites.DisorderRepeats` | consensus/src/core.rs:854-869 | Whenever a stored parent does stand above its child, two fast-path commits by any certificates that name them commit a block twice. |
| `SmvbaCoreNode.SmvbaCore.Update` | consensus/src/core.rs:222-234 | Flags of the slot are down and its tallies empty, all else stays. |
| `SmvbaCoreNode.SmvbaCore.Clean` | consensus/src/core.rs:241-260 | Everything up to the height is dropped except the coins and the halted heights, so that coins and outputs stay unique. |
| `SmvbaCoreNode.SmvbaCore.Start` | consensus/src/core.rs:1013-1036 | The first phase records the value under its height and round and proposes it. |
| `SmvbaCoreNode.SmvbaCore.OnPropose` | consensus/src/core.rs:1045-1122 | A proposal of a member in time is locked in the LOCK phase and gets the node's vote for its slot and phase up to that phase, and no other does. |
| `SmvbaCoreNode.SmvbaCore.OnVote` | consensus/src/core.rs:1125-1173 | A vote joins the collector of its slot and phase; exactly the quorum sends the recorded value in the LOCK phase after INIT-phase votes and its finish after LOCK-phase votes, or crashes without a recorded value. |
| `SmvbaCoreNode.SmvbaCore.OnFinish` | consensus/src/core.rs:1175-1261 | A finish is filed by proposer with its phase; done and share leave iff it brings the proposers to a quorum and the flag was down. |
| `SmvbaCoreNode.SmvbaCore.TakeDone` | consensus/src/core.rs:1406-1447 | A done is counted whatever its author; done and share leave iff the count is the coin threshold and the flag was down. |
| `SmvbaCoreNode.SmvbaCore.OnDoneAndShare` | consensus/src/core.rs:1217-1222 | The whole message: refused without any effect if its share is not of a member, else the done is counted and the share taken. |
| `SmvbaCoreNode.SmvbaCore.OnShare` | consensus/src/core.rs:1449-1564 | When the coin becomes known, which takes the threshold of distinct members, exactly one message leaves: a halt with the leader's finish iff one is filed, else a prevote with the leader's lock iff one is filed. |
| `SmvbaCoreNode.SmvbaCore.OnPrevote` | consensus/src/core.rs:1263-1346 | With both flags down a prevote with a lock is answered by one Yes vote on that value with the node's SPB vote for it, one without is counted, and exactly the quorum of those by one No vote. |
| `SmvbaCoreNode.SmvbaCore.OnMVote` | consensus/src/core.rs:1348-1404 | The vote handler as the state function of YesEffect and NoEffect; a No vote sends nothing. |
| `SmvbaCoreNode.SmvbaCore.OnHalt` | consensus/src/core.rs:1566-1590 | A halt with a finish of the coin leader takes effect once per height and hands out that leader's block. |
| `SmvbaEffects.VoteEffect` | consensus/src/core.rs:1125-1173 | The law of OnVote on states: which votes count, which complete, and which message of the next phase follows. |
| `SmvbaEffects.PrevoteEffect` | consensus/src/core.rs:1263-1346 | The law of OnPrevote on states, flags and tallies included. |
| `SmvbaEffects.ShareEffect` | consensus/src/core.rs:1449-1564 | The answer to a coin in terms of the filed finishes and locks; without a new coin nothing leaves. |
| `SmvbaEffects.YesEffect` | consensus/src/core.rs:1369-1392 | A Yes vote that completes its collector sends a halt with its value and a proof one phase on; another of a new author opens the next round iff the authors reach a quorum. |
| `SmvbaEffects.NoEffect` | consensus/src/core.rs:1394-1403 | A No vote counts its author and opens the next round iff the authors reach a quorum. |
| `SmvbaEffects.DoneEffect` | consensus/src/core.rs:1217-1222 | Exactly which dones count, when done and share leave, and that the share beside them is collected. |
| `SmvbaEffects.FinishEffect` | consensus/src/core.rs:1175-1215 | Exactly which finishes are filed and when done and share leave. |
| `SmvbaEffects.HaltEffect` | consensus/src/core.rs:1566-1590 | Exactly which halts take effect, and that they output their value's block. |
| `SmvbaEffects.ProposeEffect` | consensus/src/core.rs:1045-1122 | Exactly which proposals are locked and voted for. |
| `SmvbaEffects.CleanEffect` | consensus/src/core.rs:241-260 | Cleaning drops exactly the entries up to the height and keeps coins and halts. |
| `SmvbaNode.ElectedAtThreshold` | consensus/src/aggregator.rs:209-251 | The coin comes out exactly with the share that completes the threshold of distinct members. |
| `SmvbaProtocol.RunInv` | consensus/src/core.rs:1175-1590 | In every reachable state collectors hold shares that were sent, coins are the slot's coin and follow a correct share, dones travel with shares, and outputs are unique per height. |
| `SmvbaProtocol.HaltAgreement` | consensus/src/core.rs:1566-1590 | A node outputs at most once per height, a block of the slot's leader; two correct nodes that output in one slot, at whatever times, output blocks of the same proposer. |
| `SmvbaProtocol.OneCoinMessage` | consensus/src/core.rs:1449-1564 | Over a whole run, of all prevotes and halts that a node sends for a slot on delivered shares there is only one. |
| `SmvbaProtocol.OnePreVote` | consensus/src/core.rs:1475-1561 | Two prevotes of one node for one slot that were ever sent are equal, and a node that sent one never answers that coin with a halt. |
| `SmvbaHistory.PhasesInOrder` | consensus/src/core.rs:1125-1173 | Over runs, a finish follows LOCK-phase votes of a quorum of distinct members at its proposer, and a LOCK-phase proposal follows INIT-phase votes of one. |
| `SmvbaHistory.QuorumSendsNext` | consensus/src/core.rs:1142-1170 | Conversely a node that has collected a quorum for one of these phases has sent the message of the next, unless it crashed. |
| `SmvbaHistory.VotesFollowPrevotes` | consensus/src/core.rs:1263-1346 | Over runs, a No vote follows No prevotes of a quorum of distinct members at its sender, a Yes vote a prevote with its value, on which it holds its sender's SPB vote. |
| `SmvbaHistory.LockPrevotesYes` | consensus/src/core.rs:1525-1548 | Over runs, a node that took a LOCK-phase proposal of the slot's leader and has not cleaned it up answers the coin, without a finish of the leader, by a Yes prevote with such a value. |
| `SmvbaProtocol.FirstShare` | consensus/src/core.rs:1224-1261 | A share of a correct node in a run is preceded by a quorum of distinct finishes at some correct node, however long the chain of amplifications, as long as fewer other keys than the coin threshold sign dones. |
| `SmvbaProtocol.Amplified` | consensus/src/core.rs:1406-1447 | Amplification needs the share of some correct node before it, under the same bound. |
| `SmvbaProtocol.CoinAfterFinishes` | consensus/src/core.rs:1449-1500 | A leader is fixed at a node only after some correct node has held a quorum of distinct finishes for that slot, under the same bound. |
| `SmvbaPremises.AnyKeysAmplify` | consensus/src/messages.rs:535-539 | Dones of keys outside with one earlier share attached to all of them: fewer than the coin threshold leave a node waiting, the threshold makes it release its share. |
| `SmvbaPremises.StrangersFixCoin` | consensus/src/messages.rs:535-539 | In every setting, faulty members or not, coin-threshold many keys outside fix the leader of a slot for which no node ever holds a finish; the share they attach is one that finishes of an earlier slot released. |
| `SmvbaPremises.CoinAfterFinishesExactly` | consensus/src/core.rs:1406-1447 | When dones may be signed by correct members and a given set of other keys, coins follow finishes in all runs iff those keys are fewer than the coin threshold. |
| `SmvbaPath.RunPath` | consensus/src/core.rs:1086-1092 | In runs of code-following nodes every lock is a LOCK-phase value filed under its own author, height and round, and every message fits its slot and the slot's leader. |
| `SmvbaPath.YesVotesHalt` | consensus/src/core.rs:1369-1392 | A node that has taken Yes votes of a quorum of distinct authors for a slot has sent a halt with a FIN-phase proof for it. |
| `SmvbaPath.HaltsTakeEffect` | consensus/src/messages.rs:860-884 | Every halt sent passes the FIN and coin-leader tests at every node that knows the coin, and takes effect there unless the height is past or has halted. |
| `FallbackChain.RunCounts` | consensus/src/core.rs:657-724 | Over every run certificates of a slot have spent a quorum of stake each, and each block answers the invocation of its height or a certificate of the round before. |
| `FallbackChain.OneBlockPerRound` | consensus/src/core.rs:657-724 | For totals other than 2, 3 and 6 a slot gets at most one certificate and a node broadcasts at most one block per height and round other than one; in round one at most one iff the height was not opened both by an invocation and by a certificate of round zero. |
| `FallbackChain.ChainWellFormed` | consensus/src/core.rs:697-724 | Rounds stay within 1 and the length, later rounds carry the node's own certificate of the round before, and a prepare starts only from a certificate of the last round. |
| `FallbackChain.StepAdds` | consensus/src/core.rs:657-724 | An event adds a block of round r + 1 iff it completes the collector of round r < length for a block of the node, or for round one is the first invocation, with the agreement of the height not invoked; then it adds one. |
| `FallbackChain.LateVoteIgnored` | consensus/src/core.rs:698-704 | A vote that is late, of an earlier epoch or unverified changes nothing. |
| `FallbackChain.StepCarries` | consensus/src/core.rs:705-721 | The added block carries the certificate of the completing vote's block with all signatures collected; a prepare starts iff the collector of the last round completes for a block of the node, from that certificate, which is kept as the slot's highest. |
| `FallbackChain.RoundCount` | consensus/src/core.rs:657-724 | Over every run and committee the blocks of a height and round number exactly the certificates that led to them, plus in round one the invocation. |
| `FallbackChain.QuorumExtends` | consensus/src/core.rs:706-715 | For every committee and every set of voters of quorum weight there is a run in which votes for a block of the node bring the block of the next round, or a prepare in the last one; for round zero, an optimistic block, a second one of round one. |
| `FallbackChain.Fallback.OnInvoke` | consensus/src/core.rs:657-666 | The first invocation of a height broadcasts a round-one block over the given certificate unless the agreement is invoked; later ones do nothing. |
| `FallbackChain.Fallback.BroadcastPropose` | consensus/src/core.rs:668-687 | A block is broadcast unless the agreement of its height has been invoked. |
| `FallbackChain.Fallback.OnVote` | consensus/src/core.rs:697-724 | A completed certificate of the node's block leads to the block of the next round, in the last round to a prepare, each from that certificate; nothing else is broadcast or prepared. |
| `Stores.StoreRefines` | store/src/lib.rs:29-60 | For every command stream: the map holds the latest writes, no key is both stored and waited for, every read and wait gets exactly the answer the stream determines, once, and waits of a key are answered in order. |
| `Stores.AnswerSnoc` | store/src/lib.rs:29-60 | A later command changes an answer only by giving a pending wait its first write. |
| `Stores.StoreActor.Handle` | store/src/lib.rs:29-60 | One command of the loop, with the inner loop that answers the waiting senders in order. |
| `Synchronizer.StepOk` | consensus/src/synchronizer.rs:41-108 | Each event of the task keeps the invariant below. |
| `Synchronizer.NeverLost` | consensus/src/synchronizer.rs:41-108 | In every reachable state a pending block has exactly one waiter, whose parent is requested or stored; every block handed over waits or was looped back; a suspension is looped back at most once and only after its parent is stored. |
| `Synchronizer.Task.OnBlock` | consensus/src/synchronizer.rs:50-67 | A new block is suspended and its parent requested once. |
| `Synchronizer.Task.OnWaiter` | consensus/src/synchronizer.rs:68-79 | A fired waiter clears its entries and loops the block back. |
| `Synchronizer.Task.OnTimer` | consensus/src/synchronizer.rs:80-94 | Exactly the requests older than the delay are repeated, each once. |
| `Payloads.PayloadsConserve` | mempool/src/payload.rs:43-86 | For every interleaving the emitted payloads followed by the buffer are the received transactions in order, and the size register is the buffer's byte count. |
| `Payloads.LimitKeptExactly` | mempool/src/core.rs:161-165 | No payload or buffer is ever above the limit iff no transaction is; then no payload sent for want of room is empty. |
| `Payloads.DeliveredConserves` | mempool/src/payload.rs:121-133 | With size-zero replies withheld nothing is lost as long as no transaction is empty. |
| `Payloads.RequestKeepsExactly` | mempool/src/payload.rs:121-133 | A request keeps the transactions iff the buffer is empty or has bytes in it. |
| `Payloads.Runner.Make` | mempool/src/payload.rs:56-64 | The buffer is handed out and emptied. |
| `Payloads.Runner.Add` | mempool/src/payload.rs:43-54 | A transaction that does not fit first sends the buffer off. |
| `Payloads.Runner.Answer` | mempool/src/payload.rs:80-82 | A request empties the buffer; a reply of size zero is withheld. |
| `Epochs.DrainSends` | consensus/src/core.rs:1660-1683 | A drain that does not break off empties the queue and re-sends exactly that epoch's messages, each once, in order, to the right channel. |
| `Epochs.BreakUnreachable` | consensus/src/core.rs:1679 | In every reachable state only the three kinds that the parking handlers push are parked, at most one and only for later epochs, so the break is never reached. |
| `Epochs.EpochSwitch` | consensus/src/core.rs:1652-1685 | At every switch the loop counter equals the epoch field and rises by one, the queue is empty again, and the message that ended the epoch is re-sent once to its channel iff it is of the new epoch. |
| `Epochs.ParksExactly` | consensus/src/core.rs:447-451 | Exactly such a message is parked, a synchronized block as a proposal, and any other leaves the queue and the epoch alone. |
| `Epochs.EpochLoop.OnMessage` | consensus/src/core.rs:736-741 | The epoch ends iff a proposal or synchronized block is of a later epoch, or a fallback or agreement proposal is, in time and verified; exactly that message is parked. |
| `Epochs.EpochLoop.DrainQueue` | consensus/src/core.rs:1660-1683 | The drain loop, the break on an unexpected kind included, as the state function says. |
| `Epochs.EpochLoop.Advance` | consensus/src/core.rs:1652-1659 | The switch raises the epoch by one and leaves an empty queue. |

## Left out

- Integer widths: heights, rounds and epochs are unbounded, so neither overflow nor the underflow of `self.height - 2` in block processing is modelled.
- Timers, delays, network filters, channels and the mempool driver: the payload verdict of a block is a parameter of the event.
- CoreNode.Core.ProcessBlock: what the prepare and fallback phases do in the middle of it is a parameter, and handling the node's own vote is a separate event.
- SmvbaCoreNode.SmvbaCore.OnMVote: resets the flags of the next round; the proposal that opens that round is a separate event.
- SmvbaCoreNode.SmvbaCore.OnHalt: hands out the block; the payload test and the commit that follow are CoreNode.Core.ParOut's.
- Counting of prepares: a fast-path commit may happen at any time with any verified certificate that meets the hypotheses, which covers more runs than the code has.
- OptPremises.AgreementNeedsTags: the prepares that lead to its two fast-path commits are not part of the run, since they are not counted in the model.
- Nested calls: handling one's own vote, block or message is a separate event that may also come later or never.
- Optimistic logs hold what the two-chain rule and the fast path commit; the commit of an agreement output, which ends the epoch, is covered in CommitSites only.
- Signatures and proofs inside the agreement: a value or proof counts as verified when its author is a member; a proof is named by its height, round and phase. So finishes can be delivered without votes, which covers more runs than the code has; the failing runs of SmvbaPremises deliver only finishes with a first-phase proof, which the code accepts without signatures, for values their authors proposed.
- The start of the next agreement round: that a node broadcasts its value again is an event that may occur at any time.
- Agreement of the multi-valued agreement across rounds, or with a proposer that sends two values: the code does not decide it.
- One vote or one done per slot and one prepare per height: the code resets the flags when the height advances.
- OptSafety.Premise: that the parts about epochs are needed is not shown; those about tags are.
- Object identity of collectors: only Aggregator keeps them as objects; Core, Fallback and SmvbaCore hold them as values in maps.
- Cleanup of `fallback_high_qc`, which nothing reads on the modelled paths.
- The mempool's queues and its own synchronizer, sync requests of other nodes, commit notifications and mempool cleanup.
- Failing puts and reads of the store, deserialization errors, and persistence across restarts.
- Cryptography, serialization, RocksDB, the network layer, the client, node start-up, logging and the benchmark scripts.
- Liveness and timing.
