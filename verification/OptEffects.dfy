/** What the optimistic handlers must do: the commits, votes and certificates that follow from a
    node's state and a message, said without the handlers' own steps. */
module OptEffects {
  import opened Committees
  import opened Messages
  import opened Aggregation
  import opened OptNode

  // ----- commits -----

  /** The last entry of a log that is not empty. */
  ghost predicate EndsWith(log: seq<Digest>, d: Digest) {
    log != [] && log[|log| - 1] == d
  }

  lemma {:induction false} LogGrows(segments: seq<seq<Digest>>, walk: seq<Digest>)
    ensures Log(segments + [walk]) == Log(segments) + OldestFirst(walk)
    ensures walk != [] ==> EndsWith(Log(segments + [walk]), walk[0])
  {
    assert (segments + [walk])[..|segments|] == segments;
    if walk != [] {
      assert OldestFirst(walk)[|walk| - 1] == walk[0];
    }
  }

  /** A commit above the mark moves the mark to the block and ends the log with it. */
  lemma {:induction false} CommitEffect(s: Node, b: Block)
    requires Keyed(s.store) && b.height > s.lastCommitted
    ensures var t := Commit(s, b);
            && t.lastCommitted == b.height && EndsWith(Log(t.segments), b.Digest()) && Log(s.segments) <= Log(t.segments)
            && t.epoch == s.epoch && t.height == s.height && t.lastVoted == s.lastVoted && t.store == s.store && t.crash == s.crash
            && s.suspended <= t.suspended
            && (WalkBreak(s.store, b, s.lastCommitted).Some? ==> WalkBreak(s.store, b, s.lastCommitted).value in t.suspended)
  {
    LogGrows(s.segments, Walk(s.store, b, s.lastCommitted));
  }

  /** The fast path leaves the mark at least at the height of the block its certificate names. */
  lemma {:induction false} FastEffect(s: Node, qc: QC)
    requires Keyed(s.store)
    ensures var t := FastCommit(s, qc);
            && t.lastCommitted >= s.lastCommitted && Log(s.segments) <= Log(t.segments) && s.suspended <= t.suspended
            && t.epoch == s.epoch && t.height == s.height && t.lastVoted == s.lastVoted && t.store == s.store && t.crash == s.crash
            && (qc.hash in s.store ==> t.lastCommitted >= s.store[qc.hash].height)
            && (qc.hash in s.store && s.store[qc.hash].height > s.lastCommitted ==>
                  t.lastCommitted == s.store[qc.hash].height && EndsWith(Log(t.segments), s.store[qc.hash].Digest()))
            && (qc.hash !in s.store ==> t == s)
  {
    if qc.hash in s.store && s.store[qc.hash].height > s.lastCommitted {
      CommitEffect(s, s.store[qc.hash]);
    }
  }

  /** b0 is the grandparent of the block, and the three stand on consecutive heights. */
  ghost predicate Linked(store: map<Digest, Block>, b0: Block, block: Block) {
    var b1 := ParentOf(store, block);
    b1.Some? && ParentOf(store, b1.value) == Some(b0) && b0.height + 1 == b1.value.height && b1.value.height + 1 == block.height
  }

  predicate BothHere(store: map<Digest, Block>, block: Block) {
    var b1 := ParentOf(store, block);
    b1.Some? && ParentOf(store, b1.value).Some?
  }

  /** The mark is past the grandparent, and when it was not before and no fast commit came between, the
      log ends with the grandparent. */
  ghost predicate Committed(s: Node, t: Node, b0: Block, fast: bool) {
    && t.lastCommitted >= b0.height
    && (!fast && b0.height > s.lastCommitted ==> t.lastCommitted == b0.height && EndsWith(Log(t.segments), b0.Digest()))
  }

  lemma {:induction false} TwoChainEffect(s: Node, b0: Block, b1: Block, block: Block)
    requires Keyed(s.store) && b0.height + 1 == b1.height && b1.height + 1 == block.height
    ensures Committed(s, CommitAndVote(s, b0, b1, block).0, b0, false)
  {
    if b0.height > s.lastCommitted {
      CommitEffect(s, b0);
    }
  }

  /** A block whose parent and grandparent are stored right below it leaves its grandparent committed. */
  lemma {:induction false} ProcessCommits(s: Node, b0: Block, block: Block, prep: PrepareEffect)
    requires Keyed(s.store) && Linked(s.store, b0, block) && !prep.failed
    ensures Committed(s, ProcessOptBlock(s, block, prep).0, b0, prep.fast.Some?)
  {
    var t := StoreBlock(s, block);
    var b1 := ParentOf(s.store, block).value;
    if prep.fast.Some? {
      FastEffect(t, prep.fast.value);
      TwoChainEffect(FastCommit(t, prep.fast.value), b0, b1, block);
    } else {
      TwoChainEffect(t, b0, b1, block);
    }
  }

  // ----- storing and voting -----

  /** The rules under which a processed block gets the node's vote. */
  ghost predicate Votable(s: Node, block: Block, prep: PrepareEffect) {
    && BothHere(s.store, block) && !prep.failed
    && (block.qc.IsGenesis() || exists b0 :: Linked(s.store, b0, block))
    && block.height == s.height && s.lastVoted < block.height && block.qc.height + 1 == block.height
  }

  lemma {:induction false} VoteExactly(s: Node, b0: Block, b1: Block, block: Block)
    requires Keyed(s.store)
    ensures var (t, vote) := CommitAndVote(s, b0, b1, block);
            && (vote.Some? <==> && ((b0.height + 1 == b1.height && b1.height + 1 == block.height) || block.qc.IsGenesis())
                                && block.height == s.height && s.lastVoted < block.height && block.qc.height + 1 == block.height)
            && (vote.Some? ==> vote.value == NewVote(block, s.name, OPT) && t.lastVoted == block.height)
            && (vote.None? ==> t.lastVoted == s.lastVoted)
            && t.store == s.store && t.crash == s.crash && t.height == s.height && t.epoch == s.epoch && t.lastCommitted >= s.lastCommitted
            && s.suspended <= t.suspended
  {
  }

  /** Processing suspends a block without a parent, stops for want of a grandparent, and otherwise
      stores the block; it votes exactly under the rules. */
  lemma {:induction false} ProcessEffect(s: Node, block: Block, prep: PrepareEffect)
    requires Keyed(s.store)
    ensures var (t, vote) := ProcessOptBlock(s, block, prep);
            && (ParentOf(s.store, block).None? ==> t == s.(suspended := s.suspended + {block}))
            && (ParentOf(s.store, block).Some? && !BothHere(s.store, block) ==> t == s.(crash := MissingAncestor))
            && (BothHere(s.store, block) ==> t.store == s.store[block.Digest() := block] && t.crash == s.crash)
            && (vote.Some? <==> Votable(s, block, prep))
            && (vote.Some? ==> vote.value == NewVote(block, s.name, OPT) && t.lastVoted == block.height)
            && (vote.None? ==> t.lastVoted == s.lastVoted)
            && s.suspended <= t.suspended && t.lastCommitted >= s.lastCommitted && t.height == s.height && t.epoch == s.epoch
  {
    if BothHere(s.store, block) {
      var t := StoreBlock(s, block);
      var b1 := ParentOf(s.store, block).value;
      var b0 := ParentOf(s.store, b1).value;
      assert b0.height + 1 == b1.height && b1.height + 1 == block.height <==> Linked(s.store, b0, block);
      if prep.fast.Some? {
        FastEffect(t, prep.fast.value);
        assert FastCommit(t, prep.fast.value).name == s.name;
        VoteExactly(FastCommit(t, prep.fast.value), b0, b1, block);
      } else {
        VoteExactly(t, b0, b1, block);
      }
    }
  }

  /** Everything that processing a block must do. */
  ghost predicate ProcessTakes(s: Node, block: Block, prep: PrepareEffect, t: Node, vote: Option<HVote>) {
    && (ParentOf(s.store, block).None? ==> block in t.suspended)
    && (BothHere(s.store, block) ==> t.store == s.store[block.Digest() := block])
    && (forall b0 :: Linked(s.store, b0, block) && !prep.failed ==> Committed(s, t, b0, prep.fast.Some?))
    && (vote.Some? <==> Votable(s, block, prep))
    && (vote.Some? ==> vote.value == NewVote(block, s.name, OPT) && s.lastVoted < t.lastVoted == block.height)
    && (vote.None? ==> t.lastVoted == s.lastVoted)
    && t.height == s.height && t.epoch == s.epoch
  }

  lemma {:induction false} ProcessLaws(s: Node, block: Block, prep: PrepareEffect)
    requires Keyed(s.store)
    ensures var (t, vote) := ProcessOptBlock(s, block, prep); ProcessTakes(s, block, prep, t, vote)
  {
    ProcessEffect(s, block, prep);
    forall b0 | Linked(s.store, b0, block) && !prep.failed ensures Committed(s, ProcessOptBlock(s, block, prep).0, b0, prep.fast.Some?) {
      ProcessCommits(s, b0, block, prep);
    }
  }

  /** A verified proposal of the node's epoch by a leader of its height. */
  predicate Welcome(cfg: Config, s: Node, block: Block)
    requires cfg.Valid()
  {
    && block.epoch == s.epoch && block.author in cfg.elector.names && VerifiedBlock(cfg.c, block)
    && cfg.elector.IndexAsLeader(block.author, block.height).Some?
  }

  /** A proposal that is not welcome is dropped, ends the epoch if it is of a later one, and stops the
      node if its author is unknown. A welcome one moves the node above its certificate, whatever the
      payload's verdict, and is then dropped, kept for later or processed. */
  ghost predicate ProposalTakes(cfg: Config, s: Node, block: Block, status: PayloadStatus, prep: PrepareEffect, t: Node, vote: Option<HVote>)
    requires cfg.Valid()
  {
    && (block.epoch < s.epoch ==> t == s)
    && (block.epoch > s.epoch ==> t.epoch == s.epoch + 1 && t.height == 1 && t.store == s.store)
    && (block.epoch == s.epoch && block.author !in cfg.elector.names ==> t == s.(crash := UnknownLeader))
    && (block.epoch == s.epoch && block.author in cfg.elector.names && !Welcome(cfg, s, block) ==> t == s)
    && (!Welcome(cfg, s, block) || !status.Accept? ==> vote.None?)
    && (Welcome(cfg, s, block) ==> VerdictTakes(s, block, status, prep, t, vote))
  }

  ghost predicate VerdictTakes(s: Node, block: Block, status: PayloadStatus, prep: PrepareEffect, t: Node, vote: Option<HVote>) {
    && t.epoch == s.epoch && t.height == Max(s.height, block.qc.height + 1)
    && (status.Reject? ==> t.store == s.store && t.suspended == s.suspended)
    && (status.Wait? ==> t.store == s.store && t.suspended == s.suspended + {block})
    && (status.Accept? ==> ProcessTakes(ProcessQC(s, block.qc), block, prep, t, vote))
  }

  lemma {:induction false} VerdictEffect(s: Node, block: Block, status: PayloadStatus, prep: PrepareEffect)
    requires Keyed(s.store)
    ensures var (t, vote) := AfterPayload(ProcessQC(s, block.qc), block, status, prep);
            VerdictTakes(s, block, status, prep, t, vote) && (!status.Accept? ==> vote.None?)
  {
    ProcessLaws(ProcessQC(s, block.qc), block, prep);
  }

  lemma {:induction false} ProposalEffect(cfg: Config, s: Node, block: Block, status: PayloadStatus, prep: PrepareEffect)
    requires cfg.Valid() && Keyed(s.store)
    ensures var (t, vote) := HandleOptProposal(cfg, s, block, status, prep); ProposalTakes(cfg, s, block, status, prep, t, vote)
  {
    VerdictEffect(s, block, status, prep);
  }

  /** The output of the agreement: when it is in time and not an optimistic placeholder it is stored;
      above the mark it is committed, and then it ends the epoch if it is pessimistic. */
  lemma {:induction false} ParOutEffect(s: Node, block: Block)
    requires Keyed(s.store)
    ensures var (t, ended) := ProcessParOut(s, block);
            var takes := block.epoch >= s.epoch && s.height < block.height + 2 && block.tag != OPT;
            && (ended <==> takes && block.tag == PES && block.height > s.lastCommitted)
            && (takes ==> block.Digest() in t.store && t.store[block.Digest()] == block)
            && (takes && block.height > s.lastCommitted ==> t.lastCommitted == block.height && EndsWith(Log(t.segments), block.Digest()))
            && (takes && block.height <= s.lastCommitted ==> t == StoreBlock(s, block))
            && (!takes ==> t == s)
  {
    if block.height > s.lastCommitted {
      CommitEffect(StoreBlock(s, block), block);
    }
  }

  // ----- votes and certificates -----

  type Key = (nat, Digest)      // height and block digest

  /** A collector's contents: signatures of distinct authorities with stake, each by its author. */
  ghost predicate Tallied(c: Committee, m: Maker) {
    && m.used == Voters(m.votes) && DistinctVoters(m.votes) && PositiveVoters(c, m.votes)
    && forall i :: 0 <= i < |m.votes| ==> m.votes[i].1.signer == m.votes[i].0
  }

  /** The collectors of heights that the node has not left weigh exactly their voters, below a quorum. */
  ghost predicate Counting(c: Committee, makers: map<Key, Maker>, height: nat)
    requires c.HasStake()
  {
    forall k: Key :: k in makers ==>
      Tallied(c, makers[k]) && (k.0 >= height ==> makers[k].weight == c.Weight(makers[k].used) < c.QuorumThreshold())
  }

  function MakerOf(s: Node, k: Key): Maker {
    if k in s.makers then s.makers[k] else EMPTY_MAKER
  }

  /** Those whose votes for the block the node has taken. */
  function VotersFor(s: Node, k: Key): set<Name> {
    MakerOf(s, k).used
  }

  /** A vote that the node counts: in time, for a height whose successor it leads, verified. */
  predicate Taken(cfg: Config, s: Node, vote: HVote)
    requires cfg.Valid() && s.name in cfg.elector.names
  {
    vote.height >= s.height && vote.epoch >= s.epoch && cfg.elector.IndexAsLeader(s.name, vote.height + 1).Some? && vote.Verified(cfg.c)
  }

  /** A counted vote of a new author that brings the voters for the block to a quorum. */
  predicate CompletesQuorum(cfg: Config, s: Node, vote: HVote)
    requires cfg.Valid() && s.name in cfg.elector.names
  {
    var voters := VotersFor(s, (vote.height, vote.hash));
    Taken(cfg, s, vote) && Fills(cfg.c, voters, vote.author)
  }

  lemma {:induction false} TallySnoc(c: Committee, m: Maker, v: (Name, Signature), weight: nat)
    requires Tallied(c, m) && v.0 !in m.used && c.Stake(v.0) > 0 && v.1.signer == v.0
    ensures Tallied(c, Maker(weight, m.votes + [v], m.used + {v.0}))
  {
    VotersSnoc(m.votes, v);
    assert forall i :: 0 <= i < |m.votes| ==> m.votes[i].0 in Voters(m.votes);
  }

  /** Completion in terms of the voters alone. */
  predicate Fills(c: Committee, voters: set<Name>, author: Name)
    requires c.HasStake()
  {
    author !in voters && c.Weight(voters + {author}) >= c.QuorumThreshold()
  }

  lemma {:induction false} TallyOne(c: Committee, m: Maker, vote: HVote)
    requires c.HasStake() && Tallied(c, m) && m.weight == c.Weight(m.used) < c.QuorumThreshold() && vote.Verified(c)
    ensures var (m', r) := AppendVote(c, m, vote);
            && Tallied(c, m') && m'.used == m.used + {vote.author}
            && (r.Ok? && r.value.Some? <==> Fills(c, m.used, vote.author))
            && (!Fills(c, m.used, vote.author) ==> m'.weight == c.Weight(m'.used) < c.QuorumThreshold())
            && (Fills(c, m.used, vote.author) ==> r == Ok(Some(Certificate(vote, m.votes + [(vote.author, vote.signature)]))))
  {
    if vote.author in m.used {
      assert m.used + {vote.author} == m.used;
    } else {
      WeightInsert(c, m.used, vote.author);
      TallySnoc(c, m, (vote.author, vote.signature), AppendVote(c, m, vote).0.weight);
    }
  }

  lemma {:induction false} SameSignatures(votes: seq<(Name, Signature)>, v: (Name, Signature), d: Digest)
    requires v.1 == Signature(v.0, d) && forall i :: 0 <= i < |votes| ==> votes[i].1.signer == votes[i].0
    ensures SignedBy(votes + [v], d) <==> forall i :: 0 <= i < |votes| ==> votes[i].1.digest == d
  {
    assert forall i :: 0 <= i < |votes| ==> (votes + [v])[i] == votes[i];
  }

  /** Whether the completed certificate passes verification. */
  lemma {:induction false} CertificateVerifies(c: Committee, m: Maker, vote: HVote)
    requires c.HasStake() && Tallied(c, m) && vote.Verified(c) && Fills(c, m.used, vote.author)
    ensures var qc := Certificate(vote, m.votes + [(vote.author, vote.signature)]);
            && Voters(qc.votes) == m.used + {vote.author}
            && (ValidQC(c, qc) <==> forall i :: 0 <= i < |m.votes| ==> m.votes[i].1.digest == vote.Digest())
  {
    var v := (vote.author, vote.signature);
    TallySnoc(c, m, v, 0);
    SameSignatures(m.votes, v, vote.Digest());
    assert Certificate(vote, m.votes + [v]).Digest() == vote.Digest();
  }

  lemma {:induction false} AdvanceCounting(c: Committee, s: Node, qc: QC)
    requires c.HasStake() && Counting(c, s.makers, Max(s.height, qc.height + 1))
    ensures Counting(c, ProcessQC(s, qc).makers, ProcessQC(s, qc).height)
  {
  }

  function Max(a: nat, b: nat): nat {
    if a >= b then a else b
  }

  /** What a certificate does to a node that stands one above its highest one. */
  lemma {:induction false} AdvanceEffect(s: Node, qc: QC)
    requires s.height == s.highQC.height + 1
    ensures var t := ProcessQC(s, qc);
            && t.height == Max(s.height, qc.height + 1) && t.height == t.highQC.height + 1
            && (qc.height >= s.height ==> t.highQC == qc) && (qc.height < s.height ==> t == s)
            && (forall k: Key :: k in t.makers <==> k in s.makers && (qc.height >= s.height ==> k.0 > s.height))
            && (forall k: Key :: k in t.makers ==> t.makers[k] == s.makers[k])
  {
  }

  /** The vote is added to the voters of its block, and the node stays where it is. */
  ghost predicate Counted(s: Node, vote: HVote, t: Node) {
    var k := (vote.height, vote.hash);
    t.height == s.height && t.highQC == s.highQC && VotersFor(t, k) == VotersFor(s, k) + {vote.author}
  }

  /** The node moves to the height after the vote's, with a certificate of its block by exactly the
      voters, which verifies exactly if they all signed the same. */
  ghost predicate Completed(c: Committee, s: Node, vote: HVote, t: Node)
    requires c.HasStake()
  {
    var m := MakerOf(s, (vote.height, vote.hash));
    && t.height == vote.height + 1 && t.highQC.height == vote.height && t.highQC.hash == vote.hash
    && Voters(t.highQC.votes) == m.used + {vote.author}
    && (ValidQC(c, t.highQC) <==> forall i :: 0 <= i < |m.votes| ==> m.votes[i].1.digest == vote.Digest())
  }

  /** What a vote must do, whether it is not counted, counted, or completes a quorum. */
  ghost predicate VoteTakes(cfg: Config, s: Node, vote: HVote, t: Node)
    requires cfg.Valid() && s.name in cfg.elector.names
  {
    && (!Taken(cfg, s, vote) ==> t == s)
    && (Taken(cfg, s, vote) && !CompletesQuorum(cfg, s, vote) ==> Counted(s, vote, t))
    && (CompletesQuorum(cfg, s, vote) ==> Completed(cfg.c, s, vote, t))
    && Counting(cfg.c, t.makers, t.height)
  }

  lemma {:induction false} CountingPut(c: Committee, makers: map<Key, Maker>, height: nat, k: Key, m: Maker)
    requires c.HasStake() && Counting(c, makers, height) && Tallied(c, m) && m.weight == c.Weight(m.used) < c.QuorumThreshold()
    ensures Counting(c, makers[k := m], height)
  {
  }

  lemma {:induction false} CountingPast(c: Committee, makers: map<Key, Maker>, height: nat, k: Key, m: Maker)
    requires c.HasStake() && Counting(c, makers, height) && Tallied(c, m) && k.0 >= height
    ensures Counting(c, makers[k := m], k.0 + 1)
  {
  }

  /** The collector of the vote's block with the vote in it. */
  function WithVote(c: Committee, s: Node, vote: HVote): Node
    requires c.HasStake()
  {
    var k := (vote.height, vote.hash);
    s.(makers := s.makers[k := AppendVote(c, MakerOf(s, k), vote).0])
  }

  function FullCertificate(s: Node, vote: HVote): QC {
    Certificate(vote, MakerOf(s, (vote.height, vote.hash)).votes + [(vote.author, vote.signature)])
  }

  lemma {:induction false} VoteMoves(cfg: Config, s: Node, vote: HVote)
    requires cfg.Valid() && s.name in cfg.elector.names && Counting(cfg.c, s.makers, s.height) && Taken(cfg, s, vote)
    ensures HandleOptVote(cfg, s, vote) ==
            if CompletesQuorum(cfg, s, vote) then ProcessQC(WithVote(cfg.c, s, vote), FullCertificate(s, vote)) else WithVote(cfg.c, s, vote)
  {
    var k := (vote.height, vote.hash);
    TallyOne(cfg.c, MakerOf(s, k), vote);
    var (makers, r) := AddTo(cfg.c, s.makers, k, vote);
    assert s.(makers := makers) == WithVote(cfg.c, s, vote) && (makers, r) == (s.makers[k := makers[k]], AppendVote(cfg.c, MakerOf(s, k), vote).1);
    assert CompletesQuorum(cfg, s, vote) <==> r.Ok? && r.value.Some?;
  }

  lemma {:induction false} WithVoteCounting(cfg: Config, s: Node, vote: HVote)
    requires cfg.Valid() && s.name in cfg.elector.names && Counting(cfg.c, s.makers, s.height) && Taken(cfg, s, vote)
    ensures var t := WithVote(cfg.c, s, vote);
            && VotersFor(t, (vote.height, vote.hash)) == VotersFor(s, (vote.height, vote.hash)) + {vote.author}
            && Counting(cfg.c, t.makers, if CompletesQuorum(cfg, s, vote) then vote.height + 1 else s.height)
  {
    var k := (vote.height, vote.hash);
    var m := AppendVote(cfg.c, MakerOf(s, k), vote).0;
    TallyOne(cfg.c, MakerOf(s, k), vote);
    if CompletesQuorum(cfg, s, vote) {
      CountingPast(cfg.c, s.makers, s.height, k, m);
    } else {
      CountingPut(cfg.c, s.makers, s.height, k, m);
    }
  }

  lemma {:induction false} CompletedEffect(cfg: Config, s: Node, vote: HVote)
    requires cfg.Valid() && s.name in cfg.elector.names && s.height == s.highQC.height + 1 && Counting(cfg.c, s.makers, s.height)
    requires CompletesQuorum(cfg, s, vote)
    ensures var t := ProcessQC(WithVote(cfg.c, s, vote), FullCertificate(s, vote));
            Completed(cfg.c, s, vote, t) && Counting(cfg.c, t.makers, t.height)
  {
    var m, qc, t := MakerOf(s, (vote.height, vote.hash)), FullCertificate(s, vote), WithVote(cfg.c, s, vote);
    CertificateVerifies(cfg.c, m, vote);
    WithVoteCounting(cfg, s, vote);
    AdvanceEffect(t, qc);
    AdvanceCounting(cfg.c, t, qc);
  }

  /** The collectors between the count of a vote and the move that a certificate brings. */
  lemma {:induction false} CollectedCounting(cfg: Config, s: Node, vote: HVote)
    requires cfg.Valid() && s.name in cfg.elector.names && Counting(cfg.c, s.makers, s.height) && Taken(cfg, s, vote)
    ensures var (makers, r) := AddTo(cfg.c, s.makers, (vote.height, vote.hash), vote);
            && (r.Ok? && r.value.Some? <==> CompletesQuorum(cfg, s, vote))
            && (r.Ok? && r.value.Some? ==> r.value.value.height == vote.height && r.value.value.hash == vote.hash && Counting(cfg.c, makers, vote.height + 1))
            && (!(r.Ok? && r.value.Some?) ==> Counting(cfg.c, makers, s.height))
  {
    TallyOne(cfg.c, MakerOf(s, (vote.height, vote.hash)), vote);
    WithVoteCounting(cfg, s, vote);
  }

  lemma {:induction false} VoteEffect(cfg: Config, s: Node, vote: HVote)
    requires cfg.Valid() && s.name in cfg.elector.names && s.height == s.highQC.height + 1 && Counting(cfg.c, s.makers, s.height)
    ensures VoteTakes(cfg, s, vote, HandleOptVote(cfg, s, vote))
  {
    if CompletesQuorum(cfg, s, vote) {
      VoteMoves(cfg, s, vote);
      CompletedEffect(cfg, s, vote);
    } else if Taken(cfg, s, vote) {
      VoteMoves(cfg, s, vote);
      WithVoteCounting(cfg, s, vote);
    }
  }
}
