/** Safety of the optimistic path over whole runs. */
module OptSafety {
  import opened Committees
  import opened Messages
  import opened Aggregation
  import opened OptNode
  import opened OptProtocol

  // ----- the hypotheses the code leaves to its environment -----

  /** A certificate used on the optimistic path is an optimistic one of the epoch; block and
      prepare verification check neither. */
  ghost predicate OptQC(e: nat, qc: QC) {
    qc.IsGenesis() || (qc.tag == OPT && qc.epoch == e)
  }

  ghost predicate PrepPremise(e: nat, prep: PrepareEffect) {
    prep.fast.Some? ==> OptQC(e, prep.fast.value)
  }

  ghost predicate Premise(s: Node, ev: Event) {
    match ev
    case Proposal(_, block, _, prep) => OptQC(block.epoch, block.qc) && PrepPremise(s.epoch, prep)
    case LoopBack(_, block, prep) => block.epoch == s.epoch && OptQC(block.epoch, block.qc) && PrepPremise(s.epoch, prep)
    case Vote(_, vote) => vote.tag == OPT && vote.epoch <= s.epoch
    case Propose(_, _, prep) => PrepPremise(s.epoch, prep)
    case FastPath(_, qc) => OptQC(s.epoch, qc)
    case _ => true
  }

  // ----- one handler at a time -----

  /** What block processing relies on: the parent is certified or absent, and at the height after
      the certificate's it is the parent a vote needs. */
  ghost predicate Fit(sys: System, signed: set<Signature>, b: Block)
    requires sys.cfg.c.HasStake()
  {
    && (b.qc.hash == Zero || (b.qc.hash.BlockDigest? && Certified(sys, signed, b.epoch, b.qc.hash.height, b.qc.hash)))
    && (b.qc.height + 1 == b.height ==> ParentOk(sys, signed, b.epoch, b.height, b.qc.hash))
  }

  lemma {:induction false} CertifiedFits(sys: System, signed: set<Signature>, b: Block)
    requires sys.Valid() && VotesOk(sys, signed) && QCOk(sys, signed, b.epoch, b.qc)
    ensures Fit(sys, signed, b)
  {
    if b.qc.IsGenesis() {
      assert Fit(sys, signed, b);
    } else {
      CertifiedBlock(sys, signed, b.epoch, b.qc.height, b.qc.hash);
      assert b.qc.height >= 1;
    }
  }

  lemma {:induction false} BackedFits(sys: System, signed: set<Signature>, b: Block)
    requires sys.Valid() && VotesOk(sys, signed) && Backed(sys, signed, b) && OptQC(b.epoch, b.qc)
    ensures Fit(sys, signed, b)
  {
    if Certified(sys, signed, b.epoch, b.qc.height, b.qc.hash) {
      CertifiedFits(sys, signed, b);
    } else if CheckedQC(sys, signed, b.qc) {
      if !b.qc.IsGenesis() {
        ValidQCCertifies(sys, signed, b.qc);
      }
      CertifiedFits(sys, signed, b);
    } else {
      CertifiedBlock(sys, signed, b.epoch, b.height, b.Digest());
      if b.height > 1 {
        CertifiedBlock(sys, signed, b.epoch, b.height - 1, b.qc.hash);
      }
    }
  }

  lemma {:induction false} ParentCertified(sys: System, signed: set<Signature>, e: nat, store: map<Digest, Block>, b: Block)
    requires sys.Valid() && VotesOk(sys, signed) && Keyed(store)
    requires Certified(sys, signed, e, b.height, b.Digest()) && b.qc.hash in store
    ensures var p := store[b.qc.hash];
            p.height + 1 == b.height && Certified(sys, signed, e, p.height, p.Digest())
  {
    CertifiedBlock(sys, signed, e, b.height, b.Digest());
    assert store[b.qc.hash].Digest() == b.qc.hash;
    CertifiedBlock(sys, signed, e, b.height - 1, b.qc.hash);
  }

  /** Committing a certified block hands out certified blocks only. */
  lemma {:induction false} WalkCertified(sys: System, signed: set<Signature>, e: nat, store: map<Digest, Block>, b: Block, committed: nat)
    requires sys.Valid() && VotesOk(sys, signed) && Keyed(store)
    requires Certified(sys, signed, e, b.height, b.Digest())
    ensures AllCertified(sys, signed, e, Walk(store, b, committed))
    ensures var br := WalkBreak(store, b, committed);
            br.Some? ==> br.value.epoch == e && Certified(sys, signed, e, br.value.height, br.value.Digest())
    decreases b.Digest()
  {
    CertifiedBlock(sys, signed, e, b.height, b.Digest());
    if b.height > committed && !b.qc.IsGenesis() && b.qc.hash in store {
      ParentCertified(sys, signed, e, store, b);
      WalkCertified(sys, signed, e, store, store[b.qc.hash], committed);
    }
  }

  lemma {:induction false} OldestFirstCertified(sys: System, signed: set<Signature>, e: nat, ds: seq<Digest>)
    requires sys.cfg.c.HasStake() && AllCertified(sys, signed, e, ds)
    ensures AllCertified(sys, signed, e, OldestFirst(ds))
  {
    var log := OldestFirst(ds);
    assert forall i :: 0 <= i < |log| ==> log[i] == ds[|ds| - 1 - i];
  }

  lemma {:induction false} LogSnoc(segments: seq<seq<Digest>>, seg: seq<Digest>)
    ensures Log(segments + [seg]) == Log(segments) + OldestFirst(seg)
  {
    assert (segments + [seg])[..|segments|] == segments;
  }

  lemma {:induction false} CommitOk(sys: System, signed: set<Signature>, s: Node, b: Block)
    requires sys.Valid() && VotesOk(sys, signed) && NodeOk(sys, signed, s)
    requires Certified(sys, signed, s.epoch, b.height, b.Digest())
    ensures NodeOk(sys, signed, Commit(s, b))
  {
    var walk := Walk(s.store, b, s.lastCommitted);
    WalkCertified(sys, signed, s.epoch, s.store, b, s.lastCommitted);
    OldestFirstCertified(sys, signed, s.epoch, walk);
    LogSnoc(s.segments, walk);
  }

  lemma {:induction false} FastCommitOk(sys: System, signed: set<Signature>, s: Node, qc: QC)
    requires sys.Valid() && VotesOk(sys, signed) && NodeOk(sys, signed, s)
    requires CheckedQC(sys, signed, qc) && OptQC(s.epoch, qc)
    ensures NodeOk(sys, signed, FastCommit(s, qc))
  {
    if qc.hash in s.store {
      assert s.store[qc.hash].Digest() == qc.hash;
      ValidQCCertifies(sys, signed, qc);
      CertifiedBlock(sys, signed, qc.epoch, qc.height, qc.hash);
      if s.store[qc.hash].height > s.lastCommitted {
        CommitOk(sys, signed, s, s.store[qc.hash]);
      }
    }
  }

  /** The grandparent found in the store is certified when it is above genesis. */
  lemma {:induction false} GrandparentCertified(sys: System, signed: set<Signature>, e: nat, store: map<Digest, Block>, block: Block, b1: Block, b0: Block)
    requires sys.Valid() && VotesOk(sys, signed) && Keyed(store) && Fit(sys, signed, block) && block.epoch == e
    requires ParentOf(store, block) == Some(b1) && ParentOf(store, b1) == Some(b0) && b0.height > 0
    ensures Certified(sys, signed, e, b0.height, b0.Digest())
  {
    assert !block.qc.IsGenesis() && b1.Digest() == block.qc.hash;
    assert !b1.qc.IsGenesis();
    ParentCertified(sys, signed, e, store, b1);
  }

  lemma {:induction false} CommitAndVoteOk(sys: System, signed: set<Signature>, s: Node, b0: Block, b1: Block, block: Block)
    requires sys.Valid() && VotesOk(sys, signed) && NodeOk(sys, signed, s)
    requires b0.height > 0 ==> Certified(sys, signed, s.epoch, b0.height, b0.Digest())
    ensures var t := CommitAndVote(s, b0, b1, block).0;
            NodeOk(sys, signed, t) && t.epoch == s.epoch && t.name == s.name
  {
    if b0.height > s.lastCommitted {
      CommitOk(sys, signed, s, b0);
    }
  }

  /** A vote leaves only for a fit block, at the node's height and above its register. */
  lemma {:induction false} VoteRules(s: Node, b0: Block, b1: Block, block: Block)
    requires Keyed(s.store)
    ensures var (t, vote) := CommitAndVote(s, b0, b1, block);
            && (vote.None? ==> t.lastVoted == s.lastVoted)
            && (vote.Some? ==> && vote.value == NewVote(block, s.name, OPT) && block.height == s.height > s.lastVoted
                               && block.qc.height + 1 == block.height && t.lastVoted == block.height)
  {
  }

  /** The node once the block is stored and the prepare phase is through. */
  lemma {:induction false} AfterPrepare(sys: System, signed: set<Signature>, s: Node, block: Block, prep: PrepareEffect) returns (u: Node)
    requires sys.Valid() && VotesOk(sys, signed) && NodeOk(sys, signed, s)
    requires PrepEnabled(sys, signed, prep) && PrepPremise(s.epoch, prep)
    ensures u == if prep.fast.Some? then FastCommit(StoreBlock(s, block), prep.fast.value) else StoreBlock(s, block)
    ensures NodeOk(sys, signed, u) && u.epoch == s.epoch && u.name == s.name && u.lastVoted == s.lastVoted
  {
    u := StoreBlock(s, block);
    assert NodeOk(sys, signed, u);
    if prep.fast.Some? {
      FastCommitOk(sys, signed, u, prep.fast.value);
      u := FastCommit(u, prep.fast.value);
    }
  }

  lemma {:induction false} Stalled(sys: System, signed: set<Signature>, s: Node, block: Block)
    requires sys.cfg.c.HasStake() && NodeOk(sys, signed, s) && Backed(sys, signed, block)
    ensures NodeOk(sys, signed, s.(suspended := s.suspended + {block})) && NodeOk(sys, signed, s.(crash := MissingAncestor))
  {
  }

  /** What processing a fit block may do to the node and which vote may leave. */
  ghost predicate Processed(sys: System, signed: set<Signature>, s: Node, block: Block, t: Node, vote: Option<HVote>)
    requires sys.cfg.c.HasStake()
  {
    && NodeOk(sys, signed, t) && t.epoch == s.epoch && t.name == s.name && t.lastVoted >= s.lastVoted
    && (vote.Some? ==> && vote.value == NewVote(block, s.name, OPT)
                       && block.height > s.lastVoted && t.lastVoted == block.height
                       && ParentOk(sys, signed, s.epoch, block.height, block.qc.hash))
  }

  lemma {:induction false} WithAncestorsOk(sys: System, signed: set<Signature>, s: Node, b0: Block, b1: Block, block: Block, prep: PrepareEffect)
    requires sys.Valid() && VotesOk(sys, signed) && NodeOk(sys, signed, s)
    requires block.epoch == s.epoch && Fit(sys, signed, block) && PrepEnabled(sys, signed, prep) && PrepPremise(s.epoch, prep)
    requires b0.height > 0 ==> Certified(sys, signed, s.epoch, b0.height, b0.Digest())
    ensures var (t, vote) := WithAncestors(s, b0, b1, block, prep); Processed(sys, signed, s, block, t, vote)
  {
    var u := AfterPrepare(sys, signed, s, block, prep);
    if !prep.failed {
      CommitAndVoteOk(sys, signed, u, b0, b1, block);
      VoteRules(u, b0, b1, block);
    }
  }

  lemma {:induction false} ProcessOk(sys: System, signed: set<Signature>, s: Node, block: Block, prep: PrepareEffect)
    requires sys.Valid() && VotesOk(sys, signed) && NodeOk(sys, signed, s)
    requires block.epoch == s.epoch && Fit(sys, signed, block) && Backed(sys, signed, block)
    requires PrepEnabled(sys, signed, prep) && PrepPremise(s.epoch, prep)
    ensures var (t, vote) := ProcessOptBlock(s, block, prep); Processed(sys, signed, s, block, t, vote)
  {
    var b1 := ParentOf(s.store, block);
    Stalled(sys, signed, s, block);
    if b1.Some? {
      var b0 := ParentOf(s.store, b1.value);
      if b0.Some? {
        if b0.value.height > 0 {
          GrandparentCertified(sys, signed, s.epoch, s.store, block, b1.value, b0.value);
        }
        WithAncestorsOk(sys, signed, s, b0.value, b1.value, block, prep);
      }
    }
  }

  lemma {:induction false} ProcessQCOk(sys: System, signed: set<Signature>, s: Node, qc: QC)
    requires sys.Valid() && NodeOk(sys, signed, s) && QCOk(sys, signed, s.epoch, qc)
    ensures NodeOk(sys, signed, ProcessQC(s, qc))
  {
  }

  lemma {:induction false} OwnFits(sys: System, signed: set<Signature>, s: Node, payload: seq<nat>)
    requires sys.Valid() && VotesOk(sys, signed) && NodeOk(sys, signed, s)
    ensures var b := OwnProposal(s, payload);
            Fit(sys, signed, b) && Backed(sys, signed, b) && b.qc.height + 1 == b.height
  {
    CertifiedFits(sys, signed, OwnProposal(s, payload));
  }

  lemma {:induction false} VoterBacks(sys: System, signed: set<Signature>, vote: HVote)
    requires sys.Valid() && vote.Verified(sys.cfg.c) && vote.tag == OPT && Known(sys, signed, vote.signature)
    ensures vote.author in Backers(sys, signed, vote.epoch, vote.height, vote.hash)
  {
    if vote.author !in sys.faulty {
      assert Signature(vote.author, VoteDigest(vote.hash, vote.height, vote.round, OPT, vote.epoch, vote.proposer)) in signed;
    }
  }

  lemma {:induction false} AppendBacked(sys: System, signed: set<Signature>, m: Maker, vote: HVote)
    requires sys.Valid() && vote.author in Backers(sys, signed, vote.epoch, vote.height, vote.hash)
    requires m.used <= Backers(sys, signed, vote.epoch, vote.height, vote.hash) && m.weight <= sys.cfg.c.Weight(m.used)
    ensures var (m', r) := AppendVote(sys.cfg.c, m, vote);
            && m'.used <= Backers(sys, signed, vote.epoch, vote.height, vote.hash) && m'.weight <= sys.cfg.c.Weight(m'.used)
            && (r.Ok? && r.value.Some? ==> QCOk(sys, signed, vote.epoch, r.value.value))
  {
    if vote.author !in m.used {
      WeightInsert(sys.cfg.c, m.used, vote.author);
      WeightMonotone(sys.cfg.c, m.used + {vote.author}, Backers(sys, signed, vote.epoch, vote.height, vote.hash));
    }
  }

  /** A vote of the node's epoch goes into the collector of its height and hash. */
  lemma {:induction false} CollectedOk(sys: System, signed: set<Signature>, s: Node, vote: HVote)
    requires sys.Valid() && NodeOk(sys, signed, s) && vote.epoch == s.epoch
    requires vote.author in Backers(sys, signed, vote.epoch, vote.height, vote.hash)
    ensures var (makers, r) := AddTo(sys.cfg.c, s.makers, (vote.height, vote.hash), vote);
            && NodeOk(sys, signed, s.(makers := makers))
            && (r.Ok? && r.value.Some? ==> QCOk(sys, signed, s.epoch, r.value.value))
  {
    var key := (vote.height, vote.hash);
    AppendBacked(sys, signed, if key in s.makers then s.makers[key] else EMPTY_MAKER, vote);
  }

  lemma {:induction false} HandleVoteOk(sys: System, signed: set<Signature>, s: Node, vote: HVote)
    requires sys.Valid() && NodeOk(sys, signed, s) && s.name in sys.cfg.elector.names
    requires Known(sys, signed, vote.signature) && vote.tag == OPT && vote.epoch <= s.epoch
    ensures var t := HandleOptVote(sys.cfg, s, vote);
            NodeOk(sys, signed, t) && t.epoch == s.epoch && t.name == s.name && t.lastVoted == s.lastVoted
  {
    if vote.epoch == s.epoch && vote.Verified(sys.cfg.c) {
      VoterBacks(sys, signed, vote);
      CollectedOk(sys, signed, s, vote);
      var (makers, r) := AddTo(sys.cfg.c, s.makers, (vote.height, vote.hash), vote);
      if r.Ok? && r.value.Some? {
        ProcessQCOk(sys, signed, s.(makers := makers), r.value.value);
      }
    }
  }

  lemma {:induction false} EpochInitOk(sys: System, signed: set<Signature>, s: Node)
    requires sys.Valid() && NodeOk(sys, signed, s)
    ensures NodeOk(sys, signed, EpochInit(s))
  {
  }

  /** What one reaction of a node keeps and what it may sign. */
  ghost predicate GoodReaction(sys: System, signed: set<Signature>, s: Node, t: Node, vote: Option<HVote>)
    requires sys.cfg.c.HasStake()
  {
    && NodeOk(sys, signed, t) && t.name == s.name
    && (t.epoch > s.epoch || (t.epoch == s.epoch && t.lastVoted >= s.lastVoted))
    && (vote.Some? ==>
          && vote.value.signature == Signature(s.name, vote.value.Digest())
          && (vote.value.tag == OPT ==> NewVoteOk(sys, signed, s, t, vote.value)))
  }

  ghost predicate NewVoteOk(sys: System, signed: set<Signature>, s: Node, t: Node, vote: HVote)
    requires sys.cfg.c.HasStake()
  {
    VoteOk(sys, signed, vote.Digest()) && vote.epoch == s.epoch == t.epoch && s.lastVoted < vote.height == t.lastVoted
  }

  lemma {:induction false} ProcessReaction(sys: System, signed: set<Signature>, s: Node, block: Block, prep: PrepareEffect)
    requires sys.Valid() && VotesOk(sys, signed) && NodeOk(sys, signed, s)
    requires block.epoch == s.epoch && Fit(sys, signed, block) && Backed(sys, signed, block)
    requires PrepEnabled(sys, signed, prep) && PrepPremise(s.epoch, prep)
    ensures var (t, vote) := ProcessOptBlock(s, block, prep); GoodReaction(sys, signed, s, t, vote)
  {
    ProcessOk(sys, signed, s, block, prep);
  }

  lemma {:induction false} PayloadReaction(sys: System, signed: set<Signature>, s: Node, block: Block, status: PayloadStatus, prep: PrepareEffect)
    requires sys.Valid() && VotesOk(sys, signed) && NodeOk(sys, signed, s)
    requires block.epoch == s.epoch && Fit(sys, signed, block) && Backed(sys, signed, block)
    requires PrepEnabled(sys, signed, prep) && PrepPremise(s.epoch, prep)
    ensures var (t, vote) := AfterPayload(s, block, status, prep); GoodReaction(sys, signed, s, t, vote)
  {
    Stalled(sys, signed, s, block);
    if status.Accept? {
      ProcessReaction(sys, signed, s, block, prep);
    }
  }

  lemma {:induction false} VerifiedReaction(sys: System, signed: set<Signature>, s: Node, block: Block, status: PayloadStatus, prep: PrepareEffect)
    requires sys.Valid() && VotesOk(sys, signed) && NodeOk(sys, signed, s) && block.epoch == s.epoch
    requires CheckedQC(sys, signed, block.qc) && OptQC(block.epoch, block.qc) && PrepEnabled(sys, signed, prep) && PrepPremise(s.epoch, prep)
    ensures var (t, vote) := AfterPayload(ProcessQC(s, block.qc), block, status, prep); GoodReaction(sys, signed, s, t, vote)
  {
    BackedFits(sys, signed, block);
    if !block.qc.IsGenesis() {
      ValidQCCertifies(sys, signed, block.qc);
    }
    ProcessQCOk(sys, signed, s, block.qc);
    PayloadReaction(sys, signed, ProcessQC(s, block.qc), block, status, prep);
  }

  lemma {:induction false} LeaderlessReaction(sys: System, signed: set<Signature>, s: Node)
    requires sys.Valid() && NodeOk(sys, signed, s)
    ensures GoodReaction(sys, signed, s, s.(crash := NotALeader), None) && GoodReaction(sys, signed, s, s.(crash := UnknownLeader), None)
    ensures GoodReaction(sys, signed, s, s, None)
  {
  }

  lemma {:induction false} EpochReaction(sys: System, signed: set<Signature>, s: Node)
    requires sys.Valid() && NodeOk(sys, signed, s)
    ensures GoodReaction(sys, signed, s, EpochInit(s), None)
  {
    EpochInitOk(sys, signed, s);
  }

  lemma {:induction false} FastReaction(sys: System, signed: set<Signature>, s: Node, qc: QC)
    requires sys.Valid() && VotesOk(sys, signed) && NodeOk(sys, signed, s) && CheckedQC(sys, signed, qc) && OptQC(s.epoch, qc)
    ensures GoodReaction(sys, signed, s, FastCommit(s, qc), None)
  {
    FastCommitOk(sys, signed, s, qc);
  }

  lemma {:induction false} VoteReaction(sys: System, signed: set<Signature>, s: Node, vote: HVote)
    requires sys.Valid() && NodeOk(sys, signed, s) && s.name in sys.cfg.elector.names
    requires Known(sys, signed, vote.signature) && vote.tag == OPT && vote.epoch <= s.epoch
    ensures GoodReaction(sys, signed, s, HandleOptVote(sys.cfg, s, vote), None)
  {
    HandleVoteOk(sys, signed, s, vote);
  }

  lemma {:induction false} ProposalReaction(sys: System, signed: set<Signature>, s: Node, block: Block, status: PayloadStatus, prep: PrepareEffect)
    requires sys.Valid() && VotesOk(sys, signed) && NodeOk(sys, signed, s)
    requires KnownQC(sys, signed, block.qc) && PrepEnabled(sys, signed, prep)
    requires OptQC(block.epoch, block.qc) && PrepPremise(s.epoch, prep)
    ensures var (t, vote) := HandleOptProposal(sys.cfg, s, block, status, prep); GoodReaction(sys, signed, s, t, vote)
  {
    EpochReaction(sys, signed, s);
    LeaderlessReaction(sys, signed, s);
    if block.epoch == s.epoch && VerifiedBlock(sys.cfg.c, block) {
      VerifiedReaction(sys, signed, s, block, status, prep);
    }
  }

  lemma {:induction false} StoreReaction(sys: System, signed: set<Signature>, s: Node, block: Block)
    requires sys.Valid() && NodeOk(sys, signed, s)
    ensures GoodReaction(sys, signed, s, StoreBlock(s, block), None) && GoodReaction(sys, signed, s, s, None)
    ensures GoodReaction(sys, signed, s, StoreBlock(s, block), Some(NewVote(block, s.name, PES)))
  {
  }

  lemma {:induction false} Reaction(sys: System, w: World, ev: Event)
    requires Ready(sys, w) && VotesOk(sys, w.signed) && Enabled(sys, w, ev) && Premise(w.nodes[ev.n], ev)
    requires NodeOk(sys, w.signed, w.nodes[ev.n])
    ensures var s := w.nodes[ev.n]; var (t, vote) := React(sys, s, ev); GoodReaction(sys, w.signed, s, t, vote)
  {
    var s := w.nodes[ev.n];
    match ev
    case Proposal(_, block, status, prep) =>
      ProposalReaction(sys, w.signed, s, block, status, prep);
    case LoopBack(_, block, prep) =>
      BackedFits(sys, w.signed, block);
      ProcessReaction(sys, w.signed, s, block, prep);
    case Vote(_, vote) =>
      VoteReaction(sys, w.signed, s, vote);
    case Propose(_, payload, prep) =>
      OwnFits(sys, w.signed, s, payload);
      ProcessReaction(sys, w.signed, s, OwnProposal(s, payload), prep);
      LeaderlessReaction(sys, w.signed, s);
    case FastPath(_, qc) =>
      FastReaction(sys, w.signed, s, qc);
    case Fallback(_, block) =>
      StoreReaction(sys, w.signed, s, block);
    case ParOut(_, block) =>
      StoreReaction(sys, w.signed, s, block);
    case EpochEnd(_) =>
      EpochReaction(sys, w.signed, s);
  }

  // ----- the whole system -----

  ghost predicate Inv(sys: System, w: World) {
    && Ready(sys, w)
    && VotesOk(sys, w.signed)
    && OncePerHeight(w.signed)
    && forall n :: n in w.nodes ==> NodeOk(sys, w.signed, w.nodes[n]) && Bound(w.signed, w.nodes[n])
  }

  lemma {:induction false} VoteOkGrows(sys: System, signed: set<Signature>, signed': set<Signature>, v: Digest)
    requires sys.cfg.c.HasStake() && signed <= signed' && v.VoteDigest? && VoteOk(sys, signed, v)
    ensures VoteOk(sys, signed', v)
  {
    if v.height > 1 {
      CertifiedGrows(sys, signed, signed', v.epoch, v.height - 1, v.hash.parent);
    }
  }

  /** Signing one more vote under the voting rules keeps every vote sound and unique. */
  lemma {:induction false} SigningOk(sys: System, signed: set<Signature>, s: Node, t: Node, vote: HVote)
    requires sys.cfg.c.HasStake() && VotesOk(sys, signed) && OncePerHeight(signed) && Bound(signed, s)
    requires GoodReaction(sys, signed, s, t, Some(vote))
    ensures var signed' := signed + {vote.signature};
            VotesOk(sys, signed') && OncePerHeight(signed') && Bound(signed', t)
  {
    var signed' := signed + {vote.signature};
    forall sig | sig in signed' && OptVote(sig) ensures VoteOk(sys, signed', sig.digest) {
      assert VoteOk(sys, signed, sig.digest);
      VoteOkGrows(sys, signed, signed', sig.digest);
    }
  }

  /** The other nodes are not disturbed by a signature of this one. */
  lemma {:induction false} OthersOk(sys: System, signed: set<Signature>, vote: Option<HVote>, s: Node)
    requires sys.cfg.c.HasStake() && NodeOk(sys, signed, s) && Bound(signed, s)
    requires vote.Some? ==> vote.value.signature.signer != s.name
    ensures NodeOk(sys, SignedAfter(signed, vote), s) && Bound(SignedAfter(signed, vote), s)
  {
    NodeOkGrows(sys, signed, SignedAfter(signed, vote), s);
  }

  lemma {:induction false} ActorOk(sys: System, signed: set<Signature>, s: Node, t: Node, vote: Option<HVote>)
    requires sys.cfg.c.HasStake() && VotesOk(sys, signed) && OncePerHeight(signed) && Bound(signed, s)
    requires GoodReaction(sys, signed, s, t, vote)
    ensures var signed' := SignedAfter(signed, vote);
            VotesOk(sys, signed') && OncePerHeight(signed') && Bound(signed', t) && NodeOk(sys, signed', t)
  {
    if vote.Some? {
      SigningOk(sys, signed, s, t, vote.value);
    }
    NodeOkGrows(sys, signed, SignedAfter(signed, vote), t);
  }

  lemma {:induction false} WorldAfter(sys: System, w: World, n: Name, t: Node, vote: Option<HVote>)
    requires Inv(sys, w) && n in w.nodes && GoodReaction(sys, w.signed, w.nodes[n], t, vote)
    ensures Inv(sys, World(w.nodes[n := t], SignedAfter(w.signed, vote)))
  {
    ActorOk(sys, w.signed, w.nodes[n], t, vote);
    forall m | m in w.nodes && m != n
      ensures NodeOk(sys, SignedAfter(w.signed, vote), w.nodes[m]) && Bound(SignedAfter(w.signed, vote), w.nodes[m])
    {
      OthersOk(sys, w.signed, vote, w.nodes[m]);
    }
  }

  lemma {:induction false} Preserved(sys: System, w: World, ev: Event)
    requires Inv(sys, w) && Enabled(sys, w, ev) && Premise(w.nodes[ev.n], ev)
    ensures Inv(sys, Apply(sys, w, ev))
  {
    var (t, vote) := React(sys, w.nodes[ev.n], ev);
    Reaction(sys, w, ev);
    WorldAfter(sys, w, ev.n, t, vote);
  }

  /** A run: worlds linked by events, from boot. */
  ghost predicate Run(sys: System, ws: seq<World>, evs: seq<Event>) {
    && sys.Valid()
    && |ws| == |evs| + 1 && ws[0] == Boot(sys)
    && forall i :: 0 <= i < |evs| ==> Ready(sys, ws[i]) && Enabled(sys, ws[i], evs[i]) && ws[i + 1] == Apply(sys, ws[i], evs[i])
  }

  /** The environment's hypotheses hold at every step of the run. */
  ghost predicate Premises(ws: seq<World>, evs: seq<Event>) {
    && |ws| == |evs| + 1
    && forall i :: 0 <= i < |evs| ==> evs[i].n in ws[i].nodes && Premise(ws[i].nodes[evs[i].n], evs[i])
  }

  lemma {:induction false} RunInv(sys: System, ws: seq<World>, evs: seq<Event>, i: nat)
    requires Run(sys, ws, evs) && Premises(ws, evs) && i < |ws|
    ensures Inv(sys, ws[i])
  {
    if i == 0 {
      assert forall n :: n in ws[0].nodes ==> NodeOk(sys, {}, ws[0].nodes[n]) && ws[0].nodes[n] == InitNode(n);
    } else {
      RunInv(sys, ws, evs, i - 1);
      Preserved(sys, ws[i - 1], evs[i - 1]);
    }
  }

  lemma {:induction false} StepGrows(sys: System, ws: seq<World>, evs: seq<Event>, i: nat)
    requires Run(sys, ws, evs) && i < |evs|
    ensures ws[i].signed <= ws[i + 1].signed
  {
    assert ws[i + 1] == Apply(sys, ws[i], evs[i]);
  }

  lemma {:induction false} Accumulates(ws: seq<World>, i: nat, j: nat)
    requires i <= j < |ws| && forall k :: 0 <= k < |ws| - 1 ==> ws[k].signed <= ws[k + 1].signed
    ensures ws[i].signed <= ws[j].signed
  {
    if i < j {
      Accumulates(ws, i, j - 1);
      assert ws[j - 1].signed <= ws[j - 1 + 1].signed;
    }
  }

  lemma {:induction false} SignedGrows(sys: System, ws: seq<World>, evs: seq<Event>, i: nat, j: nat)
    requires Run(sys, ws, evs) && i <= j < |ws|
    ensures ws[i].signed <= ws[j].signed
  {
    forall k | 0 <= k < |ws| - 1 ensures ws[k].signed <= ws[k + 1].signed {
      StepGrows(sys, ws, evs, k);
    }
    Accumulates(ws, i, j);
  }

  /** The optimistic log a node has for an epoch. */
  function LogAt(s: Node, e: nat): seq<Digest> {
    if e < |s.past| then s.past[e] else if e == s.epoch then Log(s.segments) else []
  }

  lemma {:induction false} LogCertified(sys: System, ws: seq<World>, evs: seq<Event>, i: nat, n: Name, e: nat)
    requires Run(sys, ws, evs) && Premises(ws, evs) && i < |ws| && n in ws[i].nodes
    ensures AllCertified(sys, ws[|evs|].signed, e, LogAt(ws[i].nodes[n], e))
  {
    RunInv(sys, ws, evs, i);
    SignedGrows(sys, ws, evs, i, |evs|);
    var log := LogAt(ws[i].nodes[n], e);
    AllCertifiedGrows(sys, ws[i].signed, ws[|evs|].signed, e, log);
  }

  /** Agreement: whenever two correct nodes have committed blocks of the same epoch and height,
      at whatever times and by whichever of the two-chain rule and the fast path, the blocks are
      the same. */
  lemma {:induction false} Agreement(sys: System, ws: seq<World>, evs: seq<Event>, i: nat, n: Name, j: nat, m: Name, e: nat, x: Digest, y: Digest)
    requires Run(sys, ws, evs) && Premises(ws, evs)
    requires i < |ws| && n in ws[i].nodes && x in LogAt(ws[i].nodes[n], e)
    requires j < |ws| && m in ws[j].nodes && y in LogAt(ws[j].nodes[m], e)
    ensures x.BlockDigest? && y.BlockDigest? && (x.height == y.height ==> x == y)
  {
    LogCertified(sys, ws, evs, i, n, e);
    LogCertified(sys, ws, evs, j, m, e);
    RunInv(sys, ws, evs, |evs|);
    if x.height == y.height {
      CertifiedUnique(sys, ws[|evs|].signed, e, x.height, x, y);
    }
  }

  /** Two verified optimistic certificates of one epoch, in any world of a run: at equal heights they
      certify the same digest, and otherwise the lower one certifies an ancestor of the other. */
  lemma {:induction false} CertificatesOnOneChain(sys: System, ws: seq<World>, evs: seq<Event>, i: nat, a: QC, b: QC)
    requires Run(sys, ws, evs) && Premises(ws, evs) && i < |ws|
    requires ValidQC(sys.cfg.c, a) && KnownQC(sys, ws[i].signed, a) && a.tag == OPT
    requires ValidQC(sys.cfg.c, b) && KnownQC(sys, ws[i].signed, b) && b.tag == OPT
    requires a.epoch == b.epoch && a.height <= b.height
    ensures a.height == b.height ==> a.hash == b.hash
    ensures |Chain(b.hash)| == b.height && Chain(a.hash) == Chain(b.hash)[..a.height]
  {
    var signed := ws[i].signed;
    RunInv(sys, ws, evs, i);
    ValidQCCertifies(sys, signed, a);
    ValidQCCertifies(sys, signed, b);
    OneChain(sys, signed, a.epoch, a.height, a.hash, b.height, b.hash);
    if a.height == b.height {
      CertifiedUnique(sys, signed, a.epoch, a.height, a.hash, b.hash);
    }
  }

  /** In every world of a run a node stands one above its highest certificate, has not voted above
      its height, and would itself vote for what it proposes as far as the certificate rule goes. */
  lemma {:induction false} HeightInvariant(sys: System, ws: seq<World>, evs: seq<Event>, i: nat, n: Name, payload: seq<nat>)
    requires Run(sys, ws, evs) && Premises(ws, evs) && i < |ws| && n in ws[i].nodes
    ensures var s := ws[i].nodes[n];
            && s.height == s.highQC.height + 1 && s.lastVoted <= s.height
            && var b := OwnProposal(s, payload); (MayVote(s, b) <==> s.lastVoted < s.height)
  {
    RunInv(sys, ws, evs, i);
  }

  /** The heights a node votes for within an epoch strictly increase. */
  lemma {:induction false} VotesRise(sys: System, ws: seq<World>, evs: seq<Event>, i: nat, vote: HVote, sig: Signature)
    requires Run(sys, ws, evs) && Premises(ws, evs) && i < |evs|
    requires React(sys, ws[i].nodes[evs[i].n], evs[i]).1 == Some(vote) && vote.tag == OPT
    requires sig in ws[i].signed && OptVote(sig) && sig.signer == evs[i].n && sig.digest.epoch == vote.epoch
    ensures sig.digest.height < vote.height && vote.signature.signer == evs[i].n && vote.epoch == ws[i].nodes[evs[i].n].epoch
  {
    RunInv(sys, ws, evs, i);
    Reaction(sys, ws[i], evs[i]);
  }
}
