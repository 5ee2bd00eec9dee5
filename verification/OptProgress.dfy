/** What whole runs of the optimistic path must lead to: a quorum of votes moves a leader on, and three
    blocks in a row get the first one committed. */
module OptProgress {
  import opened Committees
  import opened Messages
  import opened Aggregation
  import opened OptNode
  import opened OptEffects
  import opened OptProtocol
  import opened OptSafety
  import opened OptLogs

  // ----- counting over runs -----

  ghost predicate Sound(c: Committee, s: Node)
    requires c.HasStake()
  {
    Keyed(s.store) && s.height == s.highQC.height + 1 && Counting(c, s.makers, s.height)
  }

  /** Within an epoch heights do not fall, and the voters for a block are kept until its height is left. */
  ghost predicate Steady(s: Node, t: Node, k: Key) {
    && t.name == s.name
    && (|| t.epoch > s.epoch
        || (t.epoch == s.epoch && t.height >= s.height && (t.height <= k.0 ==> VotersFor(s, k) <= VotersFor(t, k))))
  }

  lemma {:induction false} QCSteady(c: Committee, s: Node, qc: QC, k: Key)
    requires c.HasStake() && Sound(c, s)
    ensures Sound(c, ProcessQC(s, qc)) && Steady(s, ProcessQC(s, qc), k)
  {
    AdvanceEffect(s, qc);
    AdvanceCounting(c, s, qc);
  }

  lemma {:induction false} FastKeeps(s: Node, qc: QC)
    requires Keyed(s.store)
    ensures var t := FastCommit(s, qc); t.makers == s.makers && t.highQC == s.highQC && t.height == s.height && t.epoch == s.epoch && t.store == s.store && t.name == s.name
  {
  }

  lemma {:induction false} ProcessKeeps(s: Node, block: Block, prep: PrepareEffect)
    requires Keyed(s.store)
    ensures var t := ProcessOptBlock(s, block, prep).0;
            t.makers == s.makers && t.highQC == s.highQC && t.height == s.height && t.epoch == s.epoch && Keyed(t.store) && t.name == s.name
  {
    if prep.fast.Some? {
      FastKeeps(StoreBlock(s, block), prep.fast.value);
    }
  }

  lemma {:induction false} PayloadKeeps(s: Node, block: Block, status: PayloadStatus, prep: PrepareEffect)
    requires Keyed(s.store)
    ensures var t := AfterPayload(s, block, status, prep).0;
            t.makers == s.makers && t.highQC == s.highQC && t.height == s.height && t.epoch == s.epoch && Keyed(t.store) && t.name == s.name
  {
    ProcessKeeps(s, block, prep);
  }

  lemma {:induction false} VerifiedSteady(c: Committee, s: Node, block: Block, status: PayloadStatus, prep: PrepareEffect, k: Key)
    requires c.HasStake() && Sound(c, s)
    ensures var t := AfterPayload(ProcessQC(s, block.qc), block, status, prep).0; Sound(c, t) && Steady(s, t, k)
  {
    QCSteady(c, s, block.qc, k);
    PayloadKeeps(ProcessQC(s, block.qc), block, status, prep);
  }

  lemma {:induction false} RefusedSteady(c: Committee, s: Node, k: Key)
    requires c.HasStake() && Sound(c, s)
    ensures Sound(c, EpochInit(s)) && Steady(s, EpochInit(s), k) && Steady(s, s, k)
    ensures Sound(c, s.(crash := UnknownLeader)) && Steady(s, s.(crash := UnknownLeader), k)
  {
  }

  lemma {:induction false} ProposalSteady(cfg: Config, s: Node, block: Block, status: PayloadStatus, prep: PrepareEffect, k: Key)
    requires cfg.Valid() && Sound(cfg.c, s)
    ensures var t := HandleOptProposal(cfg, s, block, status, prep).0; Sound(cfg.c, t) && Steady(s, t, k)
  {
    VerifiedSteady(cfg.c, s, block, status, prep, k);
    RefusedSteady(cfg.c, s, k);
  }

  lemma {:induction false} VoteSteady(cfg: Config, s: Node, vote: HVote, k: Key)
    requires cfg.Valid() && s.name in cfg.elector.names && Sound(cfg.c, s)
    ensures var t := HandleOptVote(cfg, s, vote); Sound(cfg.c, t) && Steady(s, t, k)
  {
    VoteEffect(cfg, s, vote);
    if Taken(cfg, s, vote) {
      VoteMoves(cfg, s, vote);
      WithVoteCounting(cfg, s, vote);
      AdvanceEffect(WithVote(cfg.c, s, vote), FullCertificate(s, vote));
    }
  }

  lemma {:induction false} ReactSteady(sys: System, s: Node, ev: Event, k: Key)
    requires sys.Valid() && s.name in sys.cfg.c.authorities && Sound(sys.cfg.c, s)
    ensures var t := React(sys, s, ev).0; Sound(sys.cfg.c, t) && Steady(s, t, k)
  {
    match ev
    case Proposal(_, block, status, prep) => ProposalSteady(sys.cfg, s, block, status, prep, k);
    case LoopBack(_, block, prep) => ProcessKeeps(s, block, prep);
    case Vote(_, vote) => VoteSteady(sys.cfg, s, vote, k);
    case Propose(_, payload, prep) => ProcessKeeps(s, OwnProposal(s, payload), prep);
    case FastPath(_, qc) => FastKeeps(s, qc);
    case _ =>
  }

  lemma {:induction false} StepSteady(sys: System, w: World, ev: Event, w': World, n: Name, k: Key)
    requires Ready(sys, w) && Enabled(sys, w, ev) && w' == Apply(sys, w, ev) && n in w.nodes && Sound(sys.cfg.c, w.nodes[n])
    ensures n in w'.nodes && Sound(sys.cfg.c, w'.nodes[n]) && Steady(w.nodes[n], w'.nodes[n], k)
  {
    ReactSteady(sys, w.nodes[n], ev, k);
  }

  lemma {:induction false} RunSound(sys: System, ws: seq<World>, evs: seq<Event>, i: nat, n: Name)
    requires Run(sys, ws, evs) && i < |ws| && n in sys.Correct()
    ensures n in ws[i].nodes && ws[i].nodes[n].name == n && Sound(sys.cfg.c, ws[i].nodes[n])
  {
    if i == 0 {
      assert ws[0].nodes[n] == InitNode(n);
    } else {
      RunSound(sys, ws, evs, i - 1, n);
      StepSteady(sys, ws[i - 1], evs[i - 1], ws[i], n, (0, Zero));
    }
  }

  /** The states of one node along a run. */
  ghost function Trace(ws: seq<World>, n: Name): seq<Node>
    requires forall i :: 0 <= i < |ws| ==> n in ws[i].nodes
  {
    seq(|ws|, i requires 0 <= i < |ws| => ws[i].nodes[n])
  }

  lemma {:induction false} SteadyOn(tr: seq<Node>, i: nat, j: nat, k: Key)
    requires i <= j < |tr| && forall e :: 0 <= e < |tr| - 1 ==> Steady(tr[e], tr[e + 1], k)
    ensures Steady(tr[i], tr[j], k)
  {
    if i < j {
      SteadyOn(tr, i, j - 1, k);
      assert Steady(tr[j - 1], tr[j - 1 + 1], k);
    }
  }

  lemma {:induction false} SteadyRun(sys: System, ws: seq<World>, evs: seq<Event>, i: nat, j: nat, n: Name, k: Key)
    requires Run(sys, ws, evs) && i <= j < |ws| && n in sys.Correct()
    ensures n in ws[i].nodes && n in ws[j].nodes && Steady(ws[i].nodes[n], ws[j].nodes[n], k)
  {
    forall e | 0 <= e < |ws| ensures n in ws[e].nodes {
      RunSound(sys, ws, evs, e, n);
    }
    var tr := Trace(ws, n);
    forall e | 0 <= e < |tr| - 1 ensures Steady(tr[e], tr[e + 1], k) {
      RunSound(sys, ws, evs, e, n);
      StepSteady(sys, ws[e], evs[e], ws[e + 1], n, k);
    }
    SteadyOn(tr, i, j, k);
  }

  // ----- a quorum of votes -----

  /** The event delivers a verified vote of a for the block in the given epoch to n. */
  predicate VoteFrom(c: Committee, ev: Event, n: Name, epoch: nat, k: Key, a: Name) {
    ev.Vote? && ev.n == n && ev.vote.Verified(c) && ev.vote.author == a && ev.vote.epoch == epoch && (ev.vote.height, ev.vote.hash) == k
  }

  ghost predicate Arrived(c: Committee, evs: seq<Event>, i: nat, j: nat, n: Name, epoch: nat, k: Key, a: Name)
    requires i <= j <= |evs|
  {
    exists e :: i <= e < j && VoteFrom(c, evs[e], n, epoch, k, a)
  }

  predicate Leads(sys: System, n: Name, height: nat)
    requires sys.cfg.elector.Valid()
  {
    n in sys.cfg.elector.names && sys.cfg.elector.IndexAsLeader(n, height).Some?
  }

  lemma {:induction false} VoteCounts(sys: System, w: World, ev: Event, w': World, n: Name, k: Key, a: Name)
    requires Ready(sys, w) && Enabled(sys, w, ev) && w' == Apply(sys, w, ev) && n in w.nodes && Sound(sys.cfg.c, w.nodes[n])
    requires Leads(sys, n, k.0 + 1) && VoteFrom(sys.cfg.c, ev, n, w.nodes[n].epoch, k, a)
    ensures n in w'.nodes && w'.nodes[n].epoch == w.nodes[n].epoch && (w'.nodes[n].height <= k.0 ==> a in VotersFor(w'.nodes[n], k))
  {
    VoteEffect(sys.cfg, w.nodes[n], ev.vote);
    VoteSteady(sys.cfg, w.nodes[n], ev.vote, k);
    assert w'.nodes[n] == HandleOptVote(sys.cfg, w.nodes[n], ev.vote);
  }

  lemma {:induction false} ArrivedCounted(sys: System, ws: seq<World>, evs: seq<Event>, e: nat, j: nat, n: Name, k: Key, a: Name)
    requires Run(sys, ws, evs) && e < j < |ws| && n in sys.Correct() && n in ws[e].nodes && n in ws[j].nodes && Leads(sys, n, k.0 + 1)
    requires VoteFrom(sys.cfg.c, evs[e], n, ws[e].nodes[n].epoch, k, a) && ws[j].nodes[n].epoch == ws[e].nodes[n].epoch && ws[j].nodes[n].height <= k.0
    ensures a in VotersFor(ws[j].nodes[n], k)
  {
    RunSound(sys, ws, evs, e, n);
    VoteCounts(sys, ws[e], evs[e], ws[e + 1], n, k, a);
    SteadyRun(sys, ws, evs, e + 1, j, n, k);
  }

  lemma {:induction false} BelowQuorum(c: Committee, s: Node, k: Key, voters: set<Name>)
    requires c.HasStake() && Sound(c, s) && s.height <= k.0 && voters <= VotersFor(s, k)
    ensures c.Weight(voters) < c.QuorumThreshold()
  {
    WeightMonotone(c, voters, VotersFor(s, k));
  }

  /** Verified votes of a quorum for one block, delivered within an epoch to a node that leads the next
      height, put the node above the block's height, whatever else happens in between. */
  lemma {:induction false} QuorumAdvances(sys: System, ws: seq<World>, evs: seq<Event>, i: nat, j: nat, n: Name, k: Key, voters: set<Name>)
    requires Run(sys, ws, evs) && i <= j < |ws| && n in sys.Correct() && n in ws[i].nodes && n in ws[j].nodes && Leads(sys, n, k.0 + 1)
    requires ws[i].nodes[n].epoch == ws[j].nodes[n].epoch && sys.cfg.c.Weight(voters) >= sys.cfg.c.QuorumThreshold()
    requires forall a :: a in voters ==> Arrived(sys.cfg.c, evs, i, j, n, ws[i].nodes[n].epoch, k, a)
    ensures ws[j].nodes[n].height > k.0
  {
    var t := ws[j].nodes[n];
    RunSound(sys, ws, evs, j, n);
    if t.height <= k.0 {
      forall a | a in voters ensures a in VotersFor(t, k) {
        var e :| i <= e < j && VoteFrom(sys.cfg.c, evs[e], n, ws[i].nodes[n].epoch, k, a);
        SteadyRun(sys, ws, evs, i, e, n, k);
        SteadyRun(sys, ws, evs, e, j, n, k);
        ArrivedCounted(sys, ws, evs, e, j, n, k, a);
      }
      BelowQuorum(sys.cfg.c, t, k, voters);
    }
  }

  // ----- which certificate it then holds -----

  lemma {:induction false} ArrivedBacks(sys: System, ws: seq<World>, evs: seq<Event>, i: nat, j: nat, n: Name, epoch: nat, k: Key, a: Name)
    requires Run(sys, ws, evs) && Premises(ws, evs) && i <= j < |ws| && Arrived(sys.cfg.c, evs, i, j, n, epoch, k, a)
    ensures a in Backers(sys, ws[j].signed, epoch, k.0, k.1)
  {
    var e :| i <= e < j && VoteFrom(sys.cfg.c, evs[e], n, epoch, k, a);
    assert Premise(ws[e].nodes[n], evs[e]) && Enabled(sys, ws[e], evs[e]);
    VoterBacks(sys, ws[e].signed, evs[e].vote);
    SignedGrows(sys, ws, evs, e, j);
    BackersGrow(sys, ws[e].signed, ws[j].signed, epoch, k.0, k.1);
  }

  lemma {:induction false} QuorumBacks(sys: System, ws: seq<World>, evs: seq<Event>, i: nat, j: nat, n: Name, epoch: nat, k: Key, voters: set<Name>)
    requires Run(sys, ws, evs) && Premises(ws, evs) && i <= j < |ws| && sys.cfg.c.Weight(voters) >= sys.cfg.c.QuorumThreshold()
    requires forall a :: a in voters ==> Arrived(sys.cfg.c, evs, i, j, n, epoch, k, a)
    ensures Certified(sys, ws[j].signed, epoch, k.0, k.1)
  {
    forall a | a in voters ensures a in Backers(sys, ws[j].signed, epoch, k.0, k.1) {
      ArrivedBacks(sys, ws, evs, i, j, n, epoch, k, a);
    }
    WeightMonotone(sys.cfg.c, voters, Backers(sys, ws[j].signed, epoch, k.0, k.1));
  }

  lemma {:induction false} StandsOn(sys: System, w: World, n: Name, k: Key)
    requires Inv(sys, w) && n in w.nodes && w.nodes[n].height == k.0 + 1 && Certified(sys, w.signed, w.nodes[n].epoch, k.0, k.1)
    ensures w.nodes[n].highQC.height == k.0 && w.nodes[n].highQC.hash == k.1 && !w.nodes[n].highQC.IsGenesis()
  {
    var s := w.nodes[n];
    assert NodeOk(sys, w.signed, s);
    CertifiedBlock(sys, w.signed, s.epoch, k.0, k.1);
    CertifiedUnique(sys, w.signed, s.epoch, k.0, k.1, s.highQC.hash);
  }

  /** Under the hypotheses, at the height right after the block's the node's highest certificate is one
      of that block. */
  lemma {:induction false} QuorumNames(sys: System, ws: seq<World>, evs: seq<Event>, i: nat, j: nat, n: Name, k: Key, voters: set<Name>)
    requires Run(sys, ws, evs) && Premises(ws, evs) && i <= j < |ws| && n in ws[j].nodes && ws[j].nodes[n].height == k.0 + 1
    requires sys.cfg.c.Weight(voters) >= sys.cfg.c.QuorumThreshold()
    requires forall a :: a in voters ==> Arrived(sys.cfg.c, evs, i, j, n, ws[j].nodes[n].epoch, k, a)
    ensures ws[j].nodes[n].highQC.height == k.0 && ws[j].nodes[n].highQC.hash == k.1 && !ws[j].nodes[n].highQC.IsGenesis()
  {
    QuorumBacks(sys, ws, evs, i, j, n, ws[j].nodes[n].epoch, k, voters);
    RunInv(sys, ws, evs, j);
    StandsOn(sys, ws[j], n, k);
  }

  // ----- and that it verifies -----

  /** Votes for one block agree on everything that is signed. */
  ghost predicate Labelled(evs: seq<Event>, meaning: Key -> Digest) {
    forall e :: 0 <= e < |evs| && evs[e].Vote? ==> evs[e].vote.Digest() == meaning((evs[e].vote.height, evs[e].vote.hash))
  }

  ghost predicate SignedAlike(makers: map<Key, Maker>, meaning: Key -> Digest) {
    forall k: Key, i :: k in makers && 0 <= i < |makers[k].votes| ==> makers[k].votes[i].1.digest == meaning(k)
  }

  ghost predicate HoldsValid(c: Committee, s: Node, meaning: Key -> Digest)
    requires c.HasStake()
  {
    SignedAlike(s.makers, meaning) && (s.highQC.IsGenesis() || ValidQC(c, s.highQC))
  }

  lemma {:induction false} QCHolds(c: Committee, s: Node, qc: QC, meaning: Key -> Digest)
    requires c.HasStake() && Sound(c, s) && HoldsValid(c, s, meaning) && (qc.IsGenesis() || ValidQC(c, qc))
    ensures HoldsValid(c, ProcessQC(s, qc), meaning)
  {
    AdvanceEffect(s, qc);
  }

  lemma {:induction false} VoteAlike(c: Committee, s: Node, vote: HVote, meaning: Key -> Digest)
    requires c.HasStake() && SignedAlike(s.makers, meaning) && vote.Verified(c) && vote.Digest() == meaning((vote.height, vote.hash))
    ensures SignedAlike(WithVote(c, s, vote).makers, meaning)
  {
  }

  lemma {:induction false} VoteHolds(cfg: Config, s: Node, vote: HVote, meaning: Key -> Digest)
    requires cfg.Valid() && s.name in cfg.elector.names && Sound(cfg.c, s) && HoldsValid(cfg.c, s, meaning)
    requires vote.Digest() == meaning((vote.height, vote.hash))
    ensures HoldsValid(cfg.c, HandleOptVote(cfg, s, vote), meaning)
  {
    VoteEffect(cfg, s, vote);
    if Taken(cfg, s, vote) {
      VoteMoves(cfg, s, vote);
      VoteAlike(cfg.c, s, vote, meaning);
      AdvanceEffect(WithVote(cfg.c, s, vote), FullCertificate(s, vote));
    }
  }

  lemma {:induction false} ProposalHolds(cfg: Config, s: Node, block: Block, status: PayloadStatus, prep: PrepareEffect, meaning: Key -> Digest)
    requires cfg.Valid() && Sound(cfg.c, s) && HoldsValid(cfg.c, s, meaning)
    ensures HoldsValid(cfg.c, HandleOptProposal(cfg, s, block, status, prep).0, meaning)
  {
    if VerifiedBlock(cfg.c, block) {
      var t := ProcessQC(s, block.qc);
      QCHolds(cfg.c, s, block.qc, meaning);
      QCSteady(cfg.c, s, block.qc, (0, Zero));
      PayloadKeeps(t, block, status, prep);
      assert HoldsValid(cfg.c, AfterPayload(t, block, status, prep).0, meaning);
    }
  }

  lemma {:induction false} ReactHolds(sys: System, s: Node, ev: Event, meaning: Key -> Digest)
    requires sys.Valid() && s.name in sys.cfg.c.authorities && Sound(sys.cfg.c, s) && HoldsValid(sys.cfg.c, s, meaning)
    requires ev.Vote? ==> ev.vote.Digest() == meaning((ev.vote.height, ev.vote.hash))
    ensures HoldsValid(sys.cfg.c, React(sys, s, ev).0, meaning)
  {
    match ev
    case Proposal(_, block, status, prep) => ProposalHolds(sys.cfg, s, block, status, prep, meaning);
    case LoopBack(_, block, prep) => ProcessKeeps(s, block, prep);
    case Vote(_, vote) => VoteHolds(sys.cfg, s, vote, meaning);
    case Propose(_, payload, prep) => ProcessKeeps(s, OwnProposal(s, payload), prep);
    case FastPath(_, qc) => FastKeeps(s, qc);
    case _ =>
  }

  lemma {:induction false} StepHolds(sys: System, w: World, ev: Event, w': World, n: Name, meaning: Key -> Digest)
    requires Ready(sys, w) && Enabled(sys, w, ev) && w' == Apply(sys, w, ev) && n in w.nodes
    requires Sound(sys.cfg.c, w.nodes[n]) && HoldsValid(sys.cfg.c, w.nodes[n], meaning)
    requires ev.Vote? ==> ev.vote.Digest() == meaning((ev.vote.height, ev.vote.hash))
    ensures n in w'.nodes && HoldsValid(sys.cfg.c, w'.nodes[n], meaning)
  {
    ReactHolds(sys, w.nodes[n], ev, meaning);
  }

  ghost predicate HoldsAt(c: Committee, w: World, n: Name, meaning: Key -> Digest)
    requires c.HasStake()
  {
    n in w.nodes && HoldsValid(c, w.nodes[n], meaning)
  }

  lemma {:induction false} HoldsOn(c: Committee, ws: seq<World>, i: nat, n: Name, meaning: Key -> Digest)
    requires c.HasStake() && i < |ws| && HoldsAt(c, ws[0], n, meaning)
    requires forall e :: 0 <= e < |ws| - 1 && HoldsAt(c, ws[e], n, meaning) ==> HoldsAt(c, ws[e + 1], n, meaning)
    ensures HoldsAt(c, ws[i], n, meaning)
  {
    if i > 0 {
      HoldsOn(c, ws, i - 1, n, meaning);
      assert HoldsAt(c, ws[i - 1 + 1], n, meaning);
    }
  }

  lemma {:induction false} RunHolds(sys: System, ws: seq<World>, evs: seq<Event>, i: nat, n: Name, meaning: Key -> Digest)
    requires Run(sys, ws, evs) && i < |ws| && n in sys.Correct() && Labelled(evs, meaning)
    ensures HoldsAt(sys.cfg.c, ws[i], n, meaning)
  {
    assert ws[0].nodes[n] == InitNode(n);
    forall e | 0 <= e < |ws| - 1 && HoldsAt(sys.cfg.c, ws[e], n, meaning) ensures HoldsAt(sys.cfg.c, ws[e + 1], n, meaning) {
      RunSound(sys, ws, evs, e, n);
      StepHolds(sys, ws[e], evs[e], ws[e + 1], n, meaning);
    }
    HoldsOn(sys.cfg.c, ws, i, n, meaning);
  }

  /** A quorum of votes for one block at a leader of the next height: the node leaves the block's height,
      and one height up it stands on a certificate of that block that verifies. */
  lemma {:induction false} QuorumCertifies(sys: System, ws: seq<World>, evs: seq<Event>, i: nat, j: nat, n: Name, k: Key, voters: set<Name>, meaning: Key -> Digest)
    requires Run(sys, ws, evs) && Premises(ws, evs) && Labelled(evs, meaning)
    requires i <= j < |ws| && n in sys.Correct() && n in ws[i].nodes && n in ws[j].nodes && Leads(sys, n, k.0 + 1)
    requires ws[i].nodes[n].epoch == ws[j].nodes[n].epoch && sys.cfg.c.Weight(voters) >= sys.cfg.c.QuorumThreshold()
    requires forall a :: a in voters ==> Arrived(sys.cfg.c, evs, i, j, n, ws[i].nodes[n].epoch, k, a)
    ensures var s := ws[j].nodes[n];
            && s.height > k.0
            && (s.height == k.0 + 1 ==> s.highQC.height == k.0 && s.highQC.hash == k.1 && ValidQC(sys.cfg.c, s.highQC))
  {
    QuorumAdvances(sys, ws, evs, i, j, n, k, voters);
    if ws[j].nodes[n].height == k.0 + 1 {
      QuorumNames(sys, ws, evs, i, j, n, k, voters);
      RunHolds(sys, ws, evs, j, n, meaning);
    }
  }

  /** The block that a node with stake would propose, in any world of such a run, passes verification at
      every node, carries the payload asked for and stands on the node's highest certificate. */
  lemma {:induction false} OwnProposalVerifies(sys: System, ws: seq<World>, evs: seq<Event>, i: nat, n: Name, payload: seq<nat>, meaning: Key -> Digest)
    requires Run(sys, ws, evs) && Labelled(evs, meaning) && i < |ws| && n in sys.Correct() && n in ws[i].nodes && sys.cfg.c.Stake(n) > 0
    ensures var s := ws[i].nodes[n]; var b := OwnProposal(s, payload);
            && VerifiedBlock(sys.cfg.c, b) && b.payload == payload && b.author == n && b.epoch == s.epoch && b.tag == OPT
            && b.height == b.qc.height + 1 && b.qc.hash == s.highQC.hash
  {
    RunHolds(sys, ws, evs, i, n, meaning);
    RunSound(sys, ws, evs, i, n);
  }

  /** The fallback route stores and votes for a block exactly if it is in time; a block that the agreement
      outputs is stored. */
  lemma {:induction false} RouteEffect(sys: System, s: Node, n: Name, block: Block)
    requires sys.Valid() && Keyed(s.store) && s.name in sys.cfg.c.authorities
    ensures var (t, vote) := React(sys, s, Fallback(n, block));
            if s.height < block.height + 2 && s.epoch <= block.epoch
            then && t == s.(store := s.store[block.Digest() := block])
                 && vote.Some? && vote.value.hash == block.Digest() && vote.value.author == s.name && vote.value.tag == PES
                 && (vote.value.height, vote.value.round, vote.value.epoch, vote.value.proposer) == (block.height, block.round, block.epoch, block.author)
                 && vote.value.signature == Signature(s.name, vote.value.Digest())
            else t == s && vote.None?
    ensures var (t, vote) := React(sys, s, ParOut(n, block)); vote.None? && t == s.(store := s.store[block.Digest() := block])
  {
  }

  // ----- three blocks in a row -----

  /** The event makes the node process the block. */
  ghost predicate Processes(cfg: Config, s: Node, ev: Event, block: Block, prep: PrepareEffect)
    requires cfg.Valid()
  {
    match ev
    case Proposal(_, b, status, p) =>
      && b == block && p == prep && status.Accept? && block.epoch == s.epoch && block.author in cfg.elector.names
      && VerifiedBlock(cfg.c, block) && cfg.elector.IndexAsLeader(block.author, block.height).Some?
    case LoopBack(_, b, p) => b == block && p == prep
    case Propose(_, payload, p) =>
      p == prep && block == OwnProposal(s, payload) && s.name in cfg.elector.names && cfg.elector.IndexAsLeader(s.name, s.height).Some?
    case _ => false
  }

  lemma {:induction false} ReactCommits(sys: System, s: Node, ev: Event, b0: Block, block: Block, prep: PrepareEffect)
    requires sys.Valid() && Keyed(s.store) && s.name in sys.cfg.c.authorities
    requires Processes(sys.cfg, s, ev, block, prep) && !prep.failed && Linked(s.store, b0, block)
    ensures React(sys, s, ev).0.lastCommitted >= b0.height
  {
    if ev.Proposal? {
      ProcessCommits(ProcessQC(s, block.qc), b0, block, prep);
    } else {
      ProcessCommits(s, b0, block, prep);
    }
  }

  /** The entry of a log that is a certified chain, at the height of a certified block. */
  lemma {:induction false} LogEntry(sys: System, signed: set<Signature>, e: nat, log: seq<Digest>, b: Block)
    requires sys.Valid() && VotesOk(sys, signed) && OncePerHeight(signed) && LogIsChain(sys, signed, e, log)
    requires 0 < b.height <= |log| && Certified(sys, signed, e, b.height, b.Digest())
    ensures log[b.height - 1] == b.Digest()
  {
    OneChain(sys, signed, e, b.height, b.Digest(), |log|, log[|log| - 1]);
    ChainLength(sys, signed, e, b.height, b.Digest());
    assert Chain(b.Digest())[b.height - 1] == b.Digest();
  }

  /** The grandparent of a block that a node processes in a run is certified. */
  lemma {:induction false} LinkedCertified(sys: System, w: World, ev: Event, s: Node, b0: Block, block: Block, prep: PrepareEffect)
    requires Ready(sys, w) && VotesOk(sys, w.signed) && Enabled(sys, w, ev) && s == w.nodes[ev.n] && NodeOk(sys, w.signed, s) && Premise(s, ev)
    requires Processes(sys.cfg, s, ev, block, prep) && Linked(s.store, b0, block) && b0.height > 0
    ensures Certified(sys, w.signed, s.epoch, b0.height, b0.Digest())
  {
    if ev.Propose? {
      OwnFits(sys, w.signed, s, ev.payload);
    } else {
      if ev.Proposal? {
        assert CheckedQC(sys, w.signed, block.qc);
      }
      BackedFits(sys, w.signed, block);
    }
    GrandparentCertified(sys, w.signed, s.epoch, s.store, block, ParentOf(s.store, block).value, b0);
  }

  /** A block whose parent and grandparent the node has, on consecutive heights, gets its grandparent
      committed when it is processed without failure: the mark is past it, and the log entry of its
      height is the grandparent. */
  lemma {:induction false} TwoChainCommits(sys: System, ws: seq<World>, evs: seq<Event>, i: nat, b0: Block, block: Block, prep: PrepareEffect)
    requires Run(sys, ws, evs) && Premises(ws, evs) && i < |evs| && forall e :: 0 <= e < |evs| ==> TagPremise(evs[e])
    requires evs[i].n in ws[i].nodes && Processes(sys.cfg, ws[i].nodes[evs[i].n], evs[i], block, prep) && !prep.failed
    requires Linked(ws[i].nodes[evs[i].n].store, b0, block)
    ensures evs[i].n in ws[i + 1].nodes
    ensures var t := ws[i + 1].nodes[evs[i].n];
            && t.lastCommitted == |Log(t.segments)| >= block.height - 2
            && (b0.height > 0 ==> Log(t.segments)[block.height - 3] == b0.Digest())
  {
    var n := evs[i].n;
    var s := ws[i].nodes[n];
    RunInv(sys, ws, evs, i);
    RunLogInv(sys, ws, evs, i + 1);
    ReactCommits(sys, s, evs[i], b0, block, prep);
    assert ws[i + 1].nodes[n] == React(sys, s, evs[i]).0;
    if b0.height > 0 {
      LinkedCertified(sys, ws[i], evs[i], s, b0, block, prep);
      SignedGrows(sys, ws, evs, i, i + 1);
      CertifiedGrows(sys, ws[i].signed, ws[i + 1].signed, s.epoch, b0.height, b0.Digest());
      StayEpoch(sys, s, evs[i], block, prep);
      LogEntry(sys, ws[i + 1].signed, s.epoch, Log(ws[i + 1].nodes[n].segments), b0);
    }
  }

  lemma {:induction false} StayEpoch(sys: System, s: Node, ev: Event, block: Block, prep: PrepareEffect)
    requires sys.Valid() && Keyed(s.store) && s.name in sys.cfg.c.authorities && Processes(sys.cfg, s, ev, block, prep)
    ensures React(sys, s, ev).0.epoch == s.epoch
  {
    if ev.Proposal? {
      ProcessKeeps(ProcessQC(s, block.qc), block, prep);
    } else {
      ProcessKeeps(s, block, prep);
    }
  }
}
