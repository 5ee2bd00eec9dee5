/** The commit logs of the optimistic path are the certified chain itself. */
module OptLogs {
  import opened Committees
  import opened Messages
  import opened OptNode
  import opened OptProtocol
  import opened OptSafety

  /** Blocks travel under their own tag: optimistic ones as proposals, the others on the fallback
      route. The handlers do not compare the tag with the route. */
  ghost predicate TagPremise(ev: Event) {
    match ev
    case Proposal(_, block, _, _) => block.tag == OPT
    case Fallback(_, block) => block.tag != OPT
    case _ => true
  }

  ghost predicate TagVotes(signed: set<Signature>) {
    forall sig :: sig in signed && OptVote(sig) ==> sig.digest.hash.BlockDigest? && sig.digest.hash.tag == OPT
  }

  ghost predicate HasParent(store: map<Digest, Block>, b: Block) {
    b.qc.IsGenesis() || b.qc.hash in store
  }

  /** The optimistic part of the store is closed under parents. */
  ghost predicate Closed(store: map<Digest, Block>) {
    forall d :: d in store && store[d].tag == OPT ==> HasParent(store, store[d])
  }

  /** A log that is exactly the path from the first block of the epoch to a certified tip. */
  ghost predicate LogIsChain(sys: System, signed: set<Signature>, e: nat, log: seq<Digest>)
    requires sys.cfg.c.HasStake()
  {
    log != [] ==> log == Chain(log[|log| - 1]) && Certified(sys, signed, e, |log|, log[|log| - 1])
  }

  ghost predicate LogsOk(sys: System, signed: set<Signature>, s: Node)
    requires sys.cfg.c.HasStake()
  {
    && s.crash != MissingAncestor
    && Closed(s.store)
    && (forall b :: b in s.suspended ==> b.tag == OPT)
    && |Log(s.segments)| == s.lastCommitted && LogIsChain(sys, signed, s.epoch, Log(s.segments))
    && forall e :: 0 <= e < |s.past| ==> LogIsChain(sys, signed, e, s.past[e])
  }

  lemma {:induction false} LogIsChainGrows(sys: System, signed: set<Signature>, signed': set<Signature>, e: nat, log: seq<Digest>)
    requires sys.cfg.c.HasStake() && signed <= signed' && LogIsChain(sys, signed, e, log)
    ensures LogIsChain(sys, signed', e, log)
  {
    if log != [] {
      CertifiedGrows(sys, signed, signed', e, |log|, log[|log| - 1]);
    }
  }

  lemma {:induction false} LogsOkGrows(sys: System, signed: set<Signature>, signed': set<Signature>, s: Node)
    requires sys.cfg.c.HasStake() && signed <= signed' && LogsOk(sys, signed, s)
    ensures LogsOk(sys, signed', s)
  {
    LogIsChainGrows(sys, signed, signed', s.epoch, Log(s.segments));
    forall e | 0 <= e < |s.past| ensures LogIsChain(sys, signed', e, s.past[e]) {
      LogIsChainGrows(sys, signed, signed', e, s.past[e]);
    }
  }

  lemma {:induction false} CertifiedTag(sys: System, signed: set<Signature>, e: nat, h: nat, x: Digest)
    requires sys.Valid() && TagVotes(signed) && Certified(sys, signed, e, h, x)
    ensures x.BlockDigest? && x.tag == OPT
  {
    var sig := QuorumHasCorrectBacker(sys, signed, e, h, x);
  }

  /** A certified block whose certificate is the genesis one stands at height one. */
  lemma {:induction false} FirstBlock(sys: System, signed: set<Signature>, e: nat, b: Block)
    requires sys.Valid() && VotesOk(sys, signed) && Certified(sys, signed, e, b.height, b.Digest()) && b.qc.IsGenesis()
    ensures b.height == 1
  {
    CertifiedBlock(sys, signed, e, b.height, b.Digest());
    if b.height > 1 {
      CertifiedBlock(sys, signed, e, b.height - 1, Zero);
    }
  }

  /** The walk from a certified block never breaks off, and read backwards it is the part of the
      block's chain above the last committed height. */
  lemma {:induction false} WalkIsChain(sys: System, signed: set<Signature>, e: nat, store: map<Digest, Block>, b: Block, committed: nat)
    requires sys.Valid() && VotesOk(sys, signed) && TagVotes(signed) && Keyed(store) && Closed(store)
    requires Certified(sys, signed, e, b.height, b.Digest()) && HasParent(store, b) && committed <= b.height
    ensures |Chain(b.Digest())| == b.height
    ensures OldestFirst(Walk(store, b, committed)) == Chain(b.Digest())[committed..]
    ensures WalkBreak(store, b, committed).None?
    decreases b.Digest()
  {
    ChainLength(sys, signed, e, b.height, b.Digest());
    if b.height > committed {
      if b.qc.IsGenesis() {
        FirstBlock(sys, signed, e, b);
      } else {
        var p := store[b.qc.hash];
        ParentCertified(sys, signed, e, store, b);
        CertifiedTag(sys, signed, e, p.height, p.Digest());
        assert p.tag == OPT && HasParent(store, p);
        WalkIsChain(sys, signed, e, store, p, committed);
        assert Walk(store, b, committed) == [b.Digest()] + Walk(store, p, committed);
        assert Walk(store, b, committed)[1..] == Walk(store, p, committed);
        assert Chain(b.Digest())[committed..] == Chain(p.Digest())[committed..] + [b.Digest()];
      }
    }
  }

  /** Extending the log by a walk turns it into the chain of the committed block. */
  lemma {:induction false} ExtendedLog(sys: System, signed: set<Signature>, s: Node, b: Block)
    requires sys.Valid() && VotesOk(sys, signed) && TagVotes(signed) && OncePerHeight(signed)
    requires Keyed(s.store) && Closed(s.store)
    requires |Log(s.segments)| == s.lastCommitted && LogIsChain(sys, signed, s.epoch, Log(s.segments))
    requires Certified(sys, signed, s.epoch, b.height, b.Digest()) && HasParent(s.store, b) && b.height > s.lastCommitted
    ensures WalkBreak(s.store, b, s.lastCommitted).None?
    ensures Log(s.segments + [Walk(s.store, b, s.lastCommitted)]) == Chain(b.Digest()) && |Chain(b.Digest())| == b.height
  {
    var log := Log(s.segments);
    var lc := s.lastCommitted;
    WalkIsChain(sys, signed, s.epoch, s.store, b, lc);
    LogSnoc(s.segments, Walk(s.store, b, lc));
    if log != [] {
      OneChain(sys, signed, s.epoch, lc, log[lc - 1], b.height, b.Digest());
    }
    assert log == Chain(b.Digest())[..lc];
  }

  lemma {:induction false} CommitLog(sys: System, signed: set<Signature>, s: Node, b: Block)
    requires sys.Valid() && VotesOk(sys, signed) && TagVotes(signed) && OncePerHeight(signed)
    requires Keyed(s.store) && LogsOk(sys, signed, s)
    requires Certified(sys, signed, s.epoch, b.height, b.Digest()) && HasParent(s.store, b) && b.height > s.lastCommitted
    ensures LogsOk(sys, signed, Commit(s, b))
  {
    ExtendedLog(sys, signed, s, b);
    var t := Commit(s, b);
    assert t.suspended == s.suspended && t.past == s.past && t.store == s.store;
    assert Log(t.segments)[b.height - 1] == b.Digest();
  }

  lemma {:induction false} FastCommitLog(sys: System, signed: set<Signature>, s: Node, qc: QC)
    requires sys.Valid() && VotesOk(sys, signed) && TagVotes(signed) && OncePerHeight(signed)
    requires Keyed(s.store) && LogsOk(sys, signed, s)
    requires CheckedQC(sys, signed, qc) && OptQC(s.epoch, qc)
    ensures LogsOk(sys, signed, FastCommit(s, qc))
  {
    if qc.hash in s.store {
      var b := s.store[qc.hash];
      assert b.Digest() == qc.hash;
      ValidQCCertifies(sys, signed, qc);
      CertifiedBlock(sys, signed, qc.epoch, qc.height, qc.hash);
      CertifiedTag(sys, signed, qc.epoch, qc.height, qc.hash);
      if b.height > s.lastCommitted {
        CommitLog(sys, signed, s, b);
      }
    }
  }

  /** Processing a block always finds its grandparent: the expectation that all ancestors of a
      delivered block are present holds. */
  lemma {:induction false} AncestorsPresent(sys: System, signed: set<Signature>, s: Node, block: Block, b1: Block) returns (b0: Block)
    requires sys.Valid() && VotesOk(sys, signed) && TagVotes(signed) && Keyed(s.store) && LogsOk(sys, signed, s)
    requires Fit(sys, signed, block) && ParentOf(s.store, block) == Some(b1)
    ensures ParentOf(s.store, b1) == Some(b0)
    ensures b0.height > 0 ==> Certified(sys, signed, block.epoch, b0.height, b0.Digest()) && HasParent(s.store, b0)
  {
    if block.qc.IsGenesis() {
      b0 := GENESIS;
    } else {
      assert b1.Digest() == block.qc.hash;
      CertifiedTag(sys, signed, block.epoch, b1.height, b1.Digest());
      assert HasParent(s.store, b1);
      b0 := if b1.qc.IsGenesis() then GENESIS else s.store[b1.qc.hash];
      if b0.height > 0 {
        GrandparentCertified(sys, signed, block.epoch, s.store, block, b1, b0);
        CertifiedTag(sys, signed, block.epoch, b0.height, b0.Digest());
      }
    }
  }

  lemma {:induction false} StoreClosed(s: Node, block: Block)
    requires Keyed(s.store) && Closed(s.store) && (block.tag == OPT ==> HasParent(s.store, block))
    ensures Closed(StoreBlock(s, block).store)
  {
  }

  lemma {:induction false} CommitAndVoteLog(sys: System, signed: set<Signature>, s: Node, b0: Block, b1: Block, block: Block)
    requires sys.Valid() && VotesOk(sys, signed) && TagVotes(signed) && OncePerHeight(signed)
    requires Keyed(s.store) && LogsOk(sys, signed, s)
    requires b0.height > 0 ==> Certified(sys, signed, s.epoch, b0.height, b0.Digest()) && HasParent(s.store, b0)
    ensures LogsOk(sys, signed, CommitAndVote(s, b0, b1, block).0)
  {
    if b0.height > s.lastCommitted {
      CommitLog(sys, signed, s, b0);
    }
  }

  ghost predicate GoodLogs(sys: System, signed: set<Signature>, t: Node, vote: Option<HVote>)
    requires sys.cfg.c.HasStake()
  {
    LogsOk(sys, signed, t) && (vote.Some? && vote.value.tag == OPT ==> vote.value.hash.BlockDigest? && vote.value.hash.tag == OPT)
  }

  lemma {:induction false} ProcessLog(sys: System, signed: set<Signature>, s: Node, block: Block, prep: PrepareEffect)
    requires sys.Valid() && VotesOk(sys, signed) && TagVotes(signed) && OncePerHeight(signed)
    requires Keyed(s.store) && LogsOk(sys, signed, s)
    requires block.epoch == s.epoch && block.tag == OPT && Fit(sys, signed, block)
    requires PrepEnabled(sys, signed, prep) && PrepPremise(s.epoch, prep)
    ensures var (t, vote) := ProcessOptBlock(s, block, prep); GoodLogs(sys, signed, t, vote)
  {
    var b1 := ParentOf(s.store, block);
    if b1.Some? {
      var b0 := AncestorsPresent(sys, signed, s, block, b1.value);
      var t := StoreBlock(s, block);
      StoreClosed(s, block);
      assert LogsOk(sys, signed, t);
      if prep.fast.Some? {
        FastCommitLog(sys, signed, t, prep.fast.value);
      }
      var u := if prep.fast.Some? then FastCommit(t, prep.fast.value) else t;
      if !prep.failed {
        CommitAndVoteLog(sys, signed, u, b0, b1.value, block);
        VoteRules(u, b0, b1.value, block);
      }
    }
  }

  lemma {:induction false} EpochInitLog(sys: System, signed: set<Signature>, s: Node)
    requires sys.Valid() && |s.past| == s.epoch && LogsOk(sys, signed, s)
    ensures LogsOk(sys, signed, EpochInit(s))
  {
  }

  lemma {:induction false} QCLog(sys: System, signed: set<Signature>, s: Node, qc: QC)
    requires sys.Valid() && LogsOk(sys, signed, s)
    ensures LogsOk(sys, signed, ProcessQC(s, qc))
  {
  }

  lemma {:induction false} VoteLog(sys: System, signed: set<Signature>, s: Node, vote: HVote)
    requires sys.Valid() && s.name in sys.cfg.elector.names && LogsOk(sys, signed, s)
    ensures LogsOk(sys, signed, HandleOptVote(sys.cfg, s, vote))
  {
  }

  lemma {:induction false} PayloadLog(sys: System, signed: set<Signature>, s: Node, block: Block, status: PayloadStatus, prep: PrepareEffect)
    requires sys.Valid() && VotesOk(sys, signed) && TagVotes(signed) && OncePerHeight(signed)
    requires Keyed(s.store) && LogsOk(sys, signed, s)
    requires block.epoch == s.epoch && block.tag == OPT && Fit(sys, signed, block)
    requires PrepEnabled(sys, signed, prep) && PrepPremise(s.epoch, prep)
    ensures var (t, vote) := AfterPayload(s, block, status, prep); GoodLogs(sys, signed, t, vote)
  {
    if status.Accept? {
      ProcessLog(sys, signed, s, block, prep);
    }
  }

  lemma {:induction false} ProposalLog(sys: System, signed: set<Signature>, s: Node, block: Block, status: PayloadStatus, prep: PrepareEffect)
    requires sys.Valid() && VotesOk(sys, signed) && TagVotes(signed) && OncePerHeight(signed)
    requires Keyed(s.store) && |s.past| == s.epoch && LogsOk(sys, signed, s)
    requires KnownQC(sys, signed, block.qc) && PrepEnabled(sys, signed, prep)
    requires OptQC(block.epoch, block.qc) && PrepPremise(s.epoch, prep) && block.tag == OPT
    ensures var (t, vote) := HandleOptProposal(sys.cfg, s, block, status, prep); GoodLogs(sys, signed, t, vote)
  {
    if block.epoch > s.epoch {
      EpochInitLog(sys, signed, s);
    } else if block.epoch == s.epoch && VerifiedBlock(sys.cfg.c, block) {
      var t := ProcessQC(s, block.qc);
      QCLog(sys, signed, s, block.qc);
      BackedFits(sys, signed, block);
      PayloadLog(sys, signed, t, block, status, prep);
    }
  }

  lemma {:induction false} LogReaction(sys: System, w: World, ev: Event)
    requires Ready(sys, w) && VotesOk(sys, w.signed) && TagVotes(w.signed) && OncePerHeight(w.signed)
    requires Enabled(sys, w, ev) && Premise(w.nodes[ev.n], ev) && TagPremise(ev)
    requires NodeOk(sys, w.signed, w.nodes[ev.n]) && LogsOk(sys, w.signed, w.nodes[ev.n])
    ensures var (t, vote) := React(sys, w.nodes[ev.n], ev); GoodLogs(sys, w.signed, t, vote)
  {
    var s := w.nodes[ev.n];
    match ev
    case Proposal(_, block, status, prep) =>
      ProposalLog(sys, w.signed, s, block, status, prep);
    case LoopBack(_, block, prep) =>
      BackedFits(sys, w.signed, block);
      ProcessLog(sys, w.signed, s, block, prep);
    case Vote(_, vote) =>
      VoteLog(sys, w.signed, s, vote);
    case Propose(_, payload, prep) =>
      OwnFits(sys, w.signed, s, payload);
      ProcessLog(sys, w.signed, s, OwnProposal(s, payload), prep);
    case FastPath(_, qc) =>
      FastCommitLog(sys, w.signed, s, qc);
    case Fallback(_, block) =>
      StoreClosed(s, block);
    case ParOut(_, block) =>
      StoreClosed(s, block);
    case EpochEnd(_) =>
      EpochInitLog(sys, w.signed, s);
  }

  ghost predicate LogInv(sys: System, w: World) {
    && Inv(sys, w) && TagVotes(w.signed)
    && forall n :: n in w.nodes ==> LogsOk(sys, w.signed, w.nodes[n])
  }

  lemma {:induction false} TagsKept(sys: System, signed: set<Signature>, s: Node, t: Node, vote: Option<HVote>)
    requires sys.cfg.c.HasStake() && TagVotes(signed) && GoodReaction(sys, signed, s, t, vote) && GoodLogs(sys, signed, t, vote)
    ensures TagVotes(SignedAfter(signed, vote)) && LogsOk(sys, SignedAfter(signed, vote), t)
  {
    LogsOkGrows(sys, signed, SignedAfter(signed, vote), t);
  }

  lemma {:induction false} LogsAfter(sys: System, w: World, n: Name, t: Node, vote: Option<HVote>)
    requires LogInv(sys, w) && n in w.nodes
    requires GoodReaction(sys, w.signed, w.nodes[n], t, vote) && GoodLogs(sys, w.signed, t, vote)
    ensures LogInv(sys, World(w.nodes[n := t], SignedAfter(w.signed, vote)))
  {
    WorldAfter(sys, w, n, t, vote);
    TagsKept(sys, w.signed, w.nodes[n], t, vote);
    forall m | m in w.nodes && m != n ensures LogsOk(sys, SignedAfter(w.signed, vote), w.nodes[m]) {
      LogsOkGrows(sys, w.signed, SignedAfter(w.signed, vote), w.nodes[m]);
    }
  }

  lemma {:induction false} LogPreserved(sys: System, w: World, ev: Event)
    requires LogInv(sys, w) && Enabled(sys, w, ev) && Premise(w.nodes[ev.n], ev) && TagPremise(ev)
    ensures LogInv(sys, Apply(sys, w, ev))
  {
    var (t, vote) := React(sys, w.nodes[ev.n], ev);
    Reaction(sys, w, ev);
    LogReaction(sys, w, ev);
    LogsAfter(sys, w, ev.n, t, vote);
  }

  lemma {:induction false} RunLogInv(sys: System, ws: seq<World>, evs: seq<Event>, i: nat)
    requires Run(sys, ws, evs) && Premises(ws, evs) && i < |ws|
    requires forall k :: 0 <= k < |evs| ==> TagPremise(evs[k])
    ensures LogInv(sys, ws[i])
  {
    if i == 0 {
      RunInv(sys, ws, evs, 0);
    } else {
      RunLogInv(sys, ws, evs, i - 1);
      LogPreserved(sys, ws[i - 1], evs[i - 1]);
    }
  }

  /** Commit log refinement: in every world of a run, every log of a correct node is exactly the
      chain from the first block of the epoch to the node's last committed block, and no node ever
      misses an ancestor. */
  lemma {:induction false} LogsAreChains(sys: System, ws: seq<World>, evs: seq<Event>, i: nat, n: Name, e: nat)
    requires Run(sys, ws, evs) && Premises(ws, evs) && i < |ws| && n in ws[i].nodes
    requires forall k :: 0 <= k < |evs| ==> TagPremise(evs[k])
    ensures var s := ws[i].nodes[n]; var log := LogAt(s, e);
            && s.crash != MissingAncestor
            && (log != [] ==> log == Chain(log[|log| - 1]))
            && (e == s.epoch ==> |log| == s.lastCommitted)
            && LogIsChain(sys, ws[|evs|].signed, e, log)
  {
    RunLogInv(sys, ws, evs, i);
    SignedGrows(sys, ws, evs, i, |evs|);
    LogIsChainGrows(sys, ws[i].signed, ws[|evs|].signed, e, LogAt(ws[i].nodes[n], e));
  }

  lemma {:induction false} ShorterIsPrefix(sys: System, signed: set<Signature>, e: nat, a: seq<Digest>, b: seq<Digest>)
    requires sys.Valid() && VotesOk(sys, signed) && OncePerHeight(signed) && |a| <= |b|
    requires LogIsChain(sys, signed, e, a) && LogIsChain(sys, signed, e, b)
    ensures a <= b
  {
    if a != [] {
      OneChain(sys, signed, e, |a|, a[|a| - 1], |b|, b[|b| - 1]);
    }
  }

  /** The logs two correct nodes have for an epoch, at whatever times, are prefixes of one another. */
  lemma {:induction false} LogsAreComparable(sys: System, ws: seq<World>, evs: seq<Event>, i: nat, n: Name, j: nat, m: Name, e: nat)
    requires Run(sys, ws, evs) && Premises(ws, evs)
    requires forall k :: 0 <= k < |evs| ==> TagPremise(evs[k])
    requires i < |ws| && n in ws[i].nodes && j < |ws| && m in ws[j].nodes
    ensures var a, b := LogAt(ws[i].nodes[n], e), LogAt(ws[j].nodes[m], e); a <= b || b <= a
  {
    var a, b := LogAt(ws[i].nodes[n], e), LogAt(ws[j].nodes[m], e);
    LogsAreChains(sys, ws, evs, i, n, e);
    LogsAreChains(sys, ws, evs, j, m, e);
    RunInv(sys, ws, evs, |evs|);
    if |a| <= |b| {
      ShorterIsPrefix(sys, ws[|evs|].signed, e, a, b);
    } else {
      ShorterIsPrefix(sys, ws[|evs|].signed, e, b, a);
    }
  }
}
