/** All nodes on the optimistic path together: correct nodes run the handlers of OptNode, faulty
    authorities send whatever they can sign, and every message may be delivered at any time, in
    any order and any number of times. */
module OptProtocol {
  import opened Committees
  import opened Messages
  import opened Aggregation
  import opened OptNode

  /** The correct nodes and every signature they have ever made. */
  datatype World = World(nodes: map<Name, Node>, signed: set<Signature>)

  datatype Event =
    | Proposal(n: Name, block: Block, status: PayloadStatus, prep: PrepareEffect)   // HsPropose, SyncReply
    | LoopBack(n: Name, block: Block, prep: PrepareEffect)                          // HsLoopBack
    | Vote(n: Name, vote: HVote)                                                    // HSVote
    | Propose(n: Name, payload: seq<nat>, prep: PrepareEffect)                      // timer, or a quorum just reached
    | FastPath(n: Name, qc: QC)                                                     // ParPrePare
    | Fallback(n: Name, block: Block)                                               // FBPropose, FBLoopBack, own block
    | ParOut(n: Name, block: Block)                                                 // block stored on an agreement output
    | EpochEnd(n: Name)                                                             // any EpochEnd error

  datatype System = System(cfg: Config, faulty: set<Name>) {
    ghost predicate Valid() {
      cfg.Valid() && FewFaults(cfg.c, faulty)
    }

    function Correct(): set<Name> {
      cfg.c.authorities.Keys - faulty
    }
  }

  /** Signatures are unforgeable: one by a correct authority exists only if it made it. */
  predicate Known(sys: System, signed: set<Signature>, sig: Signature) {
    sig.signer in sys.Correct() ==> sig in signed
  }

  predicate KnownQC(sys: System, signed: set<Signature>, qc: QC) {
    forall i :: 0 <= i < |qc.votes| ==> Known(sys, signed, qc.votes[i].1)
  }

  predicate CheckedQC(sys: System, signed: set<Signature>, qc: QC)
    requires sys.cfg.c.HasStake()
  {
    qc.IsGenesis() || (ValidQC(sys.cfg.c, qc) && KnownQC(sys, signed, qc))
  }

  ghost predicate Ready(sys: System, w: World) {
    && sys.Valid()
    && w.nodes.Keys == sys.Correct()
    && forall n :: n in w.nodes ==> w.nodes[n].name == n && Keyed(w.nodes[n].store)
  }

  /** What may happen next. Checks that a handler makes itself are in the handler. */
  ghost predicate Enabled(sys: System, w: World, ev: Event)
    requires Ready(sys, w)
  {
    && ev.n in w.nodes
    && var s := w.nodes[ev.n];
    && s.crash == Running
    && match ev
       case Proposal(_, block, _, prep) => KnownQC(sys, w.signed, block.qc) && PrepEnabled(sys, w.signed, prep)
       case LoopBack(_, block, prep) => block in s.suspended && PrepEnabled(sys, w.signed, prep)
       case Vote(_, vote) => Known(sys, w.signed, vote.signature)
       case Propose(_, _, prep) => PrepEnabled(sys, w.signed, prep)
       case FastPath(_, qc) => CheckedQC(sys, w.signed, qc)
       case Fallback(_, block) => block.author == ev.n || (VerifiedBlock(sys.cfg.c, block) && KnownQC(sys, w.signed, block.qc))
       case ParOut(_, block) => block.tag != OPT
       case EpochEnd(_) => true
  }

  ghost predicate PrepEnabled(sys: System, signed: set<Signature>, prep: PrepareEffect)
    requires sys.cfg.c.HasStake()
  {
    prep.fast.Some? ==> CheckedQC(sys, signed, prep.fast.value)
  }

  /** The effect on the node and the vote it signs, if any. */
  ghost function React(sys: System, s: Node, ev: Event): (Node, Option<HVote>)
    requires sys.Valid() && Keyed(s.store) && s.name in sys.cfg.c.authorities
  {
    match ev
    case Proposal(_, block, status, prep) => HandleOptProposal(sys.cfg, s, block, status, prep)
    case LoopBack(_, block, prep) => ProcessOptBlock(s, block, prep)
    case Vote(_, vote) => (HandleOptVote(sys.cfg, s, vote), None)
    case Propose(_, payload, prep) => OptPropose(sys.cfg, s, payload, prep)
    case FastPath(_, qc) => (FastCommit(s, qc), None)
    case Fallback(_, block) =>
      if s.height >= block.height + 2 || s.epoch > block.epoch then (s, None)
      else (StoreBlock(s, block), Some(NewVote(block, s.name, PES)))
    case ParOut(_, block) => (StoreBlock(s, block), None)
    case EpochEnd(_) => (EpochInit(s), None)
  }

  ghost function Apply(sys: System, w: World, ev: Event): World
    requires Ready(sys, w) && Enabled(sys, w, ev)
  {
    var (s, vote) := React(sys, w.nodes[ev.n], ev);
    World(w.nodes[ev.n := s], SignedAfter(w.signed, vote))
  }

  function SignedAfter(signed: set<Signature>, vote: Option<HVote>): set<Signature> {
    if vote.Some? then signed + {vote.value.signature} else signed
  }

  function Boot(sys: System): World {
    World(map n | n in sys.Correct() :: InitNode(n), {})
  }

  // ----- certificates as sets of backers -----

  ghost predicate Endorsed(signed: set<Signature>, n: Name, e: nat, h: nat, x: Digest) {
    exists r, p :: Signature(n, VoteDigest(x, h, r, OPT, e, p)) in signed
  }

  /** Authorities whose optimistic vote for the digest may be shown: those that signed one, and
      the faulty ones. */
  ghost function Backers(sys: System, signed: set<Signature>, e: nat, h: nat, x: Digest): set<Name> {
    set n | n in sys.cfg.c.authorities.Keys && (n in sys.faulty || Endorsed(signed, n, e, h, x))
  }

  ghost predicate Certified(sys: System, signed: set<Signature>, e: nat, h: nat, x: Digest)
    requires sys.cfg.c.HasStake()
  {
    sys.cfg.c.Weight(Backers(sys, signed, e, h, x)) >= sys.cfg.c.QuorumThreshold()
  }

  lemma {:induction false} CertifiedGrows(sys: System, signed: set<Signature>, signed': set<Signature>, e: nat, h: nat, x: Digest)
    requires sys.cfg.c.HasStake() && signed <= signed' && Certified(sys, signed, e, h, x)
    ensures Certified(sys, signed', e, h, x)
  {
    var a, b := Backers(sys, signed, e, h, x), Backers(sys, signed', e, h, x);
    forall n | n in a ensures n in b {
      if n !in sys.faulty {
        var r, p :| Signature(n, VoteDigest(x, h, r, OPT, e, p)) in signed;
        assert Signature(n, VoteDigest(x, h, r, OPT, e, p)) in signed';
      }
    }
    WeightMonotone(sys.cfg.c, a, b);
  }

  /** A verified optimistic certificate certifies its digest. */
  lemma {:induction false} ValidQCCertifies(sys: System, signed: set<Signature>, qc: QC)
    requires sys.cfg.c.HasStake() && ValidQC(sys.cfg.c, qc) && KnownQC(sys, signed, qc) && qc.tag == OPT
    ensures Certified(sys, signed, qc.epoch, qc.height, qc.hash)
  {
    var b := Backers(sys, signed, qc.epoch, qc.height, qc.hash);
    forall n | n in Voters(qc.votes) ensures n in b {
      var i :| 0 <= i < |qc.votes| && qc.votes[i].0 == n;
      assert sys.cfg.c.Stake(n) > 0 && Known(sys, signed, qc.votes[i].1);
      assert qc.votes[i].1 == Signature(n, VoteDigest(qc.hash, qc.height, qc.round, OPT, qc.epoch, qc.proposer));
    }
    WeightMonotone(sys.cfg.c, Voters(qc.votes), b);
  }

  // ----- what correct nodes sign -----

  ghost predicate OptVote(sig: Signature) {
    sig.digest.VoteDigest? && sig.digest.tag == OPT
  }

  /** The parent of a block that may be voted for at height h. */
  ghost predicate ParentOk(sys: System, signed: set<Signature>, e: nat, h: nat, parent: Digest)
    requires sys.cfg.c.HasStake()
  {
    h >= 1 && if h == 1 then parent == Zero else Certified(sys, signed, e, h - 1, parent)
  }

  ghost predicate VoteOk(sys: System, signed: set<Signature>, v: Digest)
    requires sys.cfg.c.HasStake() && v.VoteDigest?
  {
    && v.hash.BlockDigest? && v.hash.height == v.height && v.hash.epoch == v.epoch
    && ParentOk(sys, signed, v.epoch, v.height, v.hash.parent)
  }

  ghost predicate VotesOk(sys: System, signed: set<Signature>)
    requires sys.cfg.c.HasStake()
  {
    forall sig {:trigger VoteOk(sys, signed, sig.digest)} :: sig in signed && OptVote(sig) ==> VoteOk(sys, signed, sig.digest)
  }

  /** No correct node ever votes for two blocks of one epoch and height. */
  ghost predicate OncePerHeight(signed: set<Signature>) {
    forall a, b :: a in signed && b in signed && OptVote(a) && OptVote(b) && a.signer == b.signer
                   && a.digest.epoch == b.digest.epoch && a.digest.height == b.digest.height
                   ==> a.digest.hash == b.digest.hash
  }

  lemma {:induction false} QuorumHasCorrectBacker(sys: System, signed: set<Signature>, e: nat, h: nat, x: Digest) returns (sig: Signature)
    requires sys.Valid() && Certified(sys, signed, e, h, x)
    ensures sig in signed && OptVote(sig) && sig.digest.epoch == e && sig.digest.height == h && sig.digest.hash == x
  {
    var b := Backers(sys, signed, e, h, x);
    var n := QuorumsShareACorrectName(sys.cfg.c, sys.faulty, b, b);
    var r, p :| Signature(n, VoteDigest(x, h, r, OPT, e, p)) in signed;
    sig := Signature(n, VoteDigest(x, h, r, OPT, e, p));
  }

  /** Two certificates of one epoch and height certify the same digest. */
  lemma {:induction false} CertifiedUnique(sys: System, signed: set<Signature>, e: nat, h: nat, x: Digest, y: Digest)
    requires sys.Valid() && OncePerHeight(signed)
    requires Certified(sys, signed, e, h, x) && Certified(sys, signed, e, h, y)
    ensures x == y
  {
    var n := QuorumsShareACorrectName(sys.cfg.c, sys.faulty, Backers(sys, signed, e, h, x), Backers(sys, signed, e, h, y));
    var r, p :| Signature(n, VoteDigest(x, h, r, OPT, e, p)) in signed;
    var r', p' :| Signature(n, VoteDigest(y, h, r', OPT, e, p')) in signed;
    assert OptVote(Signature(n, VoteDigest(x, h, r, OPT, e, p))) && OptVote(Signature(n, VoteDigest(y, h, r', OPT, e, p')));
  }

  lemma {:induction false} CertifiedBlock(sys: System, signed: set<Signature>, e: nat, h: nat, x: Digest)
    requires sys.Valid() && VotesOk(sys, signed) && Certified(sys, signed, e, h, x)
    ensures x.BlockDigest? && x.height == h && x.epoch == e && ParentOk(sys, signed, e, h, x.parent)
  {
    var sig := QuorumHasCorrectBacker(sys, signed, e, h, x);
    assert VoteOk(sys, signed, sig.digest);
  }

  /** The digests from the first block of the epoch down to d, read off the hash chain. */
  ghost function Chain(d: Digest): seq<Digest> {
    if d.BlockDigest? then Chain(d.parent) + [d] else []
  }

  lemma {:induction false} ChainLength(sys: System, signed: set<Signature>, e: nat, h: nat, x: Digest)
    requires sys.Valid() && VotesOk(sys, signed) && Certified(sys, signed, e, h, x)
    ensures |Chain(x)| == h
    decreases h
  {
    CertifiedBlock(sys, signed, e, h, x);
    if h > 1 {
      ChainLength(sys, signed, e, h - 1, x.parent);
    }
  }

  lemma {:induction false} StepDown(sys: System, signed: set<Signature>, e: nat, h: nat, x: Digest, k: nat, y: Digest)
    requires sys.Valid() && VotesOk(sys, signed)
    requires Certified(sys, signed, e, h, x) && Certified(sys, signed, e, k, y) && h < k
    ensures y.BlockDigest? && Certified(sys, signed, e, k - 1, y.parent)
  {
    CertifiedBlock(sys, signed, e, k, y);
    CertifiedBlock(sys, signed, e, h, x);
  }

  /** All certified blocks of an epoch lie on one chain: the chain of the lower one is the prefix
      of the chain of the higher one, and a chain has one block per height. */
  lemma {:induction false} OneChain(sys: System, signed: set<Signature>, e: nat, h: nat, x: Digest, k: nat, y: Digest)
    requires sys.Valid() && VotesOk(sys, signed) && OncePerHeight(signed)
    requires Certified(sys, signed, e, h, x) && Certified(sys, signed, e, k, y) && h <= k
    ensures |Chain(y)| == k && Chain(x) == Chain(y)[..h]
    decreases k
  {
    ChainLength(sys, signed, e, k, y);
    if k == h {
      CertifiedUnique(sys, signed, e, h, x, y);
    } else {
      StepDown(sys, signed, e, h, x, k, y);
      OneChain(sys, signed, e, h, x, k - 1, y.parent);
      assert Chain(y)[..h] == Chain(y.parent)[..h];
    }
  }

  // ----- invariants of one node -----

  /** Where a processed block's certificate may come from. */
  ghost predicate Backed(sys: System, signed: set<Signature>, b: Block)
    requires sys.cfg.c.HasStake()
  {
    || CheckedQC(sys, signed, b.qc)
    || Certified(sys, signed, b.epoch, b.qc.height, b.qc.hash)
    || Certified(sys, signed, b.epoch, b.height, b.Digest())
  }

  ghost predicate QCOk(sys: System, signed: set<Signature>, e: nat, qc: QC)
    requires sys.cfg.c.HasStake()
  {
    qc.IsGenesis() || Certified(sys, signed, e, qc.height, qc.hash)
  }

  ghost predicate AllCertified(sys: System, signed: set<Signature>, e: nat, ds: seq<Digest>)
    requires sys.cfg.c.HasStake()
  {
    forall i :: 0 <= i < |ds| ==> ds[i].BlockDigest? && Certified(sys, signed, e, ds[i].height, ds[i])
  }

  ghost predicate MakersOk(sys: System, signed: set<Signature>, e: nat, makers: map<(nat, Digest), Maker>)
    requires sys.cfg.c.HasStake()
  {
    forall k :: k in makers ==> makers[k].used <= Backers(sys, signed, e, k.0, k.1)
                                && makers[k].weight <= sys.cfg.c.Weight(makers[k].used)
  }

  ghost predicate SuspendedOk(sys: System, signed: set<Signature>, suspended: set<Block>)
    requires sys.cfg.c.HasStake()
  {
    forall b :: b in suspended ==> Backed(sys, signed, b)
  }

  ghost predicate PastOk(sys: System, signed: set<Signature>, past: seq<seq<Digest>>)
    requires sys.cfg.c.HasStake()
  {
    forall e :: 0 <= e < |past| ==> AllCertified(sys, signed, e, past[e])
  }

  ghost predicate NodeOk(sys: System, signed: set<Signature>, s: Node)
    requires sys.cfg.c.HasStake()
  {
    && Keyed(s.store)
    && s.height == s.highQC.height + 1 && s.lastVoted <= s.height
    && QCOk(sys, signed, s.epoch, s.highQC)
    && MakersOk(sys, signed, s.epoch, s.makers)
    && SuspendedOk(sys, signed, s.suspended)
    && AllCertified(sys, signed, s.epoch, Log(s.segments))
    && |s.past| == s.epoch && PastOk(sys, signed, s.past)
  }

  /** The node's voting register bounds what it has signed. */
  ghost predicate Bound(signed: set<Signature>, s: Node) {
    forall sig :: sig in signed && OptVote(sig) && sig.signer == s.name ==>
                    sig.digest.epoch <= s.epoch && (sig.digest.epoch == s.epoch ==> sig.digest.height <= s.lastVoted)
  }

  lemma {:induction false} BackersGrow(sys: System, signed: set<Signature>, signed': set<Signature>, e: nat, h: nat, x: Digest)
    requires signed <= signed'
    ensures Backers(sys, signed, e, h, x) <= Backers(sys, signed', e, h, x)
  {
    forall n | n in Backers(sys, signed, e, h, x) ensures n in Backers(sys, signed', e, h, x) {
      if n !in sys.faulty {
        var r, p :| Signature(n, VoteDigest(x, h, r, OPT, e, p)) in signed;
        assert Signature(n, VoteDigest(x, h, r, OPT, e, p)) in signed';
      }
    }
  }

  lemma {:induction false} AllCertifiedGrows(sys: System, signed: set<Signature>, signed': set<Signature>, e: nat, ds: seq<Digest>)
    requires sys.cfg.c.HasStake() && signed <= signed' && AllCertified(sys, signed, e, ds)
    ensures AllCertified(sys, signed', e, ds)
  {
    forall i | 0 <= i < |ds| ensures Certified(sys, signed', e, ds[i].height, ds[i]) {
      CertifiedGrows(sys, signed, signed', e, ds[i].height, ds[i]);
    }
  }

  lemma {:induction false} BackedGrows(sys: System, signed: set<Signature>, signed': set<Signature>, b: Block)
    requires sys.cfg.c.HasStake() && signed <= signed' && Backed(sys, signed, b)
    ensures Backed(sys, signed', b)
  {
    if Certified(sys, signed, b.epoch, b.qc.height, b.qc.hash) {
      CertifiedGrows(sys, signed, signed', b.epoch, b.qc.height, b.qc.hash);
    } else if Certified(sys, signed, b.epoch, b.height, b.Digest()) {
      CertifiedGrows(sys, signed, signed', b.epoch, b.height, b.Digest());
    }
  }

  /** New signatures never invalidate what a node holds. */
  lemma {:induction false} NodeOkGrows(sys: System, signed: set<Signature>, signed': set<Signature>, s: Node)
    requires sys.cfg.c.HasStake() && signed <= signed' && NodeOk(sys, signed, s)
    ensures NodeOk(sys, signed', s)
  {
    if !s.highQC.IsGenesis() {
      CertifiedGrows(sys, signed, signed', s.epoch, s.highQC.height, s.highQC.hash);
    }
    forall k | k in s.makers ensures s.makers[k].used <= Backers(sys, signed', s.epoch, k.0, k.1) {
      BackersGrow(sys, signed, signed', s.epoch, k.0, k.1);
    }
    forall b | b in s.suspended ensures Backed(sys, signed', b) {
      BackedGrows(sys, signed, signed', b);
    }
    AllCertifiedGrows(sys, signed, signed', s.epoch, Log(s.segments));
    forall e | 0 <= e < |s.past| ensures AllCertified(sys, signed', e, s.past[e]) {
      AllCertifiedGrows(sys, signed, signed', e, s.past[e]);
    }
  }
}
