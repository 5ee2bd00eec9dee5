/** Why the hypotheses of the optimistic proofs cannot be dropped: what the handlers do when a block
    or a certificate of the fallback route reaches the optimistic path. */
module OptPremises {
  import opened Committees
  import opened Messages
  import opened OptNode
  import opened OptProtocol
  import opened OptSafety
  import opened OptLogs

  /** Block processing misses an ancestor exactly when the stored parent has none of its own. */
  lemma {:induction false} AncestorMissingExactly(s: Node, block: Block, prep: PrepareEffect)
    requires Keyed(s.store) && s.crash == Running
    ensures ProcessOptBlock(s, block, prep).0.crash == MissingAncestor
            <==> !block.qc.IsGenesis() && block.qc.hash in s.store && !HasParent(s.store, s.store[block.qc.hash])
  {
    var b1 := ParentOf(s.store, block);
    if b1.Some? {
      var b0 := ParentOf(s.store, b1.value);
      if b0.Some? {
        var t := StoreBlock(s, block);
        var u := if prep.fast.Some? then FastCommit(t, prep.fast.value) else t;
        assert u.crash == Running;
        assert CommitAndVote(u, b0.value, b1.value, block).0.crash == Running;
      }
    }
  }

  // ----- building runs -----

  /** One event that meets the hypotheses on certificates, or, if loose, may use a certificate of
      another tag on the fast path. */
  ghost predicate Step(sys: System, loose: bool, w: World, ev: Event, w': World) {
    && Ready(sys, w) && Enabled(sys, w, ev) && w' == Apply(sys, w, ev)
    && (Premise(w.nodes[ev.n], ev) || (loose && ev.FastPath? && ev.qc.epoch == w.nodes[ev.n].epoch))
  }

  ghost predicate Trail(sys: System, loose: bool, ws: seq<World>, evs: seq<Event>) {
    && |ws| == |evs| + 1 && ws[0] == Boot(sys)
    && forall i :: 0 <= i < |evs| ==> Step(sys, loose, ws[i], evs[i], ws[i + 1])
  }

  ghost predicate Reachable(sys: System, loose: bool, w: World) {
    exists ws, evs :: Trail(sys, loose, ws, evs) && ws[|evs|] == w
  }

  lemma {:induction false} StepReaches(sys: System, loose: bool, w: World, ev: Event, w': World)
    requires Reachable(sys, loose, w) && Step(sys, loose, w, ev, w')
    ensures Reachable(sys, loose, w')
  {
    var ws, evs :| Trail(sys, loose, ws, evs) && ws[|evs|] == w;
    var ws', evs' := ws + [w'], evs + [ev];
    forall i | 0 <= i < |evs'| ensures Step(sys, loose, ws'[i], evs'[i], ws'[i + 1]) {
      if i < |evs| {
        assert ws'[i] == ws[i] && ws'[i + 1] == ws[i + 1] && evs'[i] == evs[i];
      } else {
        assert ws'[i] == w && ws'[i + 1] == w' && evs'[i] == ev;
      }
    }
    assert Trail(sys, loose, ws', evs') && ws'[|evs'|] == w';
  }

  lemma {:induction false} BootReachable(sys: System, loose: bool)
    ensures Reachable(sys, loose, Boot(sys))
  {
    var evs: seq<Event> := [];
    assert Trail(sys, loose, [Boot(sys)], evs) && [Boot(sys)][|evs|] == Boot(sys);
  }

  lemma {:induction false} TrailIsRun(sys: System, loose: bool, ws: seq<World>, evs: seq<Event>)
    requires sys.Valid() && Trail(sys, loose, ws, evs)
    ensures Run(sys, ws, evs)
  {
    forall i | 0 <= i < |evs| ensures Ready(sys, ws[i]) && Enabled(sys, ws[i], evs[i]) && ws[i + 1] == Apply(sys, ws[i], evs[i]) {
      assert Step(sys, loose, ws[i], evs[i], ws[i + 1]);
    }
  }

  ghost predicate SignedByAll(w: World, names: set<Name>, d: Digest) {
    forall n :: n in names ==> Signature(n, d) in w.signed
  }

  function Ballot(names: set<Name>, d: Digest): (votes: seq<(Name, Signature)>)
    ensures Voters(votes) == names && DistinctVoters(votes) && SignedBy(votes, d)
    decreases |names|
  {
    if names == {} then [] else
      var n := Least(names);
      var rest := Ballot(names - {n}, d);
      VotersSnoc(rest, (n, Signature(n, d)));
      assert forall i :: 0 <= i < |rest| ==> rest[i].0 in Voters(rest);
      rest + [(n, Signature(n, d))]
  }

  function TaggedVote(b: Block, tag: nat): Digest {
    VoteDigest(b.Digest(), b.height, b.round, tag, b.epoch, b.author)
  }

  function TaggedQC(names: set<Name>, b: Block, tag: nat): QC {
    QC(b.Digest(), b.height, b.epoch, b.round, tag, b.author, b.author, Ballot(names, TaggedVote(b, tag)))
  }

  /** A set of authorities with stake that weighs a quorum. */
  ghost predicate Voting(sys: System, names: set<Name>)
    requires sys.cfg.c.HasStake()
  {
    sys.cfg.c.Weight(names) >= sys.cfg.c.QuorumThreshold() && forall n :: n in names ==> sys.cfg.c.Stake(n) > 0
  }

  /** Once the correct voters have signed, faulty ones add their signatures at will. */
  lemma {:induction false} TaggedQCChecks(sys: System, w: World, voters: set<Name>, b: Block, tag: nat)
    requires sys.cfg.c.HasStake() && Voting(sys, voters) && SignedByAll(w, voters * sys.Correct(), TaggedVote(b, tag))
    ensures ValidQC(sys.cfg.c, TaggedQC(voters, b, tag)) && KnownQC(sys, w.signed, TaggedQC(voters, b, tag))
  {
    var qc := TaggedQC(voters, b, tag);
    forall i | 0 <= i < |qc.votes| ensures sys.cfg.c.Stake(qc.votes[i].0) > 0 && Known(sys, w.signed, qc.votes[i].1) {
      assert qc.votes[i].0 in Voters(qc.votes);
    }
  }

  // ----- certificates of the fallback route are not unique -----

  /** Nodes that can still take fallback blocks of the first epoch and have committed nothing. */
  ghost predicate Willing(w: World) {
    forall n :: n in w.nodes ==>
      var s := w.nodes[n];
      s.crash == Running && s.height == 1 && s.epoch == 0 && s.segments == [] && s.past == [] && s.lastCommitted == 0
  }

  ghost predicate EasyBlock(sys: System, b: Block)
    requires sys.cfg.c.HasStake()
  {
    VerifiedBlock(sys.cfg.c, b) && b.qc == GENESIS_QC && b.epoch == 0
  }

  ghost predicate Holds(w: World, names: set<Name>, b: Block) {
    forall n :: n in names && n in w.nodes ==> b.Digest() in w.nodes[n].store && w.nodes[n].store[b.Digest()] == b
  }

  ghost predicate Calm(sys: System, loose: bool, w: World) {
    Ready(sys, w) && Reachable(sys, loose, w) && Willing(w)
  }

  lemma {:induction false} FallbackStep(sys: System, loose: bool, w: World, n: Name, b: Block, w': World)
    requires Ready(sys, w) && Willing(w) && n in w.nodes && EasyBlock(sys, b)
    requires w' == World(w.nodes[n := StoreBlock(w.nodes[n], b)], w.signed + {Signature(n, TaggedVote(b, PES))})
    ensures Step(sys, loose, w, Fallback(n, b), w')
  {
  }

  lemma {:induction false} OneVote(sys: System, loose: bool, w: World, n: Name, b: Block) returns (w': World)
    requires Calm(sys, loose, w) && n in w.nodes && EasyBlock(sys, b)
    ensures Calm(sys, loose, w') && w'.signed == w.signed + {Signature(n, TaggedVote(b, PES))}
    ensures w'.nodes == w.nodes[n := StoreBlock(w.nodes[n], b)]
  {
    w' := World(w.nodes[n := StoreBlock(w.nodes[n], b)], w.signed + {Signature(n, TaggedVote(b, PES))});
    FallbackStep(sys, loose, w, n, b, w');
    StepReaches(sys, loose, w, Fallback(n, b), w');
  }

  lemma {:induction false} StoredStays(w: World, w': World, n: Name, b: Block, names: set<Name>, a: Block)
    requires n in w.nodes && w'.nodes == w.nodes[n := StoreBlock(w.nodes[n], b)] && Holds(w, names, a) && (a.Digest() != b.Digest() || a == b)
    ensures Holds(w', names, a)
  {
  }

  /** The nodes of a set have voted for b on the fallback route; those of another still hold a. */
  ghost predicate Voted(sys: System, loose: bool, w: World, names: set<Name>, b: Block, held: set<Name>, a: Block) {
    Calm(sys, loose, w) && Holds(w, held, a) && Holds(w, names, b) && SignedByAll(w, names, TaggedVote(b, PES))
  }

  lemma {:induction false} NextVoter(sys: System, loose: bool, w: World, names: set<Name>, n: Name, b: Block, held: set<Name>, a: Block) returns (w': World)
    requires Voted(sys, loose, w, names, b, held, a) && EasyBlock(sys, b) && n in sys.Correct() && a.Digest() != b.Digest()
    ensures Voted(sys, loose, w', names + {n}, b, held, a) && w.signed <= w'.signed
  {
    w' := OneVote(sys, loose, w, n, b);
    StoredStays(w, w', n, b, held, a);
    StoredStays(w, w', n, b, names, b);
  }

  /** Let a set of correct nodes vote for a block on the fallback route, one after the other. */
  lemma {:induction false} LetVote(sys: System, loose: bool, w: World, names: set<Name>, b: Block, held: set<Name>, a: Block) returns (w': World)
    requires Calm(sys, loose, w) && EasyBlock(sys, b) && names <= sys.Correct() && Holds(w, held, a) && a.Digest() != b.Digest()
    ensures Voted(sys, loose, w', names, b, held, a) && w.signed <= w'.signed
    decreases |names|
  {
    if names == {} {
      w' := w;
    } else {
      var n := Least(names);
      var rest := names - {n};
      assert rest + {n} == names;
      var w1 := LetVote(sys, loose, w, rest, b, held, a);
      w' := NextVoter(sys, loose, w1, rest, n, b, held, a);
    }
  }

  lemma {:induction false} BootCalm(sys: System, loose: bool)
    requires sys.Valid()
    ensures Calm(sys, loose, Boot(sys))
  {
    BootReachable(sys, loose);
    assert forall n :: n in Boot(sys).nodes ==> Boot(sys).nodes[n] == InitNode(n);
  }

  /** Two different blocks of one height with a certificate each, and the voters hold both. */
  ghost predicate Conflict(sys: System, w: World, names: set<Name>, a: Block, b: Block)
    requires sys.cfg.c.HasStake()
  {
    && Holds(w, names, a) && CheckedQC(sys, w.signed, TaggedQC(names, a, PES))
    && Holds(w, names, b) && CheckedQC(sys, w.signed, TaggedQC(names, b, PES))
  }

  lemma {:induction false} ReachConflict(sys: System, names: set<Name>, a: Block, b: Block) returns (w: World)
    requires sys.Valid() && EasyBlock(sys, a) && EasyBlock(sys, b) && a.Digest() != b.Digest()
    requires names <= sys.Correct() && Voting(sys, names)
    ensures Calm(sys, true, w) && Conflict(sys, w, names, a, b)
  {
    BootCalm(sys, true);
    var w1 := LetVote(sys, true, Boot(sys), names, a, {}, b);
    w := LetVote(sys, true, w1, names, b, names, a);
    assert names * sys.Correct() == names;
    TaggedQCChecks(sys, w, names, a, PES);
    TaggedQCChecks(sys, w, names, b, PES);
  }

  /** Certificates that verification accepts are not unique once the tag is not the optimistic one:
      in every system whose correct authorities weigh a quorum, two different blocks of one height
      can both be certified in one run by correct nodes that follow the code. */
  lemma {:induction false} FallbackCertificatesConflict(sys: System, names: set<Name>, a: Block, b: Block) returns (ws: seq<World>, evs: seq<Event>)
    requires sys.Valid() && EasyBlock(sys, a) && EasyBlock(sys, b) && a.height == b.height && a.Digest() != b.Digest()
    requires names <= sys.Correct() && Voting(sys, names)
    ensures Run(sys, ws, evs) && Conflict(sys, ws[|evs|], names, a, b)
  {
    var w := ReachConflict(sys, names, a, b);
    ws, evs :| Trail(sys, true, ws, evs) && ws[|evs|] == w;
    TrailIsRun(sys, true, ws, evs);
  }

  lemma {:induction false} FastLog(s: Node, qc: QC, b: Block)
    requires Keyed(s.store) && qc.hash in s.store && s.store[qc.hash] == b && b.qc == GENESIS_QC && b.height > 0
    requires s.segments == [] && s.past == [] && s.lastCommitted == 0 && s.epoch == 0
    ensures LogAt(FastCommit(s, qc), 0) == [b.Digest()]
  {
    var walk := Walk(s.store, b, 0);
    assert walk == [b.Digest()];
    LogSnoc([], walk);
    assert [] + [walk] == [walk];
  }

  lemma {:induction false} FastStep(sys: System, w: World, n: Name, qc: QC, b: Block) returns (w': World)
    requires Ready(sys, w) && n in w.nodes && w.nodes[n].crash == Running && CheckedQC(sys, w.signed, qc) && qc.epoch == 0
    requires var s := w.nodes[n]; qc.hash in s.store && s.store[qc.hash] == b && s.segments == [] && s.past == [] && s.lastCommitted == 0 && s.epoch == 0
    requires b.qc == GENESIS_QC && b.height > 0
    ensures Step(sys, true, w, FastPath(n, qc), w') && Ready(sys, w') && w'.signed == w.signed
    ensures n in w'.nodes && LogAt(w'.nodes[n], 0) == [b.Digest()] && forall m :: m in w.nodes && m != n ==> m in w'.nodes && w'.nodes[m] == w.nodes[m]
  {
    w' := Apply(sys, w, FastPath(n, qc));
    FastLog(w.nodes[n], qc, b);
  }

  lemma {:induction false} ReachDisagreement(sys: System, w: World, names: set<Name>, a: Block, b: Block, n: Name, m: Name) returns (w': World)
    requires Calm(sys, true, w) && Conflict(sys, w, names, a, b) && EasyBlock(sys, a) && EasyBlock(sys, b) && a.height == b.height > 0
    requires names <= sys.Correct() && n in names && m in names && n != m
    ensures Reachable(sys, true, w') && n in w'.nodes && m in w'.nodes
    ensures LogAt(w'.nodes[n], 0) == [a.Digest()] && LogAt(w'.nodes[m], 0) == [b.Digest()]
  {
    var qa, qb := TaggedQC(names, a, PES), TaggedQC(names, b, PES);
    var w1 := FastStep(sys, w, n, qa, a);
    StepReaches(sys, true, w, FastPath(n, qa), w1);
    w' := FastStep(sys, w1, m, qb, b);
    StepReaches(sys, true, w1, FastPath(m, qb), w');
  }

  /** The tag hypothesis is needed for agreement: in a run whose only breach of the hypotheses is the
      tag of two certificates on the fast path, two correct nodes commit different blocks of one height. */
  lemma {:induction false} AgreementNeedsTags(sys: System, names: set<Name>, a: Block, b: Block, n: Name, m: Name)
    returns (ws: seq<World>, evs: seq<Event>)
    requires sys.Valid() && EasyBlock(sys, a) && EasyBlock(sys, b) && a.height == b.height > 0 && a.Digest() != b.Digest()
    requires names <= sys.Correct() && Voting(sys, names) && n in names && m in names && n != m
    ensures Run(sys, ws, evs) && n in ws[|evs|].nodes && m in ws[|evs|].nodes
    ensures LogAt(ws[|evs|].nodes[n], 0) == [a.Digest()] && LogAt(ws[|evs|].nodes[m], 0) == [b.Digest()]
    ensures Trail(sys, true, ws, evs)
  {
    var w := ReachConflict(sys, names, a, b);
    var w' := ReachDisagreement(sys, w, names, a, b, n, m);
    ws, evs :| Trail(sys, true, ws, evs) && ws[|evs|] == w';
    TrailIsRun(sys, true, ws, evs);
  }

  // ----- optimistic blocks on the fallback route -----

  const NO_PREPARE := PrepareEffect(None, false)

  lemma {:induction false} Orphaned(cfg: Config, s: Node, x: Block, child: Block)
    requires cfg.Valid() && Keyed(s.store) && s.crash == Running && s.epoch == child.epoch
    requires x.Digest() in s.store && s.store[x.Digest()] == x && x.qc.hash !in s.store && !x.qc.IsGenesis()
    requires child.author in cfg.elector.names && cfg.elector.IndexAsLeader(child.author, child.height).Some?
    requires VerifiedBlock(cfg.c, child) && child.qc.hash == x.Digest()
    ensures HandleOptProposal(cfg, s, child, Accept, NO_PREPARE).0.crash == MissingAncestor
  {
    AncestorMissingExactly(ProcessQC(s, child.qc), child, NO_PREPARE);
  }

  /** In a world where the fallback route brings a node an optimistic block whose parent it lacks, any
      certified child of that block that a leader proposes stops the node for want of an ancestor,
      although certificates and epochs are as the hypotheses ask. */
  lemma {:induction false} FallbackBlockOrphansChild(sys: System, w: World, n: Name, x: Block, child: Block) returns (w1: World, w2: World)
    requires Ready(sys, w) && Enabled(sys, w, Fallback(n, x)) && x.tag == OPT
    requires var s := w.nodes[n]; s.height < x.height + 2 && s.epoch == x.epoch == child.epoch && x.qc.hash !in s.store && !x.qc.IsGenesis()
    requires VerifiedBlock(sys.cfg.c, child) && KnownQC(sys, w.signed, child.qc) && child.qc.hash == x.Digest()
    requires child.qc.tag == OPT && child.qc.epoch == child.epoch && sys.cfg.elector.IndexAsLeader(child.author, child.height).Some?
    ensures Step(sys, false, w, Fallback(n, x), w1) && Step(sys, false, w1, Proposal(n, child, Accept, NO_PREPARE), w2)
    ensures n in w2.nodes && w2.nodes[n].crash == MissingAncestor
  {
    w1 := Apply(sys, w, Fallback(n, x));
    assert w1.nodes[n] == StoreBlock(w.nodes[n], x) && x.qc.hash != x.Digest();
    w2 := Apply(sys, w1, Proposal(n, child, Accept, NO_PREPARE));
    Orphaned(sys.cfg, w1.nodes[n], x, child);
  }

  // ----- a whole run that ends so -----

  /** A node before its first vote, after its vote for p, and after its vote for a child of p. */
  ghost predicate At(k: nat, s: Node, p: Block) {
    && s.crash == Running && Keyed(s.store)
    && (k < 2 ==> s.epoch == 0 && s.height == 1 && s.lastVoted == k && s.lastCommitted == 0)
    && (k == 1 ==> p.Digest() in s.store && s.store[p.Digest()] == p)
  }

  /** The block that such a node votes for next. */
  ghost predicate Next(cfg: Config, k: nat, p: Block, b: Block)
    requires cfg.Valid()
  {
    && VerifiedBlock(cfg.c, b) && b.epoch == 0 && b.tag == OPT && OptQC(0, b.qc)
    && b.author in cfg.elector.names && cfg.elector.IndexAsLeader(b.author, b.height).Some?
    && p.qc == GENESIS_QC && p.height == 1
    && (k == 0 ==> b == p) && (k == 1 ==> b.height == 2 && b.qc.height == 1 && b.qc.hash == p.Digest())
  }

  lemma {:induction false} VotesNext(cfg: Config, s: Node, k: nat, p: Block, b: Block)
    requires cfg.Valid() && k < 2 && At(k, s, p) && Next(cfg, k, p, b)
    ensures var (t, vote) := HandleOptProposal(cfg, s, b, Accept, NO_PREPARE);
            At(k + 1, t, p) && t.name == s.name && vote == Some(NewVote(b, s.name, OPT))
  {
    var t := ProcessQC(s, b.qc);
    var b1 := if k == 0 then GENESIS else p;
    assert ParentOf(t.store, b) == Some(b1) && ParentOf(t.store, b1) == Some(GENESIS);
    assert ProcessOptBlock(t, b, NO_PREPARE) == CommitAndVote(StoreBlock(t, b), GENESIS, b1, b);
  }

  /** The given nodes have voted for b, the other ones of the set have not yet, and n has seen nothing. */
  ghost predicate Progress(sys: System, w: World, n: Name, names: set<Name>, done: set<Name>, k: nat, p: Block, b: Block) {
    && Ready(sys, w) && Reachable(sys, false, w) && KnownQC(sys, w.signed, b.qc)
    && n in w.nodes && w.nodes[n] == InitNode(n)
    && (forall m :: m in names ==> m in w.nodes && At(if m in done then k + 1 else k, w.nodes[m], p))
    && SignedByAll(w, done, TaggedVote(b, OPT))
  }

  lemma {:induction false} OptStep(sys: System, w: World, m: Name, k: nat, p: Block, b: Block) returns (w': World)
    requires Ready(sys, w) && m in w.nodes && k < 2 && At(k, w.nodes[m], p) && Next(sys.cfg, k, p, b) && KnownQC(sys, w.signed, b.qc)
    ensures Step(sys, false, w, Proposal(m, b, Accept, NO_PREPARE), w') && Ready(sys, w')
    ensures w'.signed == w.signed + {Signature(m, TaggedVote(b, OPT))}
    ensures m in w'.nodes && At(k + 1, w'.nodes[m], p) && w'.nodes == w.nodes[m := w'.nodes[m]]
  {
    VotesNext(sys.cfg, w.nodes[m], k, p, b);
    w' := Apply(sys, w, Proposal(m, b, Accept, NO_PREPARE));
  }

  lemma {:induction false} OneMoreVotes(sys: System, w: World, n: Name, names: set<Name>, done: set<Name>, k: nat, p: Block, b: Block, m: Name) returns (w': World)
    requires Progress(sys, w, n, names, done, k, p, b) && k < 2 && Next(sys.cfg, k, p, b) && m in names - done && n !in names
    ensures Progress(sys, w', n, names, done + {m}, k, p, b) && w.signed <= w'.signed
  {
    w' := OptStep(sys, w, m, k, p, b);
    StepReaches(sys, false, w, Proposal(m, b, Accept, NO_PREPARE), w');
  }

  lemma {:induction false} AllVote(sys: System, w: World, n: Name, names: set<Name>, done: set<Name>, k: nat, p: Block, b: Block) returns (w': World)
    requires Progress(sys, w, n, names, {}, k, p, b) && k < 2 && Next(sys.cfg, k, p, b) && done <= names && n !in names
    ensures Progress(sys, w', n, names, done, k, p, b) && w.signed <= w'.signed
    decreases |done|
  {
    if done == {} {
      w' := w;
    } else {
      var m := Least(done);
      var rest := done - {m};
      assert rest + {m} == done;
      var w1 := AllVote(sys, w, n, names, rest, k, p, b);
      w' := OneMoreVotes(sys, w1, n, names, rest, k, p, b, m);
    }
  }

  function OptBlock(qc: QC, author: Name, height: nat): Block {
    NewBlock(qc, author, height, 0, 0, [], OPT)
  }

  lemma {:induction false} BootProgress(sys: System, n: Name, names: set<Name>, p: Block)
    requires sys.Valid() && n in sys.Correct() && names <= sys.Correct() && p.qc == GENESIS_QC
    ensures Progress(sys, Boot(sys), n, names, {}, 0, p, p)
  {
    BootReachable(sys, false);
    assert forall m :: m in Boot(sys).nodes ==> Boot(sys).nodes[m] == InitNode(m);
  }

  /** An authority with stake that leads the first three heights. */
  ghost predicate LeadsThree(cfg: Config, z: Name)
    requires cfg.Valid()
  {
    cfg.c.Stake(z) > 0 && z in cfg.elector.names && forall h :: 1 <= h <= 3 ==> cfg.elector.IndexAsLeader(z, h).Some?
  }

  lemma {:induction false} TwoBlocksVoted(sys: System, voters: set<Name>, n: Name, z: Name) returns (w: World, p: Block, x: Block)
    requires sys.Valid() && Voting(sys, voters) && n in sys.Correct() - voters && LeadsThree(sys.cfg, z)
    ensures p == OptBlock(GENESIS_QC, z, 1) && x == OptBlock(TaggedQC(voters, p, OPT), z, 2)
    ensures VerifiedBlock(sys.cfg.c, x) && Progress(sys, w, n, voters * sys.Correct(), voters * sys.Correct(), 1, p, x)
  {
    var names := voters * sys.Correct();
    p := OptBlock(GENESIS_QC, z, 1);
    x := OptBlock(TaggedQC(voters, p, OPT), z, 2);
    BootProgress(sys, n, names, p);
    var w1 := AllVote(sys, Boot(sys), n, names, names, 0, p, p);
    TaggedQCChecks(sys, w1, voters, p, OPT);
    assert Progress(sys, w1, n, names, {}, 1, p, x);
    w := AllVote(sys, w1, n, names, names, 1, p, x);
  }

  /** The hypothesis that tags match routes is needed: in every system with a faulty leader there is a run that
      breaks it once and keeps all the others, in which a correct node stops for want of an ancestor. A quorum
      without the node votes for two blocks of a leader, and the second one reaches the node on the
      fallback route before its child is proposed. */
  lemma {:induction false} TagsKeepAncestors(sys: System, voters: set<Name>, n: Name, z: Name) returns (ws: seq<World>, evs: seq<Event>)
    requires sys.Valid() && Voting(sys, voters) && n in sys.Correct() - voters && z !in sys.Correct() && LeadsThree(sys.cfg, z)
    ensures Run(sys, ws, evs) && Premises(ws, evs) && n in ws[|evs|].nodes && ws[|evs|].nodes[n].crash == MissingAncestor
  {
    var w, p, x := TwoBlocksVoted(sys, voters, n, z);
    var child := OptBlock(TaggedQC(voters, x, OPT), z, 3);
    TaggedQCChecks(sys, w, voters, x, OPT);
    var w1, w2 := FallbackBlockOrphansChild(sys, w, n, x, child);
    StepReaches(sys, false, w, Fallback(n, x), w1);
    StepReaches(sys, false, w1, Proposal(n, child, Accept, NO_PREPARE), w2);
    ws, evs :| Trail(sys, false, ws, evs) && ws[|evs|] == w2;
    TrailIsRun(sys, false, ws, evs);
    TrailPremises(sys, ws, evs);
  }

  lemma {:induction false} TrailPremises(sys: System, ws: seq<World>, evs: seq<Event>)
    requires Trail(sys, false, ws, evs)
    ensures Premises(ws, evs)
  {
    forall i | 0 <= i < |evs| ensures evs[i].n in ws[i].nodes && Premise(ws[i].nodes[evs[i].n], evs[i]) {
      assert Step(sys, false, ws[i], evs[i], ws[i + 1]);
    }
  }
}
