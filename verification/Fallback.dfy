/** The fallback chain of a node: the blocks it broadcasts while the optimistic path is stuck, one
    per round, each carrying the certificate of the round before. */
module FallbackChain {
  import opened Committees
  import opened Messages
  import opened Aggregation

  datatype Node = Node(
    name: Name,
    epoch: nat,
    height: nat,
    invoked: set<nat>,                 // fallback_is_invoke
    smvbaInvoked: set<nat>,            // smvba_is_invoke
    makers: map<Slot, Maker>,          // never cleaned within the epoch
    highQC: map<Slot, QC>,
    assembled: seq<QC>,
    blocks: seq<Block>,                // blocks broadcast
    prepares: seq<QC>)                 // certificates from which a pessimistic prepare was started

  datatype Event =
    | Invoke(height: nat, qc: Option<QC>, payload: seq<nat>)
    | Vote(vote: HVote, payload: seq<nat>)
    | StartAgreement(height: nat)
    | Advance(height: nat)             // a certificate of the optimistic path moves the node on

  function Init(name: Name, epoch: nat): Node {
    Node(name, epoch, 1, {}, {}, map[], map[], [], [], [])
  }

  function Broadcast(s: Node, block: Block): Node {
    if block.height in s.smvbaInvoked then s else s.(blocks := s.blocks + [block])
  }

  function InvokeFallback(s: Node, height: nat, qc: Option<QC>, payload: seq<nat>): Node {
    if height in s.invoked then s else
      var parent := if qc.Some? then qc.value else GENESIS_QC;
      Broadcast(s.(invoked := s.invoked + {height}), NewBlock(parent, s.name, height, s.epoch, 1, payload, PES))
  }

  /** What an assembled certificate leads to. */
  function OnCertificate(s: Node, length: nat, qc: QC, payload: seq<nat>): Node {
    var t := s.(highQC := s.highQC[(qc.height, qc.round) := qc], assembled := s.assembled + [qc]);
    if qc.proposer != s.name then t
    else if qc.round < length then Broadcast(t, NewBlock(qc, s.name, qc.height, s.epoch, qc.round + 1, payload, PES))
    else if qc.round == length then t.(prepares := t.prepares + [qc])
    else t
  }

  /** A vote that is not refused as late and that verifies. */
  predicate Counted(c: Committee, s: Node, vote: HVote) {
    !(s.height >= vote.height + 2 || s.epoch > vote.epoch) && vote.Verified(c)
  }

  function HandleFallbackVote(c: Committee, s: Node, length: nat, vote: HVote, payload: seq<nat>): Node
    requires c.HasStake()
  {
    if !Counted(c, s, vote) then s else
      var (makers, r) := AddTo(c, s.makers, (vote.height, vote.round), vote);
      var t := s.(makers := makers);
      if r.Ok? && r.value.Some? then OnCertificate(t, length, r.value.value, payload) else t
  }

  function Step(c: Committee, s: Node, length: nat, ev: Event): Node
    requires c.HasStake()
  {
    match ev
    case Invoke(height, qc, payload) => InvokeFallback(s, height, qc, payload)
    case Vote(vote, payload) => HandleFallbackVote(c, s, length, vote, payload)
    case StartAgreement(height) => s.(smvbaInvoked := s.smvbaInvoked + {height})
    case Advance(height) => s.(height := height)
  }

  function Run(c: Committee, name: Name, epoch: nat, length: nat, evs: seq<Event>): Node
    requires c.HasStake()
  {
    if evs == [] then Init(name, epoch) else Step(c, Run(c, name, epoch, length, evs[..|evs| - 1]), length, evs[|evs| - 1])
  }

  // ----- counting -----

  function Certificates(qcs: seq<QC>, k: Slot): nat {
    if qcs == [] then 0 else
      var qc := qcs[|qcs| - 1];
      Certificates(qcs[..|qcs| - 1], k) + (if (qc.height, qc.round) == k then 1 else 0)
  }

  function Blocks(bs: seq<Block>, k: Slot): nat {
    if bs == [] then 0 else
      var b := bs[|bs| - 1];
      Blocks(bs[..|bs| - 1], k) + (if (b.height, b.round) == k then 1 else 0)
  }

  lemma {:induction false} CertificatesSnoc(qcs: seq<QC>, qc: QC, k: Slot)
    ensures Certificates(qcs + [qc], k) == Certificates(qcs, k) + (if (qc.height, qc.round) == k then 1 else 0)
  {
    assert (qcs + [qc])[..|qcs|] == qcs;
  }

  lemma {:induction false} BlocksSnoc(bs: seq<Block>, b: Block, k: Slot)
    ensures Blocks(bs + [b], k) == Blocks(bs, k) + (if (b.height, b.round) == k then 1 else 0)
  {
    assert (bs + [b])[..|bs|] == bs;
  }

  function MakerAt(s: Node, k: Slot): Maker {
    if k in s.makers then s.makers[k] else EMPTY_MAKER
  }

  /** Certificates of a slot have spent a quorum of stake each. */
  ghost predicate Spent(c: Committee, s: Node, k: Slot)
    requires c.HasStake()
  {
    var m := MakerAt(s, k);
    m.weight + Certificates(s.assembled, k) * c.QuorumThreshold() <= c.Weight(m.used)
  }

  /** A block of round r + 1 answers a certificate of round r; a round-one block answers the one
      invocation of its height or a certificate of round zero. */
  ghost predicate Accounted(s: Node, k: Slot) {
    && (k.1 == 0 ==> Blocks(s.blocks, k) == 0)
    && (k.1 >= 1 ==> Blocks(s.blocks, k) <= (if k.1 == 1 && k.0 in s.invoked then 1 else 0) + Certificates(s.assembled, (k.0, k.1 - 1)))
  }

  /** The form of the broadcast blocks and of the certificates that start a prepare. */
  ghost predicate Formed(s: Node, length: nat) {
    && (forall i :: 0 <= i < |s.blocks| ==>
          var b := s.blocks[i];
          && b.author == s.name && b.tag == PES && 1 <= b.round && (b.round == 1 || b.round <= length)
          && (b.round > 1 ==> b.qc.round == b.round - 1 && b.qc.proposer == s.name && b.qc.height == b.height))
    && (forall i :: 0 <= i < |s.prepares| ==> s.prepares[i].round == length && s.prepares[i].proposer == s.name)
  }

  lemma {:induction false} StepFormed(c: Committee, s: Node, length: nat, ev: Event)
    requires c.HasStake() && Formed(s, length)
    ensures Formed(Step(c, s, length, ev), length)
  {
  }

  lemma {:induction false} RunFormed(c: Committee, name: Name, epoch: nat, length: nat, evs: seq<Event>)
    requires c.HasStake()
    ensures Formed(Run(c, name, epoch, length, evs), length)
  {
    if evs != [] {
      RunFormed(c, name, epoch, length, evs[..|evs| - 1]);
      StepFormed(c, Run(c, name, epoch, length, evs[..|evs| - 1]), length, evs[|evs| - 1]);
    }
  }

  lemma {:induction false} AppendSpends(c: Committee, m: Maker, vote: HVote, n: nat)
    requires c.HasStake() && m.weight + n * c.QuorumThreshold() <= c.Weight(m.used)
    ensures var (m', r) := AppendVote(c, m, vote);
            m'.weight + (if r.Ok? && r.value.Some? then n + 1 else n) * c.QuorumThreshold() <= c.Weight(m'.used)
  {
    if vote.author !in m.used {
      WeightInsert(c, m.used, vote.author);
      NextMultiple(n, c.QuorumThreshold());
    }
  }

  /** What a counted vote does to its collector and to the certificates assembled. */
  lemma {:induction false} VoteEffect(c: Committee, s: Node, length: nat, vote: HVote, payload: seq<nat>)
    requires c.HasStake() && Counted(c, s, vote)
    ensures var t := HandleFallbackVote(c, s, length, vote, payload);
            var key := (vote.height, vote.round);
            var (m, r) := AppendVote(c, MakerAt(s, key), vote);
            && t.makers == s.makers[key := m]
            && (if r.Ok? && r.value.Some?
                then t.assembled == s.assembled + [r.value.value] && (r.value.value.height, r.value.value.round) == key
                else t.assembled == s.assembled)
  {
  }

  lemma {:induction false} VoteSpends(c: Committee, s: Node, length: nat, vote: HVote, payload: seq<nat>, k: Slot)
    requires c.HasStake() && Spent(c, s, k)
    ensures Spent(c, HandleFallbackVote(c, s, length, vote, payload), k)
  {
    if Counted(c, s, vote) {
      var key := (vote.height, vote.round);
      var (m, r) := AppendVote(c, MakerAt(s, key), vote);
      VoteEffect(c, s, length, vote, payload);
      if r.Ok? && r.value.Some? {
        CertificatesSnoc(s.assembled, r.value.value, k);
      }
      if k == key {
        AppendSpends(c, MakerAt(s, key), vote, Certificates(s.assembled, k));
      }
    }
  }

  lemma {:induction false} AccountedAfter(s: Node, t: Node, qc: QC, b: Block, k: Slot)
    requires Accounted(s, k) && t.invoked == s.invoked && t.assembled == s.assembled + [qc]
    requires t.blocks == s.blocks || (t.blocks == s.blocks + [b] && b.height == qc.height && b.round == qc.round + 1)
    ensures Accounted(t, k)
  {
    BlocksSnoc(s.blocks, b, k);
    if k.1 >= 1 {
      CertificatesSnoc(s.assembled, qc, (k.0, k.1 - 1));
    }
  }

  lemma {:induction false} CertificateAccounted(s: Node, length: nat, qc: QC, payload: seq<nat>, k: Slot)
    requires Accounted(s, k)
    ensures Accounted(OnCertificate(s, length, qc, payload), k)
  {
    AccountedAfter(s, OnCertificate(s, length, qc, payload), qc, NewBlock(qc, s.name, qc.height, s.epoch, qc.round + 1, payload, PES), k);
  }

  lemma {:induction false} InvokeAccounted(s: Node, height: nat, qc: Option<QC>, payload: seq<nat>, k: Slot)
    requires Accounted(s, k)
    ensures Accounted(InvokeFallback(s, height, qc, payload), k)
  {
    BlocksSnoc(s.blocks, NewBlock(if qc.Some? then qc.value else GENESIS_QC, s.name, height, s.epoch, 1, payload, PES), k);
  }

  lemma {:induction false} RunCounts(c: Committee, name: Name, epoch: nat, length: nat, evs: seq<Event>, k: Slot)
    requires c.HasStake()
    ensures var s := Run(c, name, epoch, length, evs); Spent(c, s, k) && Accounted(s, k)
  {
    if evs != [] {
      var n := |evs| - 1;
      RunCounts(c, name, epoch, length, evs[..n], k);
      StepCounts(c, Run(c, name, epoch, length, evs[..n]), length, evs[n], k);
    }
  }

  lemma {:induction false} StepCounts(c: Committee, s: Node, length: nat, ev: Event, k: Slot)
    requires c.HasStake() && Spent(c, s, k) && Accounted(s, k)
    ensures Spent(c, Step(c, s, length, ev), k) && Accounted(Step(c, s, length, ev), k)
  {
    match ev
    case Invoke(height, qc, payload) =>
      InvokeAccounted(s, height, qc, payload, k);
    case Vote(vote, payload) =>
      VoteSpends(c, s, length, vote, payload, k);
      if Counted(c, s, vote) {
        var (makers, r) := AddTo(c, s.makers, (vote.height, vote.round), vote);
        if r.Ok? && r.value.Some? {
          CertificateAccounted(s.(makers := makers), length, r.value.value, payload, k);
        }
      }
    case StartAgreement(_) =>
    case Advance(_) =>
  }

  // ----- which events add blocks and prepares -----

  /** The first invocation of a height whose agreement has not been invoked. */
  predicate OpensByInvoke(s: Node, ev: Event, h: nat) {
    ev.Invoke? && ev.height == h && h !in s.invoked && h !in s.smvbaInvoked
  }

  /** A new author whose stake brings the collector of the vote's slot to a quorum. */
  predicate Completes(c: Committee, s: Node, vote: HVote)
    requires c.HasStake()
  {
    var m := MakerAt(s, (vote.height, vote.round));
    vote.author !in m.used && m.weight + c.Stake(vote.author) >= c.QuorumThreshold()
  }

  /** A vote of the round for a block of the node that completes its collector. */
  predicate CompletesOwn(c: Committee, s: Node, ev: Event, k: Slot)
    requires c.HasStake()
  {
    ev.Vote? && Counted(c, s, ev.vote) && (ev.vote.height, ev.vote.round) == k && ev.vote.proposer == s.name && Completes(c, s, ev.vote)
  }

  predicate Extends(c: Committee, s: Node, length: nat, ev: Event, h: nat, r: nat)
    requires c.HasStake()
  {
    CompletesOwn(c, s, ev, (h, r)) && r < length && h !in s.smvbaInvoked
  }

  lemma {:induction false} InvokeAdds(s: Node, height: nat, qc: Option<QC>, payload: seq<nat>, h: nat, r: nat)
    ensures Blocks(InvokeFallback(s, height, qc, payload).blocks, (h, r + 1))
            == Blocks(s.blocks, (h, r + 1)) + if r == 0 && OpensByInvoke(s, Invoke(height, qc, payload), h) then 1 else 0
  {
    BlocksSnoc(s.blocks, NewBlock(if qc.Some? then qc.value else GENESIS_QC, s.name, height, s.epoch, 1, payload, PES), (h, r + 1));
  }

  lemma {:induction false} CertificateAdds(s: Node, length: nat, qc: QC, payload: seq<nat>, h: nat, r: nat)
    ensures Blocks(OnCertificate(s, length, qc, payload).blocks, (h, r + 1))
            == Blocks(s.blocks, (h, r + 1)) + if qc.proposer == s.name && (qc.height, qc.round) == (h, r) && r < length && h !in s.smvbaInvoked then 1 else 0
  {
    BlocksSnoc(s.blocks, NewBlock(qc, s.name, qc.height, s.epoch, qc.round + 1, payload, PES), (h, r + 1));
  }

  lemma {:induction false} VoteAdds(c: Committee, s: Node, length: nat, vote: HVote, payload: seq<nat>, h: nat, r: nat)
    requires c.HasStake()
    ensures Blocks(HandleFallbackVote(c, s, length, vote, payload).blocks, (h, r + 1))
            == Blocks(s.blocks, (h, r + 1)) + if Extends(c, s, length, Vote(vote, payload), h, r) then 1 else 0
  {
    if Counted(c, s, vote) && Completes(c, s, vote) {
      var (makers, made) := AddTo(c, s.makers, (vote.height, vote.round), vote);
      CertificateAdds(s.(makers := makers), length, made.value.value, payload, h, r);
    }
  }

  /** An event adds a block of round r + 1 exactly when it completes the collector of round r for a
      block of the node, below the last round, or, for round one, is the first invocation of the
      height, in both cases before the agreement of the height is invoked; and then it adds one. */
  lemma {:induction false} StepAdds(c: Committee, s: Node, length: nat, ev: Event, h: nat, r: nat)
    requires c.HasStake()
    ensures Blocks(Step(c, s, length, ev).blocks, (h, r + 1))
            == Blocks(s.blocks, (h, r + 1)) + if Extends(c, s, length, ev, h, r) || (r == 0 && OpensByInvoke(s, ev, h)) then 1 else 0
  {
    match ev
    case Invoke(height, qc, payload) => InvokeAdds(s, height, qc, payload, h, r);
    case Vote(vote, payload) => VoteAdds(c, s, length, vote, payload, h, r);
    case _ =>
  }

  /** The certificate that a completing vote assembles: of the vote's block and slot, with the
      signatures collected before and the vote's own. */
  predicate CertifiedBy(s: Node, vote: HVote, qc: QC) {
    && qc.hash == vote.hash && qc.height == vote.height && qc.round == vote.round && qc.proposer == vote.proposer
    && qc.votes == MakerAt(s, (vote.height, vote.round)).votes + [(vote.author, vote.signature)]
  }

  predicate NextBlock(s: Node, vote: HVote, b: Block) {
    b.author == s.name && b.height == vote.height && b.round == vote.round + 1 && b.epoch == s.epoch && b.tag == PES && CertifiedBy(s, vote, b.qc)
  }

  /** What the added block and the started prepare carry; a prepare starts exactly when the collector of
      the last round completes for a block of the node; every completed certificate is kept as the
      highest one of its slot. */
  lemma {:induction false} StepCarries(c: Committee, s: Node, length: nat, vote: HVote, payload: seq<nat>)
    requires c.HasStake()
    ensures var t := HandleFallbackVote(c, s, length, vote, payload);
            var k := (vote.height, vote.round);
            && (if Extends(c, s, length, Vote(vote, payload), vote.height, vote.round)
                then |t.blocks| == |s.blocks| + 1 && NextBlock(s, vote, t.blocks[|s.blocks|]) else t.blocks == s.blocks)
            && (if CompletesOwn(c, s, Vote(vote, payload), k) && vote.round == length
                then |t.prepares| == |s.prepares| + 1 && CertifiedBy(s, vote, t.prepares[|s.prepares|]) else t.prepares == s.prepares)
            && (if Counted(c, s, vote) && Completes(c, s, vote) then k in t.highQC && CertifiedBy(s, vote, t.highQC[k]) else t.highQC == s.highQC)
  {
  }

  /** A vote that comes too late, of an earlier epoch or without verification, changes nothing. */
  lemma {:induction false} LateVoteIgnored(c: Committee, s: Node, length: nat, vote: HVote, payload: seq<nat>)
    requires c.HasStake() && (s.height >= vote.height + 2 || s.epoch > vote.epoch || !vote.Verified(c))
    ensures HandleFallbackVote(c, s, length, vote, payload) == s
  {
  }

  /** Whether an invocation opened round one of the height in a run. */
  predicate InvokeOpened(c: Committee, name: Name, epoch: nat, length: nat, evs: seq<Event>, h: nat)
    requires c.HasStake()
  {
    evs != [] &&
    var before, ev := evs[..|evs| - 1], evs[|evs| - 1];
    InvokeOpened(c, name, epoch, length, before, h) || OpensByInvoke(Run(c, name, epoch, length, before), ev, h)
  }

  /** How often a certificate of a round led to a block of the next. */
  function Extensions(c: Committee, name: Name, epoch: nat, length: nat, evs: seq<Event>, h: nat, r: nat): nat
    requires c.HasStake()
  {
    if evs == [] then 0 else
      var before, ev := evs[..|evs| - 1], evs[|evs| - 1];
      Extensions(c, name, epoch, length, before, h, r)
      + if Extends(c, Run(c, name, epoch, length, before), length, ev, h, r) then 1 else 0
  }

  lemma {:induction false} InvokedStays(c: Committee, s: Node, length: nat, ev: Event, h: nat)
    requires c.HasStake()
    ensures h in s.invoked || OpensByInvoke(s, ev, h) ==> h in Step(c, s, length, ev).invoked
  {
  }

  /** Over every run and for every committee, the blocks of a height and round are counted exactly by the
      certificates that led to them, and in round one by an invocation besides, at most once. */
  lemma {:induction false} RoundCount(c: Committee, name: Name, epoch: nat, length: nat, evs: seq<Event>, h: nat, r: nat)
    requires c.HasStake()
    ensures var s := Run(c, name, epoch, length, evs);
            && Blocks(s.blocks, (h, r + 1)) == (if r == 0 && InvokeOpened(c, name, epoch, length, evs, h) then 1 else 0)
                                               + Extensions(c, name, epoch, length, evs, h, r)
            && (InvokeOpened(c, name, epoch, length, evs, h) ==> h in s.invoked)
  {
    if evs != [] {
      var n := |evs| - 1;
      RoundCount(c, name, epoch, length, evs[..n], h, r);
      StepAdds(c, Run(c, name, epoch, length, evs[..n]), length, evs[n], h, r);
      InvokedStays(c, Run(c, name, epoch, length, evs[..n]), length, evs[n], h);
    }
  }

  lemma {:induction false} ExtensionCertified(c: Committee, s: Node, length: nat, ev: Event, h: nat, r: nat)
    requires c.HasStake()
    ensures Certificates(Step(c, s, length, ev).assembled, (h, r))
            >= Certificates(s.assembled, (h, r)) + if Extends(c, s, length, ev, h, r) then 1 else 0
  {
    if ev.Vote? && Counted(c, s, ev.vote) {
      VoteEffect(c, s, length, ev.vote, ev.payload);
      var m := AppendVote(c, MakerAt(s, (ev.vote.height, ev.vote.round)), ev.vote).1;
      if m.Ok? && m.value.Some? {
        CertificatesSnoc(s.assembled, m.value.value, (h, r));
      }
    }
  }

  lemma {:induction false} ExtensionsCertified(c: Committee, name: Name, epoch: nat, length: nat, evs: seq<Event>, h: nat, r: nat)
    requires c.HasStake()
    ensures Extensions(c, name, epoch, length, evs, h, r) <= Certificates(Run(c, name, epoch, length, evs).assembled, (h, r))
  {
    if evs != [] {
      var n := |evs| - 1;
      ExtensionsCertified(c, name, epoch, length, evs[..n], h, r);
      ExtensionCertified(c, Run(c, name, epoch, length, evs[..n]), length, evs[n], h, r);
    }
  }

  /** For totals other than 2, 3 and 6, over any sequence of events: a slot gets at most one
      certificate and a node broadcasts at most one block per height and round above one. In round
      one it broadcasts at most one block if and only if the height was not opened both by an
      invocation and by a certificate of round zero. */
  lemma {:induction false} OneBlockPerRound(c: Committee, name: Name, epoch: nat, length: nat, evs: seq<Event>, h: nat, r: nat)
    requires c.HasStake() && c.Total() !in {2, 3, 6}
    ensures var s := Run(c, name, epoch, length, evs);
            && Certificates(s.assembled, (h, r)) <= 1
            && (r != 1 ==> Blocks(s.blocks, (h, r)) <= 1)
            && (Blocks(s.blocks, (h, 1)) <= 1
                <==> !(InvokeOpened(c, name, epoch, length, evs, h) && Extensions(c, name, epoch, length, evs, h, 0) > 0))
  {
    AtMostOne(c, name, epoch, length, evs, (h, r));
    LaterRounds(c, name, epoch, length, evs, h, r);
    RoundOne(c, name, epoch, length, evs, h);
  }

  lemma {:induction false} LaterRounds(c: Committee, name: Name, epoch: nat, length: nat, evs: seq<Event>, h: nat, r: nat)
    requires c.HasStake() && c.Total() !in {2, 3, 6}
    ensures r != 1 ==> Blocks(Run(c, name, epoch, length, evs).blocks, (h, r)) <= 1
  {
    RunCounts(c, name, epoch, length, evs, (h, r));
    if r >= 1 {
      AtMostOne(c, name, epoch, length, evs, (h, r - 1));
    }
  }

  lemma {:induction false} RoundOne(c: Committee, name: Name, epoch: nat, length: nat, evs: seq<Event>, h: nat)
    requires c.HasStake() && c.Total() !in {2, 3, 6}
    ensures Blocks(Run(c, name, epoch, length, evs).blocks, (h, 1)) <= 1
            <==> !(InvokeOpened(c, name, epoch, length, evs, h) && Extensions(c, name, epoch, length, evs, h, 0) > 0)
  {
    AtMostOne(c, name, epoch, length, evs, (h, 0));
    ExtensionsCertified(c, name, epoch, length, evs, h, 0);
    RoundCount(c, name, epoch, length, evs, h, 0);
  }

  lemma {:induction false} AtMostOne(c: Committee, name: Name, epoch: nat, length: nat, evs: seq<Event>, k: Slot)
    requires c.HasStake() && c.Total() !in {2, 3, 6}
    ensures Certificates(Run(c, name, epoch, length, evs).assembled, k) <= 1
  {
    var s := Run(c, name, epoch, length, evs);
    RunCounts(c, name, epoch, length, evs, k);
    WeightAtMostTotal(c, MakerAt(s, k).used);
    ThresholdFacts(c, {});
    Multiples(Certificates(s.assembled, k), c.QuorumThreshold());
  }

  /** Rounds stay within 1 .. length, later rounds extend the node's own certificate of the round
      before, and a prepare starts only from a certificate of the last round. */
  lemma {:induction false} ChainWellFormed(c: Committee, name: Name, epoch: nat, length: nat, evs: seq<Event>, b: Block, qc: QC)
    requires c.HasStake() && length >= 1
    ensures var s := Run(c, name, epoch, length, evs);
            && (b in s.blocks ==> 1 <= b.round <= length
                                  && (b.round > 1 ==> b.qc.round == b.round - 1 && b.qc.proposer == name && b.qc.height == b.height))
            && (qc in s.prepares ==> qc.round == length && qc.proposer == name)
  {
    RunFormed(c, name, epoch, length, evs);
    RunName(c, name, epoch, length, evs);
  }

  lemma {:induction false} RunName(c: Committee, name: Name, epoch: nat, length: nat, evs: seq<Event>)
    requires c.HasStake()
    ensures Run(c, name, epoch, length, evs).name == name
  {
    if evs != [] {
      RunName(c, name, epoch, length, evs[..|evs| - 1]);
    }
  }

  lemma {:induction false} RunSnoc(c: Committee, name: Name, epoch: nat, length: nat, evs: seq<Event>, ev: Event)
    requires c.HasStake()
    ensures Run(c, name, epoch, length, evs + [ev]) == Step(c, Run(c, name, epoch, length, evs), length, ev)
  {
    assert (evs + [ev])[..|evs|] == evs;
  }

  /** The node after its invocation and fallback votes of the given authorities for its block b: each
      certificate so far has led to a block of the next round, or to a prepare in the last one. */
  ghost predicate Polled(c: Committee, s: Node, name: Name, length: nat, b: Block, voters: set<Name>)
    requires c.HasStake()
  {
    var m, made := MakerAt(s, (b.height, b.round)), Certificates(s.assembled, (b.height, b.round));
    && s.name == name && s.epoch == b.epoch && s.height == 1 && s.smvbaInvoked == {}
    && m.used == voters && (made == 0 ==> m.weight == c.Weight(voters) < c.QuorumThreshold())
    && (b.round < length ==> Blocks(s.blocks, (b.height, b.round + 1)) == (if b.round == 0 then 1 else 0) + made)
    && (b.round == length ==> |s.prepares| == made)
  }

  lemma {:induction false} FirstInvoke(c: Committee, name: Name, length: nat, b: Block, payload: seq<nat>)
    requires c.HasStake()
    ensures Polled(c, InvokeFallback(Init(name, b.epoch), b.height, None, payload), name, length, b, {})
  {
    InvokeAdds(Init(name, b.epoch), b.height, None, payload, b.height, b.round);
  }

  lemma {:induction false} VoteKeeps(c: Committee, s: Node, length: nat, vote: HVote, payload: seq<nat>)
    requires c.HasStake()
    ensures var t := HandleFallbackVote(c, s, length, vote, payload);
            && t.name == s.name && t.epoch == s.epoch && t.height == s.height && t.smvbaInvoked == s.smvbaInvoked
  {
  }

  lemma {:induction false} OneMoreVoter(c: Committee, s: Node, length: nat, b: Block, payload: seq<nat>, voters: set<Name>, v: Name)
    requires c.HasStake() && b.author == s.name
    requires Polled(c, s, s.name, length, b, voters) && v !in voters && c.Stake(v) > 0
    ensures Polled(c, HandleFallbackVote(c, s, length, NewVote(b, v, PES), payload), s.name, length, b, voters + {v})
  {
    var vote := NewVote(b, v, PES);
    var r := AppendVote(c, MakerAt(s, (b.height, b.round)), vote).1;
    WeightInsert(c, voters, v);
    VoteEffect(c, s, length, vote, payload);
    VoteKeeps(c, s, length, vote, payload);
    VoteAdds(c, s, length, vote, payload, b.height, b.round);
    StepCarries(c, s, length, vote, payload);
    if r.value.Some? {
      CertificatesSnoc(s.assembled, r.value.value, (b.height, b.round));
    }
  }

  /** The chain goes on, for every committee: after its invocation, fallback votes of any set of
      authorities that weighs a quorum for a block of the node make it broadcast a block of the next
      round, or start a prepare in the last one. A block of round zero, an optimistic one, thus makes
      it broadcast a second block of round one. */
  lemma {:induction false} QuorumExtends(c: Committee, name: Name, length: nat, b: Block, payload: seq<nat>, voters: set<Name>)
    returns (evs: seq<Event>)
    requires c.HasStake() && b.author == name
    requires forall v :: v in voters ==> c.Stake(v) > 0
    ensures Polled(c, Run(c, name, b.epoch, length, evs), name, length, b, voters)
    ensures c.Weight(voters) >= c.QuorumThreshold() ==>
              var s := Run(c, name, b.epoch, length, evs);
              && (0 < b.round < length ==> Blocks(s.blocks, (b.height, b.round + 1)) >= 1)
              && (b.round == 0 < length ==> Blocks(s.blocks, (b.height, 1)) >= 2)
              && (b.round == length ==> |s.prepares| >= 1)
    decreases |voters|
  {
    if voters == {} {
      var invoke := Invoke(b.height, None, payload);
      RunSnoc(c, name, b.epoch, length, [], invoke);
      FirstInvoke(c, name, length, b, payload);
      evs := [] + [invoke];
    } else {
      var v := Least(voters);
      var rest := voters - {v};
      assert rest + {v} == voters;
      var before := QuorumExtends(c, name, length, b, payload, rest);
      var ev := Vote(NewVote(b, v, PES), payload);
      RunSnoc(c, name, b.epoch, length, before, ev);
      OneMoreVoter(c, Run(c, name, b.epoch, length, before), length, b, payload, rest, v);
      evs := before + [ev];
    }
  }

  /** The fields of the core that the fallback handlers update. */
  class Fallback {
    const c: Committee
    const length: nat
    const name: Name
    var epoch: nat
    var height: nat
    var invoked: set<nat>
    var smvbaInvoked: set<nat>
    var makers: map<Slot, Maker>
    var highQC: map<Slot, QC>
    var assembled: seq<QC>
    var blocks: seq<Block>
    var prepares: seq<QC>

    function View(): Node
      reads this
    {
      Node(name, epoch, height, invoked, smvbaInvoked, makers, highQC, assembled, blocks, prepares)
    }

    constructor (c: Committee, length: nat, name: Name, epoch: nat)
      ensures View() == Init(name, epoch) && this.c == c && this.length == length
    {
      this.c, this.length, this.name, this.epoch, height := c, length, name, epoch, 1;
      invoked, smvbaInvoked, makers, highQC := {}, {}, map[], map[];
      assembled, blocks, prepares := [], [], [];
    }

    method BroadcastPropose(block: Block)
      modifies `blocks
      ensures View() == Broadcast(old(View()), block)
    {
      if block.height in smvbaInvoked {
        return;
      }
      blocks := blocks + [block];
    }

    method OnInvoke(h: nat, qc: Option<QC>, payload: seq<nat>)
      modifies this
      ensures View() == InvokeFallback(old(View()), h, qc, payload) && h in invoked
      ensures if OpensByInvoke(old(View()), Invoke(h, qc, payload), h)
              then |blocks| == |old(blocks)| + 1 && var b := blocks[|old(blocks)|]; b.author == name && b.height == h && b.round == 1 && (qc.Some? ==> b.qc == qc.value)
              else blocks == old(blocks)
    {
      if h in invoked {
        return;
      }
      invoked := invoked + {h};
      var parent := if qc.Some? then qc.value else GENESIS_QC;
      BroadcastPropose(NewBlock(parent, name, h, epoch, 1, payload, PES));
    }

    method OnVote(vote: HVote, payload: seq<nat>)
      requires c.HasStake()
      modifies this
      ensures View() == HandleFallbackVote(c, old(View()), length, vote, payload)
      ensures if Extends(c, old(View()), length, Vote(vote, payload), vote.height, vote.round)
              then |blocks| == |old(blocks)| + 1 && NextBlock(old(View()), vote, blocks[|old(blocks)|]) else blocks == old(blocks)
      ensures if CompletesOwn(c, old(View()), Vote(vote, payload), (vote.height, length))
              then |prepares| == |old(prepares)| + 1 && CertifiedBy(old(View()), vote, prepares[|old(prepares)|]) else prepares == old(prepares)
    {
      StepCarries(c, View(), length, vote, payload);
      if height >= vote.height + 2 || epoch > vote.epoch || !vote.Verified(c) {
        return;
      }
      var (updated, r) := AddTo(c, makers, (vote.height, vote.round), vote);
      makers := updated;
      if r.Ok? && r.value.Some? {
        Follow(r.value.value, payload);
      }
    }

    /** What an assembled certificate leads to. */
    method Follow(qc: QC, payload: seq<nat>)
      modifies `highQC, `assembled, `blocks, `prepares
      ensures View() == OnCertificate(old(View()), length, qc, payload)
    {
      highQC := highQC[(qc.height, qc.round) := qc];
      assembled := assembled + [qc];
      if qc.proposer == name {
        if qc.round < length {
          BroadcastPropose(NewBlock(qc, name, qc.height, epoch, qc.round + 1, payload, PES));
        } else if qc.round == length {
          prepares := prepares + [qc];
        }
      }
    }
  }
}
