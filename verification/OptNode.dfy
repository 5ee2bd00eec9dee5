/** One node on the optimistic path: what each handler does to the node's state, as functions.
    The class in Core.dfy performs the same handlers in place. */
module OptNode {
  import opened Committees
  import opened Messages
  import opened Aggregation
  import opened Leaders

  datatype Config = Config(c: Committee, elector: Elector) {
    ghost predicate Valid() {
      && c.HasStake()
      && elector.Valid()
      && (forall n :: n in elector.names <==> n in c.authorities)
    }
  }

  datatype Crash = Running | UnknownLeader | NotALeader | MissingAncestor

  datatype PayloadStatus = Accept | Reject | Wait

  /** What the prepare and fallback phases do in the middle of block processing, as far as the
      optimistic state is concerned: possibly a fast-path commit, possibly an error that ends
      the processing. */
  datatype PrepareEffect = PrepareEffect(fast: Option<QC>, failed: bool)

  datatype Node = Node(
    name: Name,
    epoch: nat,
    height: nat,
    highQC: QC,
    lastVoted: nat,
    lastCommitted: nat,
    makers: map<(nat, Digest), Maker>,
    store: map<Digest, Block>,
    suspended: set<Block>,            // handed to the mempool or the synchronizer for a loop-back
    segments: seq<seq<Digest>>,       // this epoch's commit walks, each newest block first
    past: seq<seq<Digest>>,           // the logs of the finished epochs
    crash: Crash)

  function InitNode(name: Name): Node {
    Node(name, 0, 1, GENESIS_QC, 0, 0, map[], map[], {}, [], [], Running)
  }

  ghost predicate Keyed(store: map<Digest, Block>) {
    forall d :: d in store ==> store[d].Digest() == d
  }

  // ----- commit walks -----

  function ParentOf(store: map<Digest, Block>, block: Block): Option<Block> {
    if block.qc.IsGenesis() then Some(GENESIS)
    else if block.qc.hash in store then Some(store[block.qc.hash])
    else None
  }

  /** The blocks a commit of `block` hands out, newest first. The hash chain is well-founded, so
      the walk ends whatever the store holds. */
  ghost function Walk(store: map<Digest, Block>, block: Block, committed: nat): seq<Digest>
    requires Keyed(store)
    decreases block.Digest()
  {
    if block.height <= committed then []
    else if block.qc.IsGenesis() || block.qc.hash !in store then [block.Digest()]
    else [block.Digest()] + Walk(store, store[block.qc.hash], committed)
  }

  /** The block at which the walk breaks off for want of a parent. */
  ghost function WalkBreak(store: map<Digest, Block>, block: Block, committed: nat): Option<Block>
    requires Keyed(store)
    decreases block.Digest()
  {
    if block.height <= committed || block.qc.IsGenesis() then None
    else if block.qc.hash !in store then Some(block)
    else WalkBreak(store, store[block.qc.hash], committed)
  }

  /** A walk read from its oldest block. */
  function OldestFirst(walk: seq<Digest>): seq<Digest> {
    seq(|walk|, i requires 0 <= i < |walk| => walk[|walk| - 1 - i])
  }

  /** The commit log in chain order: the walks reversed and put one after the other. */
  function Log(segments: seq<seq<Digest>>): seq<Digest> {
    if segments == [] then [] else Log(segments[..|segments| - 1]) + OldestFirst(segments[|segments| - 1])
  }

  ghost function Commit(s: Node, block: Block): Node
    requires Keyed(s.store)
  {
    var broken := WalkBreak(s.store, block, s.lastCommitted);
    s.(segments := s.segments + [Walk(s.store, block, s.lastCommitted)],
       suspended := if broken.Some? then s.suspended + {broken.value} else s.suspended,
       lastCommitted := block.height)
  }

  // ----- handlers -----

  function ProcessQC(s: Node, qc: QC): Node {
    var t := if qc.height < s.height then s else
             s.(makers := map k | k in s.makers && k.0 > s.height :: s.makers[k], height := qc.height + 1);
    if qc.height > s.highQC.height then t.(highQC := qc) else t
  }

  /** The quorum-th optimistic prepare: commit the block its certificate names, if it is here. */
  ghost function FastCommit(s: Node, qc: QC): Node
    requires Keyed(s.store)
  {
    if qc.hash in s.store && s.store[qc.hash].height > s.lastCommitted then Commit(s, s.store[qc.hash]) else s
  }

  predicate MayVote(s: Node, block: Block) {
    block.height == s.height && block.height > s.lastVoted && block.qc.height + 1 == block.height
  }

  ghost function CommitAndVote(s: Node, b0: Block, b1: Block, block: Block): (Node, Option<HVote>)
    requires Keyed(s.store)
  {
    if !((b0.height + 1 == b1.height && b1.height + 1 == block.height) || block.qc.IsGenesis()) then (s, None) else
      var t := if b0.height > s.lastCommitted then Commit(s, b0) else s;
      if MayVote(t, block) then (t.(lastVoted := block.height), Some(NewVote(block, s.name, OPT))) else (t, None)
  }

  function StoreBlock(s: Node, block: Block): (t: Node)
    ensures Keyed(s.store) ==> Keyed(t.store)
  {
    s.(store := s.store[block.Digest() := block])
  }

  ghost function ProcessOptBlock(s: Node, block: Block, prep: PrepareEffect): (Node, Option<HVote>)
    requires Keyed(s.store)
  {
    var b1 := ParentOf(s.store, block);
    if b1.None? then (s.(suspended := s.suspended + {block}), None) else
      var b0 := ParentOf(s.store, b1.value);
      if b0.None? then (s.(crash := MissingAncestor), None) else WithAncestors(s, b0.value, b1.value, block, prep)
  }

  /** Both ancestors are here: store the block, let the prepare phase act, commit and vote. */
  ghost function WithAncestors(s: Node, b0: Block, b1: Block, block: Block, prep: PrepareEffect): (Node, Option<HVote>)
    requires Keyed(s.store)
  {
    var t := StoreBlock(s, block);
    var u := if prep.fast.Some? then FastCommit(t, prep.fast.value) else t;
    if prep.failed then (u, None) else CommitAndVote(u, b0, b1, block)
  }

  function EpochInit(s: Node): Node {
    s.(epoch := s.epoch + 1, height := 1, highQC := GENESIS_QC, lastVoted := 0, lastCommitted := 0,
       makers := map[], segments := [], past := s.past + [Log(s.segments)])
  }

  ghost function HandleOptProposal(cfg: Config, s: Node, block: Block, status: PayloadStatus, prep: PrepareEffect): (Node, Option<HVote>)
    requires cfg.Valid() && Keyed(s.store)
  {
    if block.epoch < s.epoch then (s, None)
    else if block.epoch > s.epoch then (EpochInit(s), None)
    else if block.author !in cfg.elector.names then (s.(crash := UnknownLeader), None)
    else if cfg.elector.IndexAsLeader(block.author, block.height).None? || !VerifiedBlock(cfg.c, block) then (s, None)
    else
      var t := ProcessQC(s, block.qc);
      AfterPayload(t, block, status, prep)
  }

  /** The payload's verdict decides whether the block is dropped, kept for later or processed. */
  ghost function AfterPayload(s: Node, block: Block, status: PayloadStatus, prep: PrepareEffect): (Node, Option<HVote>)
    requires Keyed(s.store)
  {
    match status
    case Reject => (s, None)
    case Wait => (s.(suspended := s.suspended + {block}), None)
    case Accept => ProcessOptBlock(s, block, prep)
  }

  function HandleOptVote(cfg: Config, s: Node, vote: HVote): Node
    requires cfg.Valid() && s.name in cfg.elector.names
  {
    if vote.height < s.height || s.epoch > vote.epoch then s
    else if cfg.elector.IndexAsLeader(s.name, vote.height + 1).None? || !vote.Verified(cfg.c) then s
    else
      var (makers, r) := AddTo(cfg.c, s.makers, (vote.height, vote.hash), vote);
      var t := s.(makers := makers);
      if r.Ok? && r.value.Some? then ProcessQC(t, r.value.value) else t
  }

  /** The block a leader proposes at its height. */
  function OwnProposal(s: Node, payload: seq<nat>): Block {
    NewBlock(s.highQC, s.name, s.height, s.epoch, 0, payload, OPT)
  }

  ghost function OptPropose(cfg: Config, s: Node, payload: seq<nat>, prep: PrepareEffect): (Node, Option<HVote>)
    requires cfg.Valid() && Keyed(s.store) && s.name in cfg.elector.names
  {
    if cfg.elector.IndexAsLeader(s.name, s.height).None? then (s.(crash := NotALeader), None)
    else ProcessOptBlock(s, OwnProposal(s, payload), prep)
  }

  /** The output of the agreement: committed unless it is an optimistic placeholder or too late.
      The flag says that the epoch ends with it. */
  ghost function ProcessParOut(s: Node, block: Block): (Node, bool)
    requires Keyed(s.store)
  {
    if s.epoch > block.epoch || s.height >= block.height + 2 || block.tag == OPT then (s, false) else
      var t := StoreBlock(s, block);
      if block.height > t.lastCommitted then (Commit(t, block), block.tag == PES) else (t, false)
  }
}
