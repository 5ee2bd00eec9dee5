/** The node itself: the optimistic handlers of the consensus core, updating its fields in place.
    Each handler keeps the height invariant and is tied to the function of OptNode that the protocol
    proofs are about. */
module CoreNode {
  import opened Committees
  import opened Messages
  import opened Aggregation
  import opened OptNode
  import opened OptEffects

  /** One turn of the commit loop. */
  lemma {:induction false} WalkTurn(store: map<Digest, Block>, current: Block, committed: nat)
    requires Keyed(store) && current.height > committed
    ensures var parent := ParentOf(store, current);
            if parent.None? then Walk(store, current, committed) == [current.Digest()] && WalkBreak(store, current, committed) == Some(current)
            else && Walk(store, current, committed) == [current.Digest()] + Walk(store, parent.value, committed)
                 && WalkBreak(store, current, committed) == WalkBreak(store, parent.value, committed)
                 && (parent.value.height > committed ==> parent.value.Digest() == current.qc.hash)
  {
  }

  lemma {:induction false} Shifted(walk: seq<Digest>, d: Digest, rest: seq<Digest>)
    ensures (walk + [d]) + rest == walk + ([d] + rest)
  {
  }

  lemma {:induction false} NothingLeft(store: map<Digest, Block>, current: Block, committed: nat, walk: seq<Digest>)
    requires Keyed(store) && current.height <= committed
    ensures walk + Walk(store, current, committed) == walk && WalkBreak(store, current, committed) == None
  {
  }

  /** The commit loop: from the block down to the last committed height, or to the first block
      whose parent is missing. It ends on every store because a digest is never its own ancestor. */
  method CollectWalk(store: map<Digest, Block>, block: Block, committed: nat) returns (walk: seq<Digest>, broken: Option<Block>)
    requires Keyed(store)
    ensures walk == Walk(store, block, committed)
    ensures broken == WalkBreak(store, block, committed)
  {
    walk, broken := [], None;
    var current := block;
    ghost var rank := block.Digest();
    ghost var rest, last := Walk(store, block, committed), WalkBreak(store, block, committed);
    while current.height > committed
      invariant current.height > committed ==> rank == current.Digest()
      invariant rest == Walk(store, current, committed) && last == WalkBreak(store, current, committed)
      invariant walk + rest == Walk(store, block, committed) && last == WalkBreak(store, block, committed)
      invariant broken == None
      decreases rank
    {
      WalkTurn(store, current, committed);
      var parent := ParentOf(store, current);
      if parent.None? {
        return walk + [current.Digest()], Some(current);
      }
      rest := Walk(store, parent.value, committed);
      Shifted(walk, current.Digest(), rest);
      walk := walk + [current.Digest()];
      rank := current.qc.hash;
      current := parent.value;
    }
    NothingLeft(store, current, committed, walk);
  }

  class Core {
    const cfg: Config
    const name: Name
    var epoch: nat
    var height: nat
    var highQC: QC
    var lastVoted: nat
    var lastCommitted: nat
    var makers: map<(nat, Digest), Maker>
    var store: map<Digest, Block>
    var suspended: set<Block>
    var segments: seq<seq<Digest>>
    var past: seq<seq<Digest>>
    var crash: Crash

    /** The node stands one above its highest certificate, has not voted above its height, and keeps
        one log per finished epoch. */
    ghost predicate Upright()
      reads this
    {
      && cfg.Valid() && name in cfg.elector.names && Keyed(store)
      && height == highQC.height + 1 && lastVoted <= height && |past| == epoch
    }

    /** Besides, its collectors weigh exactly their voters, below a quorum. */
    ghost predicate Valid()
      reads this
    {
      Upright() && Counting(cfg.c, makers, height)
    }

    function View(): Node
      reads this
    {
      Node(name, epoch, height, highQC, lastVoted, lastCommitted, makers, store, suspended, segments, past, crash)
    }

    constructor (cfg: Config, name: Name)
      requires cfg.Valid() && name in cfg.elector.names
      ensures Valid() && View() == InitNode(name) && this.cfg == cfg
    {
      this.cfg, this.name := cfg, name;
      epoch, height, highQC, lastVoted, lastCommitted := 0, 1, GENESIS_QC, 0, 0;
      makers, store, suspended, segments, past, crash := map[], map[], {}, [], [], Running;
    }

    /** Commit a block and every ancestor above the last committed height, newest first. */
    method CommitBlock(block: Block)
      requires Valid()
      modifies this`suspended, this`segments, this`lastCommitted
      ensures Valid() && View() == OptNode.Commit(old(View()), block)
      ensures WalkBreak(store, block, old(lastCommitted)).None? ==> suspended == old(suspended)
      ensures lastCommitted == block.height && (block.height > old(lastCommitted) ==> EndsWith(Log(segments), block.Digest()))
    {
      if block.height > lastCommitted {
        CommitEffect(View(), block);
      }
      var walk, broken := CollectWalk(store, block, lastCommitted);
      if broken.Some? {
        suspended := suspended + {broken.value};
      }
      segments := segments + [walk];
      lastCommitted := block.height;
    }

    method FastPath(qc: QC)
      requires Valid()
      modifies this
      ensures Valid() && View() == OptNode.FastCommit(old(View()), qc)
      ensures qc.hash in store && store[qc.hash].height > old(lastCommitted) ==>
                lastCommitted == store[qc.hash].height && EndsWith(Log(segments), qc.hash)
    {
      if qc.hash in store && store[qc.hash].height > lastCommitted {
        CommitBlock(store[qc.hash]);
      }
    }

    method AdvanceTo(qc: QC)
      requires Upright() && Counting(cfg.c, makers, Max(height, qc.height + 1))
      modifies `makers, `height, `highQC
      ensures Valid() && View() == OptNode.ProcessQC(old(View()), qc)
      ensures height == Max(old(height), qc.height + 1) && highQC == if qc.height >= old(height) then qc else old(highQC)
      ensures forall k: Key :: k in makers <==> k in old(makers) && (qc.height >= old(height) ==> k.0 > old(height))
    {
      if qc.height >= height {
        makers := map k | k in makers && k.0 > height :: makers[k];
        height := qc.height + 1;
      }
      if qc.height > highQC.height {
        highQC := qc;
      }
    }

    method MakeOptVote(block: Block) returns (vote: Option<HVote>)
      requires Valid() && block.height == height
      modifies this`lastVoted
      ensures Valid()
      ensures vote.Some? <==> MayVote(old(View()), block)
      ensures vote.Some? ==> vote.value == NewVote(block, name, OPT) && lastVoted == block.height
      ensures vote.None? ==> lastVoted == old(lastVoted)
    {
      var rule1 := block.height > lastVoted;
      var rule2 := block.qc.height + 1 == block.height;
      if !(rule1 && rule2) {
        return None;
      }
      lastVoted := Max(lastVoted, block.height);
      return Some(NewVote(block, name, OPT));
    }

    /** The two-chain rule: commit the grandparent of a block on consecutive heights, then vote. */
    method TwoChain(b0: Block, b1: Block, block: Block) returns (vote: Option<HVote>)
      requires Valid()
      modifies `suspended, `segments, `lastCommitted, `lastVoted
      ensures Valid() && (View(), vote) == OptNode.CommitAndVote(old(View()), b0, b1, block)
      ensures vote.Some? <==> && ((b0.height + 1 == b1.height && b1.height + 1 == block.height) || block.qc.IsGenesis())
                              && block.height == height && old(lastVoted) < block.height && block.qc.height + 1 == block.height
      ensures vote.Some? ==> lastVoted == height && vote.value == NewVote(block, name, OPT)
      ensures vote.None? ==> lastVoted == old(lastVoted)
      ensures b0.height + 1 == b1.height && b1.height + 1 == block.height ==> Committed(old(View()), View(), b0, false)
    {
      vote := None;
      var consecutive := b0.height + 1 == b1.height && b1.height + 1 == block.height;
      if !(consecutive || block.qc.IsGenesis()) {
        return;
      }
      if b0.height > lastCommitted {
        CommitBlock(b0);
      }
      if block.height != height {
        return;
      }
      vote := MakeOptVote(block);
    }

    method ProcessBlock(block: Block, prep: PrepareEffect) returns (vote: Option<HVote>)
      requires Valid()
      modifies this
      ensures Valid() && (View(), vote) == OptNode.ProcessOptBlock(old(View()), block, prep)
      ensures ProcessTakes(old(View()), block, prep, View(), vote)
    {
      ProcessLaws(View(), block, prep);
      vote := None;
      var b1 := ParentOf(store, block);
      if b1.None? {
        suspended := suspended + {block};
        return;
      }
      var b0 := ParentOf(store, b1.value);
      if b0.None? {
        crash := MissingAncestor;
        return;
      }
      vote := Settle(b0.value, b1.value, block, prep);
    }

    /** Both ancestors are here: store the block, let the prepare phase act, apply the two-chain rule. */
    method Settle(b0: Block, b1: Block, block: Block, prep: PrepareEffect) returns (vote: Option<HVote>)
      requires Valid()
      modifies this
      ensures Valid() && (View(), vote) == OptNode.WithAncestors(old(View()), b0, b1, block, prep)
      ensures store == old(store)[block.Digest() := block]
    {
      vote := None;
      store := store[block.Digest() := block];
      if prep.fast.Some? {
        FastPath(prep.fast.value);
      }
      if !prep.failed {
        vote := TwoChain(b0, b1, block);
      }
    }

    method TakeVerdict(block: Block, status: PayloadStatus, prep: PrepareEffect) returns (vote: Option<HVote>)
      requires Valid()
      modifies this
      ensures Valid() && epoch == old(epoch) && height == old(height)
      ensures (View(), vote) == OptNode.AfterPayload(old(View()), block, status, prep)
      ensures status.Wait? ==> suspended == old(suspended) + {block}
      ensures status.Accept? ==> forall b0 :: Linked(old(store), b0, block) && !prep.failed ==> lastCommitted >= b0.height
    {
      vote := None;
      match status {
        case Reject =>
        case Wait => suspended := suspended + {block};
        case Accept => vote := ProcessBlock(block, prep);
      }
    }

    method HandleProposal(block: Block, status: PayloadStatus, prep: PrepareEffect) returns (vote: Option<HVote>, parked: Option<Block>)
      requires Valid()
      modifies this
      ensures Valid() && (View(), vote) == OptNode.HandleOptProposal(cfg, old(View()), block, status, prep)
      ensures parked == if block.epoch > old(epoch) then Some(block) else None
      ensures parked.Some? <==> epoch != old(epoch)
      ensures epoch == old(epoch) && block.author in cfg.elector.names && !Welcome(cfg, old(View()), block) ==> View() == old(View()) && vote.None?
      ensures Welcome(cfg, old(View()), block) ==> height == Max(old(height), block.qc.height + 1)
      ensures Welcome(cfg, old(View()), block) && status.Wait? ==> block in suspended
      ensures Welcome(cfg, old(View()), block) && status.Accept? && !prep.failed ==> forall b0 :: Linked(old(store), b0, block) ==> lastCommitted >= b0.height
    {
      vote, parked := None, None;
      if block.epoch < epoch {
        return;
      } else if block.epoch > epoch {
        parked := Some(block);
        NextEpoch();
        return;
      }
      if block.author !in cfg.elector.names {
        crash := UnknownLeader;
        return;
      }
      if cfg.elector.IndexAsLeader(block.author, block.height).None? || !VerifiedBlock(cfg.c, block) {
        return;
      }
      AdvanceTo(block.qc);
      vote := TakeVerdict(block, status, prep);
    }

    /** Count a vote and follow the certificate it completes, if any. */
    method CountVote(vote: HVote) returns (completed: bool)
      requires Valid() && Taken(cfg, View(), vote)
      modifies `makers, `height, `highQC
      ensures Valid() && View() == OptNode.HandleOptVote(cfg, old(View()), vote)
      ensures completed <==> CompletesQuorum(cfg, old(View()), vote)
      ensures completed ==> height == vote.height + 1 && highQC.height == vote.height && highQC.hash == vote.hash
    {
      var (updated, r) := AddTo(cfg.c, makers, (vote.height, vote.hash), vote);
      CollectedCounting(cfg, View(), vote);
      makers := updated;
      completed := r.Ok? && r.value.Some?;
      if completed {
        AdvanceTo(r.value.value);
      }
    }

    /** A certificate makes the node propose, at once as first leader or after as many delays as its
        place in the window. */
    method HandleVote(vote: HVote) returns (turn: Option<nat>)
      requires Valid()
      modifies this
      ensures Valid() && View() == OptNode.HandleOptVote(cfg, old(View()), vote)
      ensures turn.Some? <==> CompletesQuorum(cfg, old(View()), vote)
      ensures turn.Some? ==> height == vote.height + 1 && highQC.hash == vote.hash && turn == cfg.elector.IndexAsLeader(name, height)
      ensures !Taken(cfg, old(View()), vote) ==> View() == old(View())
    {
      turn := None;
      if vote.height < height || epoch > vote.epoch {
        return;
      }
      if cfg.elector.IndexAsLeader(name, vote.height + 1).None? || !vote.Verified(cfg.c) {
        return;
      }
      var completed := CountVote(vote);
      if completed {
        turn := cfg.elector.IndexAsLeader(name, height);
      }
    }

    method Propose(payload: seq<nat>, prep: PrepareEffect) returns (vote: Option<HVote>)
      requires Valid()
      modifies this
      ensures Valid() && (View(), vote) == OptNode.OptPropose(cfg, old(View()), payload, prep)
      ensures MayVote(old(View()), OwnProposal(old(View()), payload)) <==> old(lastVoted) < old(height)
      ensures var own := OwnProposal(old(View()), payload);
              vote.Some? <==> cfg.elector.IndexAsLeader(name, old(height)).Some? && Votable(old(View()), own, prep)
      ensures vote.Some? ==> old(lastVoted) < old(height) == vote.value.height && vote.value.hash.parent == old(highQC.hash)
    {
      if cfg.elector.IndexAsLeader(name, height).None? {
        crash := NotALeader;
        return None;
      }
      vote := ProcessBlock(NewBlock(highQC, name, height, epoch, 0, payload, OPT), prep);
    }

    /** An optimistic output invokes the fallback one height up instead of being committed. */
    method ParOut(block: Block) returns (ended: bool, fallback: Option<nat>)
      requires Valid()
      modifies this
      ensures Valid() && (View(), ended) == OptNode.ProcessParOut(old(View()), block)
      ensures fallback.Some? ==> fallback.value == block.height + 1 && View() == old(View())
      ensures fallback.Some? <==> block.epoch >= old(epoch) && old(height) < block.height + 2 && block.tag == OPT
      ensures var takes := block.epoch >= old(epoch) && old(height) < block.height + 2 && block.tag != OPT;
              && (ended <==> takes && block.tag == PES && block.height > old(lastCommitted))
              && (takes ==> block.Digest() in store && store[block.Digest()] == block)
              && (takes && block.height > old(lastCommitted) ==> lastCommitted == block.height && EndsWith(Log(segments), block.Digest()))
    {
      ParOutEffect(View(), block);
      if epoch > block.epoch || height >= block.height + 2 {
        return false, None;
      }
      if block.tag == OPT {
        return false, Some(block.height + 1);
      }
      store := store[block.Digest() := block];
      if block.height > lastCommitted {
        CommitBlock(block);
        return block.tag == PES, None;
      }
      return false, None;
    }

    method NextEpoch()
      requires Valid()
      modifies this
      ensures Valid() && View() == OptNode.EpochInit(old(View()))
      ensures epoch == old(epoch) + 1 && height == 1 && lastVoted == lastCommitted == 0 && makers == map[] && segments == []
      ensures store == old(store) && suspended == old(suspended) && past == old(past) + [Log(old(segments))]
    {
      var log := Log(segments);
      assert log == Log(old(View()).segments);
      past := past + [log];
      segments := [];
      makers := map[];
      highQC := GENESIS_QC;
      epoch, height := epoch + 1, 1;
      lastVoted, lastCommitted := 0, 0;
    }
  }
}
