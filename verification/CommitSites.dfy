/** The three places that commit blocks, in any interleaving: the two-chain rule, the fast path
    and the output of the agreement. */
module CommitSites {
  import opened Messages
  import opened OptNode

  datatype Act =
    | Put(block: Block)          // a block is stored, on whichever route
    | TwoChain(block: Block)     // process_opt_block, committing the block's grandparent
    | Fast(qc: QC)               // handle_par_prepare
    | ParOut(block: Block)       // process_par_out

  /** The grandparent that the two-chain rule commits: both ancestors are stored and the heights are
      consecutive, or the parent is genesis. */
  function Grandparent(store: map<Digest, Block>, block: Block): Option<Block> {
    var b1 := ParentOf(store, block);
    if b1.None? then None else
      var b0 := ParentOf(store, b1.value);
      if b0.None? then None
      else if (b0.value.height + 1 == b1.value.height && b1.value.height + 1 == block.height) || block.qc.IsGenesis() then b0
      else None
  }

  ghost function Do(s: Node, act: Act): Node
    requires Keyed(s.store)
  {
    match act
    case Put(block) => StoreBlock(s, block)
    case TwoChain(block) =>
      var b0 := Grandparent(s.store, block);
      if b0.Some? && b0.value.height > s.lastCommitted then Commit(s, b0.value) else s
    case Fast(qc) => FastCommit(s, qc)
    case ParOut(block) => ProcessParOut(s, block).0
  }

  /** Parents do not stand above their children, leaving aside height zero, which is never committed. */
  ghost predicate Ordered(store: map<Digest, Block>) {
    forall d :: d in store && store[d].qc.hash in store && store[d].height > 0 ==> store[store[d].qc.hash].height <= store[d].height
  }

  ghost predicate NoRepeats(ds: seq<Digest>) {
    forall i, j :: 0 <= i < j < |ds| ==> ds[i] != ds[j]
  }

  ghost predicate HeightsWithin(ds: seq<Digest>, low: nat, high: nat) {
    forall i :: 0 <= i < |ds| ==> ds[i].BlockDigest? && low < ds[i].height <= high
  }

  /** Length of a hash chain. */
  ghost function Depth(d: Digest): nat {
    if d.BlockDigest? then 1 + Depth(d.parent) else 0
  }

  ghost predicate Descending(ds: seq<Digest>) {
    forall i, j :: 0 <= i < j < |ds| ==> Depth(ds[j]) < Depth(ds[i])
  }

  lemma {:induction false} WalkShape(store: map<Digest, Block>, b: Block, committed: nat)
    requires Keyed(store) && Ordered(store) && b.Digest() in store && store[b.Digest()] == b
    ensures var w := Walk(store, b, committed);
            && Descending(w) && HeightsWithin(w, committed, b.height)
            && forall i :: 0 <= i < |w| ==> Depth(w[i]) <= Depth(b.Digest())
    decreases b.Digest()
  {
    if b.height > committed && !b.qc.IsGenesis() && b.qc.hash in store {
      var p := store[b.qc.hash];
      assert p.Digest() == b.qc.hash && p.height <= b.height;
      WalkShape(store, p, committed);
      var w := Walk(store, p, committed);
      assert Walk(store, b, committed) == [b.Digest()] + w;
      assert Depth(b.Digest()) == 1 + Depth(p.Digest());
    }
  }

  lemma {:induction false} OldestFirstShape(ds: seq<Digest>, low: nat, high: nat)
    requires Descending(ds) && HeightsWithin(ds, low, high)
    ensures NoRepeats(OldestFirst(ds)) && HeightsWithin(OldestFirst(ds), low, high)
  {
    var log := OldestFirst(ds);
    forall i, j | 0 <= i < j < |log| ensures log[i] != log[j] {
      assert Depth(ds[|ds| - 1 - i]) < Depth(ds[|ds| - 1 - j]);
    }
    assert forall i :: 0 <= i < |log| ==> log[i] == ds[|ds| - 1 - i];
  }

  /** What every interleaving keeps: nothing committed twice, nothing committed above the mark. */
  ghost predicate Sound(s: Node) {
    && Keyed(s.store)
    && NoRepeats(Log(s.segments))
    && forall i :: 0 <= i < |Log(s.segments)| ==> Log(s.segments)[i].BlockDigest? && Log(s.segments)[i].height <= s.lastCommitted
  }

  lemma {:induction false} CommitSound(s: Node, b: Block)
    requires Sound(s) && Ordered(s.store) && b.Digest() in s.store && s.store[b.Digest()] == b && b.height > s.lastCommitted
    ensures Sound(Commit(s, b)) && Commit(s, b).lastCommitted > s.lastCommitted
  {
    var walk := Walk(s.store, b, s.lastCommitted);
    WalkShape(s.store, b, s.lastCommitted);
    OldestFirstShape(walk, s.lastCommitted, b.height);
    var segs := s.segments + [walk];
    assert segs[..|segs| - 1] == s.segments;
    assert Log(segs) == Log(s.segments) + OldestFirst(walk);
  }

  lemma {:induction false} ActSound(s: Node, act: Act)
    requires Sound(s) && Ordered(Do(s, act).store)
    ensures Sound(Do(s, act))
    ensures Do(s, act).segments == s.segments
            || (|Do(s, act).segments| == |s.segments| + 1 && Do(s, act).lastCommitted > s.lastCommitted)
    ensures Do(s, act).lastCommitted >= s.lastCommitted
  {
    match act
    case Put(block) =>
    case TwoChain(block) =>
      var b0 := Grandparent(s.store, block);
      if b0.Some? && b0.value.height > s.lastCommitted {
        CommitSound(s, b0.value);
      }
    case Fast(qc) =>
      if qc.hash in s.store && s.store[qc.hash].height > s.lastCommitted {
        CommitSound(s, s.store[qc.hash]);
      }
    case ParOut(block) =>
      var t := StoreBlock(s, block);
      if Do(s, act) != s && block.height > t.lastCommitted {
        CommitSound(t, block);
      }
  }

  /** A history of acts from a state in which nothing of the epoch is committed. */
  ghost predicate History(states: seq<Node>, acts: seq<Act>) {
    && |states| == |acts| + 1
    && Keyed(states[0].store) && states[0].segments == [] && states[0].lastCommitted == 0
    && forall i :: 0 <= i < |acts| ==> Keyed(states[i].store) && states[i + 1] == Do(states[i], acts[i])
  }

  lemma {:induction false} HistorySound(states: seq<Node>, acts: seq<Act>, i: nat)
    requires History(states, acts) && i < |states|
    requires forall k :: 0 <= k < |states| ==> Ordered(states[k].store)
    ensures Sound(states[i])
  {
    if i > 0 {
      HistorySound(states, acts, i - 1);
      ActSound(states[i - 1], acts[i - 1]);
    }
  }

  /** Over all three commit sites and any interleaving within an epoch: no block is committed
      twice, and every commit raises the last committed height. */
  lemma {:induction false} CommittedOnce(states: seq<Node>, acts: seq<Act>, i: nat)
    requires History(states, acts) && i < |acts|
    requires forall k :: 0 <= k < |states| ==> Ordered(states[k].store)
    ensures NoRepeats(Log(states[i + 1].segments))
    ensures states[i + 1].segments != states[i].segments ==> states[i + 1].lastCommitted > states[i].lastCommitted
  {
    HistorySound(states, acts, i);
    assert Ordered(states[i + 1].store);
    ActSound(states[i], acts[i]);
  }

  lemma {:induction false} Repeats(a: seq<Digest>, b: seq<Digest>, d: Digest)
    requires |a| >= 2 && a[1] == d && |b| >= 1 && b[0] == d
    ensures !NoRepeats(OldestFirst(a) + OldestFirst(b))
  {
    var all := OldestFirst(a) + OldestFirst(b);
    assert OldestFirst(a)[|a| - 2] == d && OldestFirst(b)[|b| - 1] == d;
    assert all[|a| - 2] == d && all[|a| + |b| - 1] == d;
  }

  lemma {:induction false} FastTwice(s: Node, child: Block, parent: Block, first: QC, second: QC)
    requires Keyed(s.store) && s.segments == [] && s.lastCommitted == 0
    requires first.hash in s.store && s.store[first.hash] == child && second.hash in s.store && s.store[second.hash] == parent
    requires 0 < child.height < parent.height
    ensures Do(Do(s, Fast(first)), Fast(second)).segments == [Walk(s.store, child, 0), Walk(s.store, parent, child.height)]
  {
  }

  /** The order of the store is needed: a parent that stands above its child is committed a second
      time once the child has been committed, by any two certificates that name them on the fast path. */
  lemma {:induction false} DisorderRepeats(s: Node, child: Block, parent: Block, first: QC, second: QC)
    requires Keyed(s.store) && s.segments == [] && s.lastCommitted == 0
    requires first.hash in s.store && s.store[first.hash] == child && second.hash in s.store && s.store[second.hash] == parent
    requires child.qc.hash == second.hash && 0 < child.height < parent.height
    ensures !Ordered(s.store)
    ensures !NoRepeats(Log(Do(Do(s, Fast(first)), Fast(second)).segments))
  {
    assert parent.Digest() == child.qc.hash;
    var a, b := Walk(s.store, child, 0), Walk(s.store, parent, child.height);
    assert a == [child.Digest()] + Walk(s.store, parent, 0);
    Repeats(a, b, parent.Digest());
    LogOfTwo(a, b);
    FastTwice(s, child, parent, first, second);
  }

  lemma {:induction false} LogOfTwo(a: seq<Digest>, b: seq<Digest>)
    ensures Log([a, b]) == OldestFirst(a) + OldestFirst(b)
  {
    assert [a, b][..1] == [a] && [a][..0] == [];
    assert Log([a]) == OldestFirst(a);
  }
}
