/** One node in the multi-valued agreement of a height: strong provable broadcast in two phases,
    done amplification, the threshold coin, and the prevote, vote and halt steps that follow it.
    One epoch; what each handler does to the node's state and what it sends, as functions. */
module SmvbaNode {
  import opened Committees
  import opened Messages

  const INIT_PHASE: nat := 0
  const LOCK_PHASE: nat := 1
  const FIN_PHASE: nat := 2

  datatype SPBValue = SPBValue(block: Block, round: nat, phase: nat)

  datatype SPBVote = SPBVote(height: nat, round: nat, phase: nat, proposer: Name, author: Name)

  function NewSpbVote(value: SPBValue, author: Name): SPBVote {
    SPBVote(value.block.height, value.round, value.phase, value.block.author, author)
  }

  /** A proof is named by the height, round and phase it carries. Done and Share stand for the two
      signatures that travel in one message; neither covers the other, so they can be recombined. */
  datatype Msg =
    | Propose(value: SPBValue, height: nat)
    | Vote(vote: SPBVote)
    | Finish(value: SPBValue, height: nat, round: nat, phase: nat)
    | Done(author: Name, height: nat, round: nat)
    | Share(author: Name, height: nat, round: nat)
    | PreVote(author: Name, leader: Name, height: nat, round: nat, lock: Option<SPBValue>)
    | MVote(author: Name, leader: Name, height: nat, round: nat, yes: Option<(SPBValue, SPBVote)>)
    | Halt(author: Name, leader: Name, value: SPBValue, height: nat, round: nat, phase: nat)

  datatype Collector = Collector(weight: nat, used: set<Name>)

  const FRESH := Collector(0, {})

  datatype Output = Output(height: nat, round: nat, block: Block)

  /** Every member has stake one here, as the handlers assume when they count sets. The coin is
      the leader that the unique threshold signature of a slot selects. */
  datatype Rules = Rules(members: set<Name>, quorum: nat, coinQuorum: nat, coin: Slot -> Name)

  /** Own proposals and the votes collected for them. */
  datatype Broadcasts = Broadcasts(proposes: map<Slot, SPBValue>, makers: map<(nat, nat, nat), Collector>)

  /** Locked and finished values of others, by proposer; a finish with its proof's phase. */
  datatype Held = Held(locks: map<Slot, map<Name, SPBValue>>, finishes: map<Slot, map<Name, (SPBValue, nat)>>)

  datatype Flags = Flags(d: map<Slot, bool>, y: map<Slot, bool>, n: map<Slot, bool>)

  datatype Tally = Tally(dones: map<Slot, set<Name>>, noPrevotes: map<Slot, set<Name>>, votes: map<Slot, set<Name>>)

  /** Share collectors and the coins elected. Cleanups drop collectors and keep the coins. */
  datatype Coins = Coins(makers: map<Slot, Collector>, elected: map<Slot, Name>)

  const NO_COINS := Coins(map[], map[])

  /** Heights that have halted, never cleaned within the epoch, and the blocks output. */
  datatype Halts = Halts(heights: set<nat>, outputs: seq<Output>)

  datatype State = State(
    name: Name,
    height: nat,
    spb: Broadcasts,
    held: Held,
    flags: Flags,
    tally: Tally,
    preMakers: map<Slot, Collector>,
    coins: Coins,
    halts: Halts,
    crashed: bool)

  function Get<K, V>(m: map<K, V>, k: K, default: V): V {
    if k in m then m[k] else default
  }

  function InitState(name: Name): State {
    UpdateState(State(name, 1, Broadcasts(map[], map[]), Held(map[], map[]), Flags(map[], map[], map[]),
                      Tally(map[], map[], map[]), map[], NO_COINS, Halts({}, []), false), 1, 1)
  }

  function UpdateState(s: State, height: nat, round: nat): State {
    var k := (height, round);
    s.(flags := Flags(s.flags.d[k := false], s.flags.y[k := false], s.flags.n[k := false]),
       tally := Tally(s.tally.dones[k := {}], s.tally.noPrevotes[k := {}], s.tally.votes[k := {}]))
  }

  function Above<V>(m: map<Slot, V>, height: nat): map<Slot, V> {
    map k | k in m && k.0 > height :: m[k]
  }

  function CleanState(s: State, height: nat): State {
    s.(spb := Broadcasts(Above(s.spb.proposes, height), map k | k in s.spb.makers && k.0 > height :: s.spb.makers[k]),
       held := Held(Above(s.held.locks, height), Above(s.held.finishes, height)),
       flags := Flags(Above(s.flags.d, height), Above(s.flags.y, height), Above(s.flags.n, height)),
       tally := Tally(Above(s.tally.dones, height), Above(s.tally.noPrevotes, height), Above(s.tally.votes, height)),
       preMakers := Above(s.preMakers, height),
       coins := s.coins.(makers := Above(s.coins.makers, height)))
  }

  predicate TimedOut(s: State, height: nat) {
    s.height >= height + 2
  }

  /** A proof collector: the flag says that a proof came out. A repeated author is an error. */
  function Collect(quorum: nat, m: Collector, author: Name): (Collector, Option<bool>)
  {
    if author in m.used then (m, None) else
      var weight := m.weight + 1;
      if weight >= quorum then (Collector(0, m.used + {author}), Some(true))
      else (Collector(weight, m.used + {author}), Some(false))
  }

  /** A coin collector: the coin comes out when the weight hits the threshold exactly. */
  function CollectShare(threshold: nat, m: Collector, author: Name): (Collector, bool)
  {
    if author in m.used then (m, false) else
      var weight := m.weight + 1;
      (Collector(weight, m.used + {author}), weight == threshold)
  }

  function DoneAndShare(s: State, height: nat, round: nat): seq<Msg> {
    [Done(s.name, height, round), Share(s.name, height, round)]
  }

  // ----- handlers: new state and messages sent -----

  function Broadcast(s: State, value: SPBValue): (State, seq<Msg>) {
    (s.(spb := s.spb.(proposes := s.spb.proposes[(value.block.height, value.round) := value])),
     [Propose(value, value.block.height)])
  }

  function HandlePropose(r: Rules, s: State, value: SPBValue, height: nat): (State, seq<Msg>) {
    if TimedOut(s, height) || value.block.author !in r.members then (s, []) else
      var k := (value.block.height, value.round);
      var t := if value.phase == LOCK_PHASE
               then s.(held := s.held.(locks := s.held.locks[k := Get(s.held.locks, k, map[])[value.block.author := value]])) else s;
      (t, if value.phase > LOCK_PHASE then [] else [Vote(NewSpbVote(value, s.name))])
  }

  function HandleVote(r: Rules, s: State, vote: SPBVote): (State, seq<Msg>) {
    if TimedOut(s, vote.height) || vote.author !in r.members then (s, []) else
      var k := (vote.height, vote.round, vote.phase);
      var (m, out) := Collect(r.quorum, Get(s.spb.makers, k, FRESH), vote.author);
      var t := s.(spb := s.spb.(makers := s.spb.makers[k := m]));
      if out != Some(true) then (t, [])
      else if (vote.height, vote.round) !in s.spb.proposes then (t.(crashed := true), [])
      else
        var value := s.spb.proposes[(vote.height, vote.round)];
        if vote.phase + 1 == LOCK_PHASE then (t, [Propose(value.(phase := LOCK_PHASE), vote.height)])
        else if vote.phase + 1 == FIN_PHASE then (t, [Finish(value.(phase := FIN_PHASE), vote.height, vote.round, FIN_PHASE)])
        else (t, [])
  }

  function AddFinish(held: Held, k: Slot, value: SPBValue, phase: nat): Held {
    held.(finishes := held.finishes[k := Get(held.finishes, k, map[])[value.block.author := (value, phase)]])
  }

  function HandleFinish(r: Rules, s: State, value: SPBValue, height: nat, round: nat, phase: nat): (State, seq<Msg>) {
    if TimedOut(s, height) || value.block.author !in r.members then (s, []) else
      var k := (height, round);
      var t := s.(held := AddFinish(s.held, k, value, phase));
      if !Get(s.flags.d, k, false) && |t.held.finishes[k]| == r.quorum
      then (t.(flags := t.flags.(d := t.flags.d[k := true])), DoneAndShare(s, height, round))
      else (t, [])
  }

  function AddName(m: map<Slot, set<Name>>, k: Slot, n: Name): map<Slot, set<Name>> {
    m[k := Get(m, k, {}) + {n}]
  }

  function HandleDone(r: Rules, s: State, author: Name, height: nat, round: nat): (State, seq<Msg>) {
    if TimedOut(s, height) then (s, []) else
      var k := (height, round);
      var t := s.(tally := s.tally.(dones := AddName(s.tally.dones, k, author)));
      if !Get(s.flags.d, k, false) && |t.tally.dones[k]| == r.coinQuorum
      then (t.(flags := t.flags.(d := t.flags.d[k := true])), DoneAndShare(s, height, round))
      else (t, [])
  }

  /** After the coin: halt with the leader's finish if it is here, else prevote on its lock. */
  function AfterCoin(name: Name, held: Held, leader: Name, height: nat, round: nat): seq<Msg> {
    var k := (height, round);
    var finishes := Get(held.finishes, k, map[]);
    var locks := Get(held.locks, k, map[]);
    if leader in finishes then [Halt(name, leader, finishes[leader].0, height, round, finishes[leader].1)]
    else [PreVote(name, leader, height, round, if leader in locks then Some(locks[leader]) else None)]
  }

  function TakeShare(r: Rules, c: Coins, k: Slot, author: Name): (Coins, bool) {
    var (m, elected) := CollectShare(r.coinQuorum, Get(c.makers, k, FRESH), author);
    if elected then (Coins(c.makers[k := m], c.elected[k := r.coin(k)]), true)
    else (c.(makers := c.makers[k := m]), false)
  }

  function HandleShare(r: Rules, s: State, author: Name, height: nat, round: nat): (State, seq<Msg>) {
    var k := (height, round);
    if TimedOut(s, height) || author !in r.members || k in s.coins.elected then (s, []) else
      var (c, elected) := TakeShare(r, s.coins, k, author);
      (s.(coins := c), if elected then AfterCoin(s.name, s.held, r.coin(k), height, round) else [])
  }

  /** The author of the done is not checked against the committee, the author of the share is, and
      a share that does not verify refuses the whole message. */
  function HandleDoneAndShare(r: Rules, s: State, author: Name, k: Slot, sharer: Name, l: Slot): (State, seq<Msg>) {
    if TimedOut(s, k.0) || sharer !in r.members then (s, []) else
      var (t, first) := HandleDone(r, s, author, k.0, k.1);
      var (u, second) := HandleShare(r, t, sharer, l.0, l.1);
      (u, first + second)
  }

  function HandlePrevote(r: Rules, s: State, author: Name, leader: Name, height: nat, round: nat, lock: Option<SPBValue>): (State, seq<Msg>) {
    var k := (height, round);
    if TimedOut(s, height) || author !in r.members || (lock.Some? && lock.value.block.author !in r.members) then (s, [])
    else if Get(s.flags.y, k, false) || Get(s.flags.n, k, false) then (s, [])
    else if lock.Some? then
      (s.(flags := s.flags.(y := s.flags.y[k := true])),
       if lock.value.phase > LOCK_PHASE then []
       else [MVote(s.name, leader, height, round, Some((lock.value, NewSpbVote(lock.value, s.name))))])
    else
      var t := s.(tally := s.tally.(noPrevotes := AddName(s.tally.noPrevotes, k, author)));
      if |t.tally.noPrevotes[k]| == r.quorum
      then (t.(flags := t.flags.(n := t.flags.n[k := true])), [MVote(s.name, leader, height, round, None)])
      else (t, [])
  }

  function HandleMVote(r: Rules, s: State, author: Name, leader: Name, height: nat, round: nat, yes: Option<(SPBValue, SPBVote)>): (State, seq<Msg>) {
    var k := (height, round);
    if TimedOut(s, height) || author !in r.members
       || (yes.Some? && (yes.value.0.block.author !in r.members || yes.value.1.author !in r.members)) then (s, []) else
      var t := s.(tally := s.tally.(votes := AddName(s.tally.votes, k, author)));
      var full := |t.tally.votes[k]| == r.quorum;
      if yes.None? then (if full then UpdateState(t, height, round + 1) else t, []) else
        var vote := yes.value.1;
        var j := (vote.height, vote.round);
        var (m, out) := Collect(r.quorum, Get(t.preMakers, j, FRESH), vote.author);
        var u := t.(preMakers := t.preMakers[j := m]);
        if out == Some(true) then (u, [Halt(s.name, leader, yes.value.0, vote.height, vote.round, vote.phase + 1)])
        else (if out == Some(false) && full then UpdateState(u, height, round + 1) else u, [])
  }

  /** A halt takes effect if it carries a finished value of the slot's coin leader and is the
      height's first. */
  function TakeHalt(elected: map<Slot, Name>, h: Halts, block: Block, k: Slot): Halts {
    if !(k in elected && elected[k] == block.author) || k.0 in h.heights then h
    else Halts(h.heights + {k.0}, h.outputs + [Output(k.0, k.1, block)])
  }

  function HandleHalt(r: Rules, s: State, author: Name, value: SPBValue, height: nat, round: nat, phase: nat): State {
    if TimedOut(s, height) || author !in r.members || value.block.author !in r.members || phase != FIN_PHASE then s
    else s.(halts := TakeHalt(s.coins.elected, s.halts, value.block, (height, round)))
  }

  function Handle(r: Rules, s: State, msg: Msg): (State, seq<Msg>) {
    match msg
    case Propose(value, h) => HandlePropose(r, s, value, h)
    case Vote(vote) => HandleVote(r, s, vote)
    case Finish(value, h, rd, phase) => HandleFinish(r, s, value, h, rd, phase)
    case Done(_, _, _) => (s, [])
    case Share(_, _, _) => (s, [])
    case PreVote(author, leader, h, rd, lock) => HandlePrevote(r, s, author, leader, h, rd, lock)
    case MVote(author, leader, h, rd, yes) => HandleMVote(r, s, author, leader, h, rd, yes)
    case Halt(author, _, value, h, rd, phase) => (HandleHalt(r, s, author, value, h, rd, phase), [])
  }

  // ----- what a node keeps by itself -----

  /** Collectors count distinct members, fewer than the threshold as long as there is no coin; coins
      are the slot's coin. */
  ghost predicate CoinsLocal(r: Rules, c: Coins) {
    && (forall k :: k in c.makers ==>
          && c.makers[k].used <= r.members && c.makers[k].weight == |c.makers[k].used|
          && (k !in c.elected ==> c.makers[k].weight < r.coinQuorum))
    && (forall k :: k in c.elected ==> c.elected[k] == r.coin(k))
  }

  /** One output per height, by the leader of its slot. */
  ghost predicate HaltsOk(elected: map<Slot, Name>, h: Halts) {
    && (forall i :: 0 <= i < |h.outputs| ==>
          && h.outputs[i].height in h.heights
          && var k := (h.outputs[i].height, h.outputs[i].round);
             k in elected && elected[k] == h.outputs[i].block.author)
    && (forall i, j :: 0 <= i < j < |h.outputs| ==> h.outputs[i].height != h.outputs[j].height)
  }

  lemma {:induction false} ShareLocal(r: Rules, c: Coins, h: Halts, k: Slot, author: Name)
    requires r.coinQuorum >= 1 && CoinsLocal(r, c) && HaltsOk(c.elected, h) && k !in c.elected && author in r.members
    ensures var c' := TakeShare(r, c, k, author).0; CoinsLocal(r, c') && HaltsOk(c'.elected, h)
  {
    var m := Get(c.makers, k, FRESH);
    assert m.used <= r.members && m.weight == |m.used|;
  }

  /** The coin comes out exactly with the share that completes the threshold of distinct members. */
  lemma {:induction false} ElectedAtThreshold(r: Rules, c: Coins, k: Slot, author: Name)
    requires r.coinQuorum >= 1 && CoinsLocal(r, c) && k !in c.elected
    ensures var c' := TakeShare(r, c, k, author).0;
            k in c'.elected <==> |c'.makers[k].used| == r.coinQuorum
  {
    var m := Get(c.makers, k, FRESH);
    assert m.weight == |m.used| < r.coinQuorum;
  }

  lemma {:induction false} HaltOnce(elected: map<Slot, Name>, h: Halts, block: Block, k: Slot)
    requires HaltsOk(elected, h)
    ensures HaltsOk(elected, TakeHalt(elected, h, block, k))
  {
  }
}
