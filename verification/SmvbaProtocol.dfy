/** All nodes in the agreement together: who can send a coin share first, what a coin and a halt
    are worth, and that the path from locks to halts closes. */
module SmvbaProtocol {
  import opened Committees
  import opened Messages
  import opened SmvbaNode

  datatype Net = Net(nodes: map<Name, State>, soup: set<Msg>)

  datatype Event =
    | Deliver(n: Name, msg: Msg)            // every message but the next kind
    | DeliverDone(n: Name, author: Name, k: Slot, sharer: Name, l: Slot)
    | Invoke(n: Name, value: SPBValue)      // start of a broadcast, or of the next round's
    | Advance(n: Name, height: nat)         // a certificate moves the node to a new height
    | Clean(n: Name, height: nat)           // terminate_smvba

  /** Unit stakes, the committee's thresholds, and fewer faulty members than the coin needs shares. */
  datatype Setting = Setting(c: Committee, r: Rules, faulty: set<Name>) {
    ghost predicate Valid() {
      && c.HasStake() && c.UnitStakes()
      && r.members == c.authorities.Keys && r.quorum == c.QuorumThreshold() && r.coinQuorum == c.CoinThreshold()
      && Bounded() && CoinPicksMembers()
    }

    ghost predicate CoinPicksMembers() {
      forall k :: r.coin(k) in r.members
    }

    predicate Bounded() {
      1 <= r.coinQuorum <= r.quorum && |faulty * r.members| < r.coinQuorum
    }

    function Correct(): set<Name> {
      r.members - faulty
    }
  }

  /** Messages that need no correct node's signature. */
  predicate Foreign(st: Setting, msg: Msg) {
    match msg
    case Vote(vote) => vote.author !in st.Correct()
    case Done(author, _, _) => author !in st.Correct()
    case Share(author, _, _) => author !in st.Correct()
    case PreVote(author, _, _, _, _) => author !in st.Correct()
    case MVote(author, _, _, _, _) => author !in st.Correct()
    case _ => true
  }

  predicate Available(st: Setting, soup: set<Msg>, msg: Msg) {
    msg in soup || Foreign(st, msg)
  }

  ghost predicate Enabled(st: Setting, w: Net, ev: Event) {
    && ev.n in w.nodes && !w.nodes[ev.n].crashed
    && match ev
       case Deliver(_, msg) => Available(st, w.soup, msg)
       case DeliverDone(_, author, k, sharer, l) => Available(st, w.soup, Done(author, k.0, k.1)) && Available(st, w.soup, Share(sharer, l.0, l.1))
       case Invoke(n, value) => value.block.author == n && value.phase == INIT_PHASE
       case Advance(n, height) => height > w.nodes[n].height
       case Clean(_, _) => true
  }

  function React(st: Setting, s: State, ev: Event): (State, seq<Msg>)
  {
    match ev
    case Deliver(_, msg) => Handle(st.r, s, msg)
    case DeliverDone(_, author, k, sharer, l) => HandleDoneAndShare(st.r, s, author, k, sharer, l)
    case Invoke(_, value) => Broadcast(s, value)
    case Advance(_, height) => (UpdateState(s.(height := height), height, 1), [])
    case Clean(_, height) => (CleanState(s, height), [])
  }

  function Apply(st: Setting, w: Net, ev: Event): Net
    requires ev.n in w.nodes
  {
    var (s, sent) := React(st, w.nodes[ev.n], ev);
    Net(w.nodes[ev.n := s], w.soup + set m | m in sent)
  }

  function Boot(st: Setting): Net {
    Net(map n | n in st.Correct() :: InitState(n), {})
  }

  ghost predicate Run(st: Setting, ws: seq<Net>, evs: seq<Event>) {
    && st.Valid()
    && |ws| == |evs| + 1 && ws[0] == Boot(st)
    && forall i :: 0 <= i < |evs| ==> Enabled(st, ws[i], evs[i]) && ws[i + 1] == Apply(st, ws[i], evs[i])
  }

  lemma {:induction false} ValidBounds(st: Setting)
    requires st.Valid()
    ensures st.Bounded() && st.r.members != {}
  {
    ThresholdFacts(st.c, {});
  }

  // ----- coin and halt discipline -----

  ghost predicate ShareSent(st: Setting, soup: set<Msg>, k: Slot) {
    exists a :: a in st.Correct() && Share(a, k.0, k.1) in soup
  }

  /** Collectors hold what was sent, and coins were preceded by a correct share. */
  ghost predicate CoinsOk(st: Setting, soup: set<Msg>, c: Coins) {
    && CoinsLocal(st.r, c)
    && (forall k, a :: k in c.makers && a in c.makers[k].used && a in st.Correct() ==> Share(a, k.0, k.1) in soup)
    && (forall k :: k in c.elected ==> ShareSent(st, soup, k))
  }

  ghost predicate DonesOk(st: Setting, soup: set<Msg>, dones: map<Slot, set<Name>>) {
    forall k, a :: k in dones && a in dones[k] && a in st.Correct() ==> Done(a, k.0, k.1) in soup
  }

  ghost predicate FinishesOk(st: Setting, finishes: map<Slot, map<Name, (SPBValue, nat)>>) {
    forall k, a :: k in finishes && a in finishes[k] ==> a in st.r.members
  }

  ghost predicate NodeOk(st: Setting, soup: set<Msg>, n: Name, s: State) {
    && s.name == n
    && CoinsOk(st, soup, s.coins) && HaltsOk(s.coins.elected, s.halts)
    && DonesOk(st, soup, s.tally.dones) && FinishesOk(st, s.held.finishes)
  }

  ghost predicate Paired(soup: set<Msg>) {
    forall a, h, r :: Done(a, h, r) in soup ==> Share(a, h, r) in soup
  }

  lemma {:induction false} NodeOkGrows(st: Setting, soup: set<Msg>, soup': set<Msg>, n: Name, s: State)
    requires soup <= soup' && NodeOk(st, soup, n, s)
    ensures NodeOk(st, soup', n, s)
  {
    forall k | k in s.coins.elected ensures ShareSent(st, soup', k) {
      var a :| a in st.Correct() && Share(a, k.0, k.1) in soup;
      assert Share(a, k.0, k.1) in soup';
    }
  }

  lemma {:induction false} Smaller(a: set<Name>, b: set<Name>)
    requires a <= b
    ensures |a| <= |b|
  {
    assert b == a + (b - a);
  }

  /** Coin-threshold many members include a correct one. */
  lemma {:induction false} CorrectAmong(st: Setting, a: set<Name>) returns (n: Name)
    requires st.Bounded() && a <= st.r.members && |a| >= st.r.coinQuorum
    ensures n in a && n in st.Correct()
  {
    if a <= st.faulty {
      Smaller(a, st.faulty * st.r.members);
      assert false;
    }
    n :| n in a && n !in st.faulty;
  }

  lemma {:induction false} ShareCoins(st: Setting, soup: set<Msg>, c: Coins, h: Halts, k: Slot, author: Name)
    requires st.Bounded() && CoinsOk(st, soup, c) && HaltsOk(c.elected, h) && k !in c.elected && author in st.r.members
    requires author in st.Correct() ==> Share(author, k.0, k.1) in soup
    ensures var c' := TakeShare(st.r, c, k, author).0; CoinsOk(st, soup, c') && HaltsOk(c'.elected, h)
  {
    ShareLocal(st.r, c, h, k, author);
    var c' := TakeShare(st.r, c, k, author).0;
    if k in c'.elected {
      ElectedAtThreshold(st.r, c, k, author);
      var a := CorrectAmong(st, c'.makers[k].used);
      assert ShareSent(st, soup, k);
    }
  }

  lemma {:induction false} DoneAdded(st: Setting, soup: set<Msg>, dones: map<Slot, set<Name>>, k: Slot, author: Name)
    requires DonesOk(st, soup, dones) && (author in st.Correct() ==> Done(author, k.0, k.1) in soup)
    ensures DonesOk(st, soup, AddName(dones, k, author))
  {
  }

  lemma {:induction false} FinishAdded(st: Setting, held: Held, k: Slot, value: SPBValue, phase: nat)
    requires FinishesOk(st, held.finishes) && value.block.author in st.r.members
    ensures FinishesOk(st, AddFinish(held, k, value, phase).finishes)
  {
  }

  ghost predicate Within(a: map<Slot, set<Name>>, b: map<Slot, set<Name>>) {
    forall k, n :: k in a && n in a[k] ==> k in b && n in b[k]
  }

  ghost predicate SameParts(s: State, t: State) {
    && t.name == s.name && t.coins == s.coins && t.halts == s.halts && t.held.finishes == s.held.finishes
    && Within(t.tally.dones, s.tally.dones)
  }

  /** The remaining handlers leave the parts named above alone, up to emptying a set of dones. */
  lemma {:induction false} Untouched(r: Rules, s: State, msg: Msg)
    requires msg.Propose? || msg.Vote? || msg.PreVote?
    ensures SameParts(s, Handle(r, s, msg).0)
  {
  }

  lemma {:induction false} UpdateSame(s: State, h: nat, rd: nat)
    ensures SameParts(s, UpdateState(s, h, rd))
  {
  }

  lemma {:induction false} UntouchedByMVote(r: Rules, s: State, author: Name, leader: Name, h: nat, rd: nat, yes: Option<(SPBValue, SPBVote)>)
    ensures SameParts(s, HandleMVote(r, s, author, leader, h, rd, yes).0)
  {
    var t := s.(tally := s.tally.(votes := AddName(s.tally.votes, (h, rd), author)));
    UpdateSame(t, h, rd + 1);
    if yes.Some? {
      var j := (yes.value.1.height, yes.value.1.round);
      var u := t.(preMakers := t.preMakers[j := Collect(r.quorum, Get(t.preMakers, j, FRESH), yes.value.1.author).0]);
      UpdateSame(u, h, rd + 1);
    }
  }

  lemma {:induction false} SamePartsOk(st: Setting, soup: set<Msg>, n: Name, s: State, t: State)
    requires NodeOk(st, soup, n, s) && SameParts(s, t)
    ensures NodeOk(st, soup, n, t)
  {
  }

  lemma {:induction false} FinishOk(st: Setting, soup: set<Msg>, n: Name, s: State, value: SPBValue, h: nat, rd: nat, phase: nat)
    requires NodeOk(st, soup, n, s)
    ensures NodeOk(st, soup, n, HandleFinish(st.r, s, value, h, rd, phase).0)
  {
    if value.block.author in st.r.members {
      FinishAdded(st, s.held, (h, rd), value, phase);
    }
  }

  lemma {:induction false} DoneOk(st: Setting, soup: set<Msg>, n: Name, s: State, author: Name, h: nat, rd: nat)
    requires NodeOk(st, soup, n, s) && (author in st.Correct() ==> Done(author, h, rd) in soup)
    ensures NodeOk(st, soup, n, HandleDone(st.r, s, author, h, rd).0)
  {
    DoneAdded(st, soup, s.tally.dones, (h, rd), author);
  }

  lemma {:induction false} ShareOk(st: Setting, soup: set<Msg>, n: Name, s: State, author: Name, h: nat, rd: nat)
    requires st.Bounded() && NodeOk(st, soup, n, s) && (author in st.Correct() ==> Share(author, h, rd) in soup)
    ensures NodeOk(st, soup, n, HandleShare(st.r, s, author, h, rd).0)
  {
    if author in st.r.members && (h, rd) !in s.coins.elected {
      ShareCoins(st, soup, s.coins, s.halts, (h, rd), author);
    }
  }

  lemma {:induction false} HandleOk(st: Setting, soup: set<Msg>, n: Name, s: State, msg: Msg)
    requires st.Bounded() && NodeOk(st, soup, n, s) && (msg in soup || Foreign(st, msg))
    ensures NodeOk(st, soup, n, Handle(st.r, s, msg).0)
  {
    match msg
    case Finish(value, h, rd, phase) => FinishOk(st, soup, n, s, value, h, rd, phase);
    case Done(_, _, _) =>
    case Share(_, _, _) =>
    case Halt(_, _, value, h, rd, _) => HaltOnce(s.coins.elected, s.halts, value.block, (h, rd));
    case MVote(author, leader, h, rd, yes) =>
      UntouchedByMVote(st.r, s, author, leader, h, rd, yes);
      SamePartsOk(st, soup, n, s, HandleMVote(st.r, s, author, leader, h, rd, yes).0);
    case _ =>
      Untouched(st.r, s, msg);
      SamePartsOk(st, soup, n, s, Handle(st.r, s, msg).0);
  }

  lemma {:induction false} DoneAndShareOk(st: Setting, soup: set<Msg>, n: Name, s: State, author: Name, k: Slot, sharer: Name, l: Slot)
    requires st.Bounded() && NodeOk(st, soup, n, s)
    requires Available(st, soup, Done(author, k.0, k.1)) && Available(st, soup, Share(sharer, l.0, l.1))
    ensures NodeOk(st, soup, n, HandleDoneAndShare(st.r, s, author, k, sharer, l).0)
  {
    DoneOk(st, soup, n, s, author, k.0, k.1);
    ShareOk(st, soup, n, HandleDone(st.r, s, author, k.0, k.1).0, sharer, l.0, l.1);
  }

  lemma {:induction false} ReactOk(st: Setting, w: Net, ev: Event)
    requires st.Bounded() && Enabled(st, w, ev) && NodeOk(st, w.soup, ev.n, w.nodes[ev.n])
    ensures NodeOk(st, w.soup, ev.n, React(st, w.nodes[ev.n], ev).0)
  {
    if ev.Deliver? {
      HandleOk(st, w.soup, ev.n, w.nodes[ev.n], ev.msg);
    } else if ev.DeliverDone? {
      DoneAndShareOk(st, w.soup, ev.n, w.nodes[ev.n], ev.author, ev.k, ev.sharer, ev.l);
    }
  }

  ghost predicate Inv(st: Setting, w: Net) {
    && st.Bounded()
    && w.nodes.Keys == st.Correct()
    && Paired(w.soup)
    && forall n :: n in w.nodes ==> NodeOk(st, w.soup, n, w.nodes[n])
  }

  lemma {:induction false} HandlePaired(r: Rules, s: State, msg: Msg)
    ensures forall a, h, rd :: Done(a, h, rd) in Handle(r, s, msg).1 ==> Share(a, h, rd) in Handle(r, s, msg).1
  {
  }

  lemma {:induction false} DonePaired(r: Rules, s: State, author: Name, k: Slot, sharer: Name, l: Slot)
    ensures forall a, h, rd :: Done(a, h, rd) in HandleDoneAndShare(r, s, author, k, sharer, l).1
                               ==> Share(a, h, rd) in HandleDoneAndShare(r, s, author, k, sharer, l).1
  {
  }

  /** Done messages leave together with the sender's share. */
  lemma {:induction false} SentPaired(st: Setting, s: State, ev: Event)
    ensures forall a, h, r :: Done(a, h, r) in React(st, s, ev).1 ==> Share(a, h, r) in React(st, s, ev).1
  {
    if ev.Deliver? {
      HandlePaired(st.r, s, ev.msg);
    } else if ev.DeliverDone? {
      DonePaired(st.r, s, ev.author, ev.k, ev.sharer, ev.l);
    }
  }

  lemma {:induction false} NetAfter(st: Setting, w: Net, n: Name, t: State, sent: set<Msg>)
    requires Inv(st, w) && n in w.nodes && NodeOk(st, w.soup, n, t)
    requires forall a, h, r :: Done(a, h, r) in sent ==> Share(a, h, r) in sent
    ensures Inv(st, Net(w.nodes[n := t], w.soup + sent))
  {
    var w' := Net(w.nodes[n := t], w.soup + sent);
    forall m | m in w'.nodes ensures NodeOk(st, w'.soup, m, w'.nodes[m]) {
      assert NodeOk(st, w.soup, m, if m == n then t else w.nodes[m]);
      NodeOkGrows(st, w.soup, w'.soup, m, w'.nodes[m]);
    }
    assert w'.nodes.Keys == w.nodes.Keys;
  }

  lemma {:induction false} Preserved(st: Setting, w: Net, ev: Event, w': Net)
    requires Inv(st, w) && Enabled(st, w, ev) && w' == Apply(st, w, ev)
    ensures Inv(st, w')
  {
    var (t, sent) := React(st, w.nodes[ev.n], ev);
    ReactOk(st, w, ev);
    SentPaired(st, w.nodes[ev.n], ev);
    NetAfter(st, w, ev.n, t, set m | m in sent);
  }

  lemma {:induction false} RunInv(st: Setting, ws: seq<Net>, evs: seq<Event>, i: nat)
    requires Run(st, ws, evs) && i < |ws|
    ensures Inv(st, ws[i])
  {
    ValidBounds(st);
    if i > 0 {
      RunInv(st, ws, evs, i - 1);
      Preserved(st, ws[i - 1], evs[i - 1], ws[i]);
    }
  }

  /** Per epoch a correct node outputs at most one block per height, of the leader of its slot. Two
      correct nodes that output in the same slot, at whatever times, output blocks of the same proposer. */
  lemma {:induction false} HaltAgreement(st: Setting, ws: seq<Net>, evs: seq<Event>, i: nat, n: Name, j: nat, m: Name, x: Output, y: Output)
    requires Run(st, ws, evs) && i < |ws| && n in ws[i].nodes && j < |ws| && m in ws[j].nodes
    requires x in ws[i].nodes[n].halts.outputs && y in ws[j].nodes[m].halts.outputs
    ensures HaltsOk(ws[i].nodes[n].coins.elected, ws[i].nodes[n].halts)
    ensures (x.height, x.round) == (y.height, y.round) ==> x.block.author == y.block.author == st.r.coin((x.height, x.round))
  {
    RunInv(st, ws, evs, i);
    RunInv(st, ws, evs, j);
  }

  // ----- one message per coin -----

  /** A prevote or a halt for the slot. */
  predicate CoinMessage(msg: Msg, k: Slot) {
    (msg.PreVote? || msg.Halt?) && (msg.height, msg.round) == k
  }

  lemma {:induction false} ShareAnswer(r: Rules, s: State, author: Name, h: nat, rd: nat)
    ensures var (t, sent) := HandleShare(r, s, author, h, rd);
            sent != [] ==> |sent| == 1 && CoinMessage(sent[0], (h, rd)) && sent[0].author == s.name
                           && (h, rd) !in s.coins.elected && (h, rd) in t.coins.elected
  {
  }

  /** Delivering a done and share sends a prevote or halt only for the slot of the share, only when it
      elects that slot's coin, and then exactly one. */
  lemma {:induction false} CoinMessageElects(r: Rules, s: State, author: Name, k: Slot, sharer: Name, l: Slot, x: Msg, y: Msg, slot: Slot)
    requires var (t, sent) := HandleDoneAndShare(r, s, author, k, sharer, l);
             x in sent && y in sent && CoinMessage(x, slot) && CoinMessage(y, slot)
    ensures slot == l && l !in s.coins.elected && l in HandleDoneAndShare(r, s, author, k, sharer, l).0.coins.elected && x == y
    ensures x.author == s.name
  {
    var (t, first) := HandleDone(r, s, author, k.0, k.1);
    assert forall m :: m in first ==> !CoinMessage(m, slot);
    ShareAnswer(r, t, sharer, l.0, l.1);
  }

  lemma {:induction false} ElectedStays(st: Setting, s: State, ev: Event, k: Slot)
    requires k in s.coins.elected
    ensures k in React(st, s, ev).0.coins.elected
  {
    if ev.Deliver? && ev.msg.MVote? {
      UntouchedByMVote(st.r, s, ev.msg.author, ev.msg.leader, ev.msg.height, ev.msg.round, ev.msg.yes);
    } else if ev.Deliver? && (ev.msg.Propose? || ev.msg.Vote? || ev.msg.PreVote?) {
      Untouched(st.r, s, ev.msg);
    }
  }

  lemma {:induction false} ElectedStep(st: Setting, w: Net, ev: Event, n: Name, k: Slot)
    requires ev.n in w.nodes && n in w.nodes && k in w.nodes[n].coins.elected
    ensures n in Apply(st, w, ev).nodes && k in Apply(st, w, ev).nodes[n].coins.elected
  {
    ElectedStays(st, w.nodes[n], ev, k);
  }

  ghost predicate Knows(w: Net, n: Name, k: Slot) {
    n in w.nodes && k in w.nodes[n].coins.elected
  }

  lemma {:induction false} KnownOnwards(ws: seq<Net>, i: nat, j: nat, n: Name, k: Slot)
    requires i <= j < |ws| && Knows(ws[i], n, k)
    requires forall e :: 0 <= e < |ws| - 1 && Knows(ws[e], n, k) ==> Knows(ws[e + 1], n, k)
    ensures Knows(ws[j], n, k)
  {
    if i < j {
      KnownOnwards(ws, i, j - 1, n, k);
      assert Knows(ws[j - 1 + 1], n, k);
    }
  }

  lemma {:induction false} ElectedKept(st: Setting, ws: seq<Net>, evs: seq<Event>, i: nat, j: nat, n: Name, k: Slot)
    requires Run(st, ws, evs) && i <= j < |ws| && Knows(ws[i], n, k)
    ensures Knows(ws[j], n, k)
  {
    forall e | 0 <= e < |ws| - 1 && Knows(ws[e], n, k) ensures Knows(ws[e + 1], n, k) {
      ElectedStep(st, ws[e], evs[e], n, k);
    }
    KnownOnwards(ws, i, j, n, k);
  }

  /** What the i-th event of a run makes its node send. */
  ghost function SentAt(st: Setting, ws: seq<Net>, evs: seq<Event>, i: nat): seq<Msg>
    requires Run(st, ws, evs) && i < |evs|
  {
    React(st, ws[i].nodes[evs[i].n], evs[i]).1
  }

  /** Over a whole run a node answers the coin of a slot once: of all the prevotes and halts it sends
      on delivered shares for a slot, at whatever events, there is only one. */
  lemma {:induction false} OneCoinMessage(st: Setting, ws: seq<Net>, evs: seq<Event>, i: nat, j: nat, x: Msg, y: Msg, k: Slot)
    requires Run(st, ws, evs) && i <= j < |evs| && evs[i].DeliverDone? && evs[j].DeliverDone? && evs[i].n == evs[j].n
    requires x in SentAt(st, ws, evs, i) && CoinMessage(x, k) && y in SentAt(st, ws, evs, j) && CoinMessage(y, k)
    ensures i == j && x == y
  {
    var n := evs[i].n;
    var a, b := evs[i], evs[j];
    CoinMessageElects(st.r, ws[i].nodes[n], a.author, a.k, a.sharer, a.l, x, x, k);
    CoinMessageElects(st.r, ws[j].nodes[n], b.author, b.k, b.sharer, b.l, y, y, k);
    if i < j {
      assert ws[i + 1].nodes[n] == React(st, ws[i].nodes[n], a).0;
      ElectedKept(st, ws, evs, i + 1, j, n, k);
    } else {
      CoinMessageElects(st.r, ws[i].nodes[n], a.author, a.k, a.sharer, a.l, x, y, k);
    }
  }

  lemma {:induction false} NoPreVote(r: Rules, s: State, msg: Msg, x: Msg)
    requires x.PreVote?
    ensures x !in Handle(r, s, msg).1
  {
  }

  /** Prevotes leave only with a coin. */
  lemma {:induction false} PreVoteSource(st: Setting, s: State, ev: Event, x: Msg)
    requires x.PreVote? && x in React(st, s, ev).1
    ensures ev.DeliverDone? && x.author == s.name
  {
    if ev.Deliver? {
      NoPreVote(st.r, s, ev.msg, x);
    }
  }

  lemma {:induction false} PreVoteSent(st: Setting, ws: seq<Net>, evs: seq<Event>, i: nat, x: Msg) returns (j: nat)
    requires Run(st, ws, evs) && i < |ws| && x.PreVote? && x in ws[i].soup
    ensures j < i && x in SentAt(st, ws, evs, j) && evs[j].DeliverDone? && evs[j].n == x.author
  {
    if x in ws[i - 1].soup {
      j := PreVoteSent(st, ws, evs, i - 1, x);
    } else {
      j := i - 1;
      RunInv(st, ws, evs, j);
      PreVoteSource(st, ws[j].nodes[evs[j].n], evs[j], x);
    }
  }

  /** Two prevotes of one node for one slot that were ever sent are the same, and a node that has sent
      one never answers the slot's coin with a halt. */
  lemma {:induction false} OnePreVote(st: Setting, ws: seq<Net>, evs: seq<Event>, i: nat, x: Msg, y: Msg, k: Slot)
    requires Run(st, ws, evs) && i < |ws| && x.PreVote? && x in ws[i].soup && CoinMessage(x, k)
    ensures y.PreVote? && y in ws[i].soup && CoinMessage(y, k) && y.author == x.author ==> y == x
    ensures forall e :: 0 <= e < |evs| && evs[e].DeliverDone? && evs[e].n == x.author && y.Halt? && CoinMessage(y, k)
                        ==> y !in SentAt(st, ws, evs, e)
  {
    var j := PreVoteSent(st, ws, evs, i, x);
    if y.PreVote? && y in ws[i].soup && CoinMessage(y, k) && y.author == x.author {
      var e := PreVoteSent(st, ws, evs, i, y);
      SameCoinMessage(st, ws, evs, j, e, x, y, k);
    }
    forall e | 0 <= e < |evs| && evs[e].DeliverDone? && evs[e].n == x.author && y.Halt? && CoinMessage(y, k)
      ensures y !in SentAt(st, ws, evs, e)
    {
      if y in SentAt(st, ws, evs, e) {
        SameCoinMessage(st, ws, evs, j, e, x, y, k);
      }
    }
  }

  lemma {:induction false} SameCoinMessage(st: Setting, ws: seq<Net>, evs: seq<Event>, i: nat, j: nat, x: Msg, y: Msg, k: Slot)
    requires Run(st, ws, evs) && i < |evs| && j < |evs| && evs[i].DeliverDone? && evs[j].DeliverDone? && evs[i].n == evs[j].n
    requires x in SentAt(st, ws, evs, i) && CoinMessage(x, k) && y in SentAt(st, ws, evs, j) && CoinMessage(y, k)
    ensures x == y
  {
    if i <= j {
      OneCoinMessage(st, ws, evs, i, j, x, y, k);
    } else {
      OneCoinMessage(st, ws, evs, j, i, y, x, k);
    }
  }

  // ----- who shares first -----

  /** The node holds finishes of a quorum of distinct members for the slot. */
  ghost predicate HoldsFinishes(st: Setting, s: State, k: Slot) {
    k in s.held.finishes && |s.held.finishes[k]| >= st.r.quorum && s.held.finishes[k].Keys <= st.r.members
  }

  ghost predicate SomeoneHolds(st: Setting, ws: seq<Net>, i: nat, k: Slot)
    requires i < |ws|
  {
    exists j, m :: 0 <= j <= i && m in ws[j].nodes && HoldsFinishes(st, ws[j].nodes[m], k)
  }

  /** Done authors are correct members or among the given keys. */
  ghost predicate DonesFrom(st: Setting, keys: set<Name>, evs: seq<Event>) {
    forall e :: 0 <= e < |evs| && evs[e].DeliverDone? ==> evs[e].author in st.Correct() + keys
  }

  ghost predicate DonesWithin(s: State, names: set<Name>) {
    forall k, a :: k in s.tally.dones && a in s.tally.dones[k] ==> a in names
  }

  lemma {:induction false} DoneShareSource(r: Rules, s: State, author: Name, k: Slot, sharer: Name, l: Slot, a: Name, slot: Slot)
    requires Share(a, slot.0, slot.1) in HandleDoneAndShare(r, s, author, k, sharer, l).1
    ensures a == s.name && slot == k && |AddName(s.tally.dones, k, author)[k]| == r.coinQuorum
  {
  }

  /** A share leaves only when the finish rule fires or when the dones reach the coin threshold. */
  lemma {:induction false} ShareSource(st: Setting, s: State, ev: Event, a: Name, k: Slot)
    requires Share(a, k.0, k.1) in React(st, s, ev).1 && FinishesOk(st, s.held.finishes)
    ensures a == s.name
    ensures || HoldsFinishes(st, React(st, s, ev).0, k)
            || (ev.DeliverDone? && ev.k == k && |AddName(s.tally.dones, k, ev.author)[k]| == st.r.coinQuorum)
  {
    if ev.Deliver? && ev.msg.Finish? && ev.msg.value.block.author in st.r.members {
      FinishAdded(st, s.held, (ev.msg.height, ev.msg.round), ev.msg.value, ev.msg.phase);
    } else if ev.DeliverDone? {
      DoneShareSource(st.r, s, ev.author, ev.k, ev.sharer, ev.l, a, k);
    }
  }

  lemma {:induction false} DonesKept(st: Setting, s: State, ev: Event, names: set<Name>)
    requires DonesWithin(s, names) && (ev.DeliverDone? ==> ev.author in names)
    ensures DonesWithin(React(st, s, ev).0, names)
  {
    if ev.Deliver? && ev.msg.MVote? {
      UntouchedByMVote(st.r, s, ev.msg.author, ev.msg.leader, ev.msg.height, ev.msg.round, ev.msg.yes);
    } else if ev.Deliver? && (ev.msg.Propose? || ev.msg.Vote? || ev.msg.PreVote?) {
      Untouched(st.r, s, ev.msg);
    }
  }

  lemma {:induction false} RunDones(st: Setting, keys: set<Name>, ws: seq<Net>, evs: seq<Event>, i: nat, n: Name)
    requires Run(st, ws, evs) && i < |ws| && n in ws[i].nodes && DonesFrom(st, keys, evs)
    ensures DonesWithin(ws[i].nodes[n], st.Correct() + keys)
  {
    if i > 0 {
      RunDones(st, keys, ws, evs, i - 1, n);
      if n == evs[i - 1].n {
        DonesKept(st, ws[i - 1].nodes[n], evs[i - 1], st.Correct() + keys);
      }
    }
  }

  /** Coin-threshold many dones include one of a correct node if fewer other keys take part. */
  lemma {:induction false} CorrectDone(st: Setting, keys: set<Name>, soup: set<Msg>, dones: set<Name>, k: Slot) returns (b: Name)
    requires dones <= st.Correct() + keys && |dones| == st.r.coinQuorum && |keys| < st.r.coinQuorum
    requires forall a :: a in dones && a in st.Correct() ==> Done(a, k.0, k.1) in soup
    ensures b in st.Correct() && Done(b, k.0, k.1) in soup
  {
    if dones <= keys {
      Smaller(dones, keys);
      assert false;
    }
    b :| b in dones && b !in keys;
  }

  /** Amplification needs the done, hence the share, of some correct node before. */
  lemma {:induction false} Amplified(st: Setting, keys: set<Name>, soup: set<Msg>, s: State, author: Name, k: Slot) returns (b: Name)
    requires Paired(soup) && DonesOk(st, soup, s.tally.dones) && Available(st, soup, Done(author, k.0, k.1))
    requires DonesWithin(s, st.Correct() + keys) && author in st.Correct() + keys && |keys| < st.r.coinQuorum
    requires |AddName(s.tally.dones, k, author)[k]| == st.r.coinQuorum
    ensures b in st.Correct() && Share(b, k.0, k.1) in soup
  {
    var before := Get(s.tally.dones, k, {});
    assert forall a :: a in before ==> k in s.tally.dones && a in s.tally.dones[k];
    b := CorrectDone(st, keys, soup, before + {author}, k);
  }

  /** Where a new share comes from: the node holds a quorum of finishes now, or a correct node has
      shared before. */
  lemma {:induction false} NewShare(st: Setting, keys: set<Name>, w: Net, ev: Event, w': Net, a: Name, k: Slot) returns (b: Option<Name>)
    requires Inv(st, w) && Enabled(st, w, ev) && DonesWithin(w.nodes[ev.n], st.Correct() + keys) && |keys| < st.r.coinQuorum
    requires ev.DeliverDone? ==> ev.author in st.Correct() + keys
    requires w' == Apply(st, w, ev) && Share(a, k.0, k.1) in w'.soup - w.soup
    ensures b.None? ==> ev.n in w'.nodes && HoldsFinishes(st, w'.nodes[ev.n], k)
    ensures b.Some? ==> b.value in st.Correct() && Share(b.value, k.0, k.1) in w.soup
  {
    var s := w.nodes[ev.n];
    assert NodeOk(st, w.soup, ev.n, s);
    ShareSource(st, s, ev, a, k);
    if HoldsFinishes(st, React(st, s, ev).0, k) {
      b := None;
    } else {
      var c := Amplified(st, keys, w.soup, s, ev.author, k);
      b := Some(c);
    }
  }

  /** At the (i+1)-st world of a run, a correct share for the slot has a correct one before it or
      finishes beside it. */
  ghost predicate Traced(st: Setting, ws: seq<Net>, i: nat, k: Slot)
    requires i + 1 < |ws|
  {
    ShareSent(st, ws[i + 1].soup, k) ==> ShareSent(st, ws[i].soup, k) || SomeoneHolds(st, ws, i + 1, k)
  }

  lemma {:induction false} SharesTraced(st: Setting, keys: set<Name>, ws: seq<Net>, evs: seq<Event>, i: nat, k: Slot)
    requires Run(st, ws, evs) && i < |evs| && DonesFrom(st, keys, evs) && |keys| < st.r.coinQuorum
    ensures Traced(st, ws, i, k)
  {
    if ShareSent(st, ws[i + 1].soup, k) && !ShareSent(st, ws[i].soup, k) {
      var a :| a in st.Correct() && Share(a, k.0, k.1) in ws[i + 1].soup;
      RunInv(st, ws, evs, i);
      RunDones(st, keys, ws, evs, i, evs[i].n);
      var b := NewShare(st, keys, ws[i], evs[i], ws[i + 1], a, k);
    }
  }

  lemma {:induction false} Traceback(st: Setting, ws: seq<Net>, i: nat, k: Slot)
    requires i < |ws| && !ShareSent(st, ws[0].soup, k) && ShareSent(st, ws[i].soup, k)
    requires forall j :: 0 <= j < |ws| - 1 ==> Traced(st, ws, j, k)
    ensures SomeoneHolds(st, ws, i, k)
  {
    if i > 0 {
      assert Traced(st, ws, i - 1, k);
      if ShareSent(st, ws[i - 1].soup, k) {
        Traceback(st, ws, i - 1, k);
      }
    }
  }

  /** The first share of a correct node for a slot follows a quorum of finishes at a correct node. */
  lemma {:induction false} FirstShare(st: Setting, keys: set<Name>, ws: seq<Net>, evs: seq<Event>, i: nat, a: Name, k: Slot)
    requires Run(st, ws, evs) && i < |ws| && a in st.Correct() && Share(a, k.0, k.1) in ws[i].soup
    requires DonesFrom(st, keys, evs) && |keys| < st.r.coinQuorum
    ensures SomeoneHolds(st, ws, i, k)
  {
    assert ShareSent(st, ws[i].soup, k);
    forall j | 0 <= j < |ws| - 1 ensures Traced(st, ws, j, k) {
      SharesTraced(st, keys, ws, evs, j, k);
    }
    Traceback(st, ws, i, k);
  }

  /** The leader of a slot can be fixed at a node only after some correct node has held a quorum of
      distinct finishes for that slot, as long as fewer keys than the coin threshold sign dones
      besides the correct members. */
  lemma {:induction false} CoinAfterFinishes(st: Setting, keys: set<Name>, ws: seq<Net>, evs: seq<Event>, i: nat, n: Name, k: Slot)
    requires Run(st, ws, evs) && i < |ws| && n in ws[i].nodes && k in ws[i].nodes[n].coins.elected
    requires DonesFrom(st, keys, evs) && |keys| < st.r.coinQuorum
    ensures SomeoneHolds(st, ws, i, k)
  {
    RunInv(st, ws, evs, i);
    assert ShareSent(st, ws[i].soup, k);
    var a :| a in st.Correct() && Share(a, k.0, k.1) in ws[i].soup;
    FirstShare(st, keys, ws, evs, i, a, k);
  }
}
