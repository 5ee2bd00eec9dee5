/** From locks to halts when every node follows the code: whatever is sent along the way fits
    together, so that the halt at the end is one every node accepts. */
module SmvbaPath {
  import opened Committees
  import opened Messages
  import opened SmvbaNode
  import opened SmvbaProtocol

  ghost predicate ValueAt(v: SPBValue, k: Slot, a: Name) {
    v.block.author == a && (v.block.height, v.round) == k
  }

  /** What a message of a code-following node says about its slot and the slot's leader. */
  ghost predicate MsgFits(r: Rules, msg: Msg) {
    match msg
    case Propose(v, h) => v.block.height == h
    case Finish(v, h, rd, phase) => phase == FIN_PHASE && ValueAt(v, (h, rd), v.block.author)
    case PreVote(a, leader, h, rd, lock) =>
      a in r.members && leader == r.coin((h, rd))
      && (lock.Some? ==> lock.value.phase == LOCK_PHASE && ValueAt(lock.value, (h, rd), leader))
    case MVote(a, leader, h, rd, yes) =>
      a in r.members && leader == r.coin((h, rd))
      && (yes.Some? ==> yes.value.0.phase == LOCK_PHASE && ValueAt(yes.value.0, (h, rd), leader) && yes.value.1 == NewSpbVote(yes.value.0, a))
    case Halt(a, leader, v, h, rd, phase) =>
      a in r.members && leader == r.coin((h, rd)) && phase == FIN_PHASE && ValueAt(v, (h, rd), leader)
    case _ => true
  }

  /** Locks, finishes and own proposals are filed under their own slot and author. */
  ghost predicate FiledOk(s: State) {
    && (forall k :: k in s.spb.proposes ==> ValueAt(s.spb.proposes[k], k, s.name))
    && (forall k, a :: k in s.held.locks && a in s.held.locks[k] ==>
                         s.held.locks[k][a].phase == LOCK_PHASE && ValueAt(s.held.locks[k][a], k, a))
    && (forall k, a :: k in s.held.finishes && a in s.held.finishes[k] ==>
                         s.held.finishes[k][a].1 == FIN_PHASE && ValueAt(s.held.finishes[k][a].0, k, a))
  }

  ghost predicate HaltSent(soup: set<Msg>, n: Name, k: Slot) {
    exists leader, v :: Halt(n, leader, v, k.0, k.1, FIN_PHASE) in soup
  }

  /** A vote collector that has not yet produced a halt counts exactly its authors. */
  ghost predicate CollectorOk(r: Rules, soup: set<Msg>, n: Name, k: Slot, m: Collector) {
    (m.weight == |m.used| && m.weight < r.quorum) || HaltSent(soup, n, k)
  }

  ghost predicate CollectorsOk(r: Rules, soup: set<Msg>, s: State) {
    forall k :: k in s.preMakers ==> CollectorOk(r, soup, s.name, k, s.preMakers[k])
  }

  lemma {:induction false} CollectorsGrow(r: Rules, soup: set<Msg>, soup': set<Msg>, s: State)
    requires soup <= soup' && CollectorsOk(r, soup, s)
    ensures CollectorsOk(r, soup', s)
  {
    forall k | k in s.preMakers ensures CollectorOk(r, soup', s.name, k, s.preMakers[k]) {
      if HaltSent(soup, s.name, k) {
        var leader, v :| Halt(s.name, leader, v, k.0, k.1, FIN_PHASE) in soup;
        assert Halt(s.name, leader, v, k.0, k.1, FIN_PHASE) in soup';
      }
    }
  }

  lemma {:induction false} FiledMVote(r: Rules, s: State, author: Name, leader: Name, h: nat, rd: nat, yes: Option<(SPBValue, SPBVote)>)
    requires FiledOk(s)
    ensures FiledOk(HandleMVote(r, s, author, leader, h, rd, yes).0)
  {
  }

  lemma {:induction false} FiledPropose(r: Rules, s: State, value: SPBValue, h: nat)
    requires FiledOk(s)
    ensures FiledOk(HandlePropose(r, s, value, h).0)
  {
  }

  lemma {:induction false} FiledFinish(r: Rules, s: State, value: SPBValue, h: nat, rd: nat, phase: nat)
    requires FiledOk(s) && MsgFits(r, Finish(value, h, rd, phase))
    ensures FiledOk(HandleFinish(r, s, value, h, rd, phase).0)
  {
  }

  lemma {:induction false} FiledVote(r: Rules, s: State, vote: SPBVote)
    requires FiledOk(s)
    ensures FiledOk(HandleVote(r, s, vote).0)
  {
  }

  lemma {:induction false} FiledDone(r: Rules, s: State, author: Name, k: Slot, sharer: Name, l: Slot)
    requires FiledOk(s)
    ensures FiledOk(HandleDoneAndShare(r, s, author, k, sharer, l).0)
  {
  }

  lemma {:induction false} FiledHandle(r: Rules, s: State, msg: Msg)
    requires FiledOk(s) && MsgFits(r, msg)
    ensures FiledOk(Handle(r, s, msg).0)
  {
    match msg
    case Propose(value, h) => FiledPropose(r, s, value, h);
    case Vote(vote) => FiledVote(r, s, vote);
    case Finish(value, h, rd, phase) => FiledFinish(r, s, value, h, rd, phase);
    case MVote(author, leader, h, rd, yes) => FiledMVote(r, s, author, leader, h, rd, yes);
    case _ =>
  }

  lemma {:induction false} FiledReact(st: Setting, s: State, ev: Event)
    requires FiledOk(s)
    requires ev.Deliver? ==> MsgFits(st.r, ev.msg)
    requires ev.Invoke? ==> ev.value.block.author == s.name
    ensures FiledOk(React(st, s, ev).0)
  {
    match ev
    case Deliver(_, msg) => FiledHandle(st.r, s, msg);
    case DeliverDone(_, author, k, sharer, l) => FiledDone(st.r, s, author, k, sharer, l);
    case _ =>
  }

  lemma {:induction false} AnswerFits(r: Rules, s: State, k: Slot)
    requires FiledOk(s) && s.name in r.members
    ensures forall m :: m in AfterCoin(s.name, s.held, r.coin(k), k.0, k.1) ==> MsgFits(r, m)
  {
  }

  lemma {:induction false} DoneSentFits(r: Rules, s: State, author: Name, k: Slot, sharer: Name, l: Slot, m: Msg)
    requires FiledOk(s) && s.name in r.members && m in HandleDoneAndShare(r, s, author, k, sharer, l).1
    ensures MsgFits(r, m)
  {
    var (t, first) := HandleDone(r, s, author, k.0, k.1);
    assert FiledOk(t) && t.name == s.name && forall d :: d in first ==> d.Done? || d.Share?;
    AnswerFits(r, t, l);
  }

  lemma {:induction false} HandleSentFits(r: Rules, s: State, msg: Msg, m: Msg)
    requires FiledOk(s) && s.name in r.members && MsgFits(r, msg) && m in Handle(r, s, msg).1
    ensures MsgFits(r, m)
  {
  }

  /** What a code-following node sends fits again. */
  lemma {:induction false} SentFits(st: Setting, s: State, ev: Event, m: Msg)
    requires FiledOk(s) && s.name in st.r.members
    requires ev.Deliver? ==> MsgFits(st.r, ev.msg)
    requires m in React(st, s, ev).1
    ensures MsgFits(st.r, m)
  {
    match ev
    case Deliver(_, msg) => HandleSentFits(st.r, s, msg, m);
    case DeliverDone(_, author, k, sharer, l) => DoneSentFits(st.r, s, author, k, sharer, l, m);
    case _ =>
  }

  /** Adding a fitting Yes vote to the slot's collector. */
  lemma {:induction false} CollectYes(r: Rules, soup: set<Msg>, n: Name, k: Slot, m: Collector, author: Name)
    requires r.quorum >= 1 && CollectorOk(r, soup, n, k, m)
    ensures var (m', out) := Collect(r.quorum, m, author); out == Some(true) || CollectorOk(r, soup, n, k, m')
  {
  }

  lemma {:induction false} YesEffect(r: Rules, s: State, author: Name, leader: Name, h: nat, rd: nat, value: SPBValue, vote: SPBVote)
    requires MsgFits(r, MVote(author, leader, h, rd, Some((value, vote))))
    ensures var (t, sent) := HandleMVote(r, s, author, leader, h, rd, Some((value, vote)));
            var (m, out) := Collect(r.quorum, Get(s.preMakers, (h, rd), FRESH), author);
            && t.name == s.name
            && (t.preMakers == s.preMakers || t.preMakers == s.preMakers[(h, rd) := m])
            && (t.preMakers != s.preMakers && out == Some(true) ==> sent == [Halt(s.name, leader, value, h, rd, FIN_PHASE)])
  {
  }

  lemma {:induction false} CollectorsMVote(st: Setting, soup: set<Msg>, s: State, author: Name, leader: Name, h: nat, rd: nat, yes: Option<(SPBValue, SPBVote)>)
    requires st.r.quorum >= 1 && CollectorsOk(st.r, soup, s)
    requires MsgFits(st.r, MVote(author, leader, h, rd, yes))
    ensures var (t, sent) := HandleMVote(st.r, s, author, leader, h, rd, yes);
            CollectorsOk(st.r, soup + (set m | m in sent), t)
  {
    var (t, sent) := HandleMVote(st.r, s, author, leader, h, rd, yes);
    var soup' := soup + set m | m in sent;
    CollectorsGrow(st.r, soup, soup', s);
    if yes.Some? {
      YesEffect(st.r, s, author, leader, h, rd, yes.value.0, yes.value.1);
      var m0 := Get(s.preMakers, (h, rd), FRESH);
      assert CollectorOk(st.r, soup', s.name, (h, rd), m0);
      CollectYes(st.r, soup', s.name, (h, rd), m0, author);
      if sent != [] {
        assert Halt(s.name, leader, yes.value.0, h, rd, FIN_PHASE) in soup';
      }
    }
  }

  lemma {:induction false} CollectorsReact(st: Setting, soup: set<Msg>, s: State, ev: Event)
    requires st.r.quorum >= 1 && CollectorsOk(st.r, soup, s)
    requires ev.Deliver? ==> MsgFits(st.r, ev.msg)
    ensures var (t, sent) := React(st, s, ev); CollectorsOk(st.r, soup + (set m | m in sent), t)
  {
    var (t, sent) := React(st, s, ev);
    if ev.Deliver? && ev.msg.MVote? {
      CollectorsMVote(st, soup, s, ev.msg.author, ev.msg.leader, ev.msg.height, ev.msg.round, ev.msg.yes);
    } else {
      CollectorsGrow(st.r, soup, soup + (set m | m in sent), s);
    }
  }

  ghost predicate SoupFits(r: Rules, soup: set<Msg>) {
    forall m :: m in soup ==> MsgFits(r, m)
  }

  ghost predicate NodePath(r: Rules, soup: set<Msg>, s: State) {
    FiledOk(s) && CollectorsOk(r, soup, s)
  }

  ghost predicate PathInv(st: Setting, w: Net) {
    && SoupFits(st.r, w.soup)
    && forall n :: n in w.nodes ==> NodePath(st.r, w.soup, w.nodes[n])
  }

  lemma {:induction false} PathAfter(st: Setting, w: Net, n: Name, t: State, sent: set<Msg>)
    requires PathInv(st, w) && n in w.nodes
    requires NodePath(st.r, w.soup + sent, t) && SoupFits(st.r, sent)
    ensures PathInv(st, Net(w.nodes[n := t], w.soup + sent))
  {
    forall m | m in w.nodes && m != n ensures NodePath(st.r, w.soup + sent, w.nodes[m]) {
      CollectorsGrow(st.r, w.soup, w.soup + sent, w.nodes[m]);
    }
  }

  lemma {:induction false} PathPreserved(st: Setting, w: Net, ev: Event, w': Net)
    requires Inv(st, w) && PathInv(st, w) && Enabled(st, w, ev) && (ev.Deliver? ==> ev.msg in w.soup)
    requires w' == Apply(st, w, ev)
    ensures PathInv(st, w')
  {
    var (t, sent) := React(st, w.nodes[ev.n], ev);
    FiledReact(st, w.nodes[ev.n], ev);
    CollectorsReact(st, w.soup, w.nodes[ev.n], ev);
    forall m | m in sent ensures MsgFits(st.r, m) {
      SentFits(st, w.nodes[ev.n], ev, m);
    }
    PathAfter(st, w, ev.n, t, set m | m in sent);
  }

  lemma {:induction false} BootPath(st: Setting)
    ensures PathInv(st, Boot(st))
  {
    forall n | n in Boot(st).nodes ensures NodePath(st.r, {}, Boot(st).nodes[n]) {
      assert Boot(st).nodes[n] == InitState(n);
    }
  }

  /** Every delivered message was sent by a node that follows the code. */
  ghost predicate CodeFollowing(ws: seq<Net>, evs: seq<Event>) {
    && |ws| == |evs| + 1
    && (forall i :: 0 <= i < |evs| && evs[i].Deliver? ==> evs[i].msg in ws[i].soup)
    && (forall i :: 0 <= i < |evs| && evs[i].DeliverDone? ==>
          Done(evs[i].author, evs[i].k.0, evs[i].k.1) in ws[i].soup && Share(evs[i].sharer, evs[i].l.0, evs[i].l.1) in ws[i].soup)
  }

  lemma {:induction false} RunPath(st: Setting, ws: seq<Net>, evs: seq<Event>, i: nat)
    requires Run(st, ws, evs) && CodeFollowing(ws, evs) && i < |ws|
    ensures PathInv(st, ws[i])
  {
    if i == 0 {
      BootPath(st);
    } else {
      RunPath(st, ws, evs, i - 1);
      StepPath(st, ws, evs, i - 1);
    }
  }

  lemma {:induction false} StepPath(st: Setting, ws: seq<Net>, evs: seq<Event>, i: nat)
    requires Run(st, ws, evs) && CodeFollowing(ws, evs) && i < |evs| && PathInv(st, ws[i])
    ensures PathInv(st, ws[i + 1])
  {
    RunInv(st, ws, evs, i);
    PathPreserved(st, ws[i], evs[i], ws[i + 1]);
  }

  /** The lock-to-halt path: a node that has taken Yes votes of a quorum of distinct authors for a
      slot has sent a halt for it, and every halt that was ever sent carries a finished value of the
      slot's leader, so it takes effect at every node that knows the coin, is not past the height
      and has not halted at it. */
  lemma {:induction false} YesVotesHalt(st: Setting, ws: seq<Net>, evs: seq<Event>, i: nat, n: Name, k: Slot)
    requires Run(st, ws, evs) && CodeFollowing(ws, evs) && i < |ws| && n in ws[i].nodes
    ensures k in ws[i].nodes[n].preMakers && |ws[i].nodes[n].preMakers[k].used| >= st.r.quorum ==> HaltSent(ws[i].soup, n, k)
  {
    RunPath(st, ws, evs, i);
    RunInv(st, ws, evs, i);
    if k in ws[i].nodes[n].preMakers {
      assert CollectorOk(st.r, ws[i].soup, n, k, ws[i].nodes[n].preMakers[k]);
    }
  }

  /** A fitting halt passes every test of a node that knows the coin. */
  lemma {:induction false} HaltAccepted(r: Rules, s: State, halt: Msg)
    requires halt.Halt? && MsgFits(r, halt) && halt.leader in r.members && CoinsLocal(r, s.coins)
    requires (halt.height, halt.round) in s.coins.elected && !TimedOut(s, halt.height) && halt.height !in s.halts.heights
    ensures Handle(r, s, halt).0.halts.outputs == s.halts.outputs + [Output(halt.height, halt.round, halt.value.block)]
    ensures halt.value.block.author == r.coin((halt.height, halt.round)) && halt.value.block.height == halt.height
  {
  }

  lemma {:induction false} KnownHalt(st: Setting, w: Net, n: Name, halt: Msg)
    requires Inv(st, w) && PathInv(st, w) && n in w.nodes && st.CoinPicksMembers() && halt.Halt? && halt in w.soup
    ensures MsgFits(st.r, halt) && halt.leader in st.r.members && CoinsLocal(st.r, w.nodes[n].coins)
  {
    assert MsgFits(st.r, halt);
    assert NodeOk(st, w.soup, n, w.nodes[n]);
  }

  lemma {:induction false} HaltsTakeEffect(st: Setting, ws: seq<Net>, evs: seq<Event>, i: nat, n: Name, halt: Msg)
    requires Run(st, ws, evs) && CodeFollowing(ws, evs) && i < |ws| && n in ws[i].nodes
    requires halt.Halt? && halt in ws[i].soup
    requires var s := ws[i].nodes[n];
             (halt.height, halt.round) in s.coins.elected && !TimedOut(s, halt.height) && halt.height !in s.halts.heights
    ensures var s := ws[i].nodes[n];
            Handle(st.r, s, halt).0.halts.outputs == s.halts.outputs + [Output(halt.height, halt.round, halt.value.block)]
    ensures halt.value.block.author == st.r.coin((halt.height, halt.round)) && halt.value.block.height == halt.height
  {
    RunPath(st, ws, evs, i);
    RunInv(st, ws, evs, i);
    KnownHalt(st, ws[i], n, halt);
    HaltAccepted(st.r, ws[i].nodes[n], halt);
  }
}
