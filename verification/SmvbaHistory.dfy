/** What the messages of the agreement tell about the run before them, and which messages a run must
    have led to. */
module SmvbaHistory {
  import opened Committees
  import opened Messages
  import opened SmvbaNode
  import opened SmvbaEffects
  import opened SmvbaProtocol

  /** The message was delivered to the node before the i-th event. */
  ghost predicate Took(evs: seq<Event>, i: nat, n: Name, msg: Msg)
    requires i <= |evs|
  {
    exists e :: 0 <= e < i && evs[e] == Deliver(n, msg)
  }

  lemma {:induction false} TookLater(evs: seq<Event>, i: nat, n: Name, msg: Msg)
    requires i < |evs| && Took(evs, i, n, msg)
    ensures Took(evs, i + 1, n, msg)
  {
  }

  lemma {:induction false} TookNow(evs: seq<Event>, i: nat, n: Name, msg: Msg)
    requires i < |evs| && evs[i] == Deliver(n, msg)
    ensures Took(evs, i + 1, n, msg)
  {
  }

  type Key = (nat, nat, nat)      // height, round and phase

  // ----- the phases of a broadcast -----

  ghost predicate VoteTaken(evs: seq<Event>, i: nat, n: Name, key: Key, a: Name)
    requires i <= |evs|
  {
    exists p :: Took(evs, i, n, Vote(SPBVote(key.0, key.1, key.2, p, a)))
  }

  ghost predicate AllTaken(evs: seq<Event>, i: nat, n: Name, key: Key, voters: set<Name>)
    requires i <= |evs|
  {
    forall a :: a in voters ==> VoteTaken(evs, i, n, key, a)
  }

  /** Votes of a quorum of distinct members for the slot and phase were delivered to the node. */
  ghost predicate QuorumTaken(r: Rules, evs: seq<Event>, i: nat, n: Name, key: Key)
    requires i <= |evs|
  {
    exists voters :: AllTaken(evs, i, n, key, voters) && voters <= r.members && |voters| >= r.quorum
  }

  ghost predicate CollectorTook(r: Rules, evs: seq<Event>, i: nat, n: Name, key: Key, m: Collector)
    requires i <= |evs|
  {
    m.used <= r.members && m.weight <= |m.used| && AllTaken(evs, i, n, key, m.used)
  }

  ghost predicate OwnProposes(s: State) {
    forall k: Slot :: k in s.spb.proposes ==>
      s.spb.proposes[k].block.author == s.name && (s.spb.proposes[k].block.height, s.spb.proposes[k].round) == k
  }

  ghost predicate SpbHistory(r: Rules, evs: seq<Event>, i: nat, s: State)
    requires i <= |evs|
  {
    OwnProposes(s) && forall key: Key :: key in s.spb.makers ==> CollectorTook(r, evs, i, s.name, key, s.spb.makers[key])
  }

  /** A finish or a LOCK-phase proposal of a node tells that a quorum voted for the phase before. */
  ghost predicate Grounded(st: Setting, evs: seq<Event>, i: nat, m: Msg)
    requires i <= |evs|
  {
    && (m.Finish? ==> m.value.block.author in st.Correct() && QuorumTaken(st.r, evs, i, m.value.block.author, (m.height, m.round, LOCK_PHASE)))
    && (m.Propose? && m.value.phase == LOCK_PHASE ==>
          m.value.block.author in st.Correct() && QuorumTaken(st.r, evs, i, m.value.block.author, (m.height, m.value.round, INIT_PHASE)))
  }

  lemma {:induction false} VoteTakenLater(evs: seq<Event>, i: nat, n: Name, key: Key, a: Name)
    requires i < |evs| && VoteTaken(evs, i, n, key, a)
    ensures VoteTaken(evs, i + 1, n, key, a)
  {
    var p :| Took(evs, i, n, Vote(SPBVote(key.0, key.1, key.2, p, a)));
    TookLater(evs, i, n, Vote(SPBVote(key.0, key.1, key.2, p, a)));
  }

  lemma {:induction false} CollectorLater(r: Rules, evs: seq<Event>, i: nat, n: Name, key: Key, m: Collector)
    requires i < |evs| && CollectorTook(r, evs, i, n, key, m)
    ensures CollectorTook(r, evs, i + 1, n, key, m)
  {
    forall a | a in m.used ensures VoteTaken(evs, i + 1, n, key, a) {
      VoteTakenLater(evs, i, n, key, a);
    }
  }

  lemma {:induction false} GroundedLater(st: Setting, evs: seq<Event>, i: nat, m: Msg)
    requires i < |evs| && Grounded(st, evs, i, m)
    ensures Grounded(st, evs, i + 1, m)
  {
    if m.Finish? {
      QuorumLater(st.r, evs, i, m.value.block.author, (m.height, m.round, LOCK_PHASE));
    } else if m.Propose? && m.value.phase == LOCK_PHASE {
      QuorumLater(st.r, evs, i, m.value.block.author, (m.height, m.value.round, INIT_PHASE));
    }
  }

  lemma {:induction false} QuorumLater(r: Rules, evs: seq<Event>, i: nat, n: Name, key: Key)
    requires i < |evs| && QuorumTaken(r, evs, i, n, key)
    ensures QuorumTaken(r, evs, i + 1, n, key)
  {
    var voters :| AllTaken(evs, i, n, key, voters) && voters <= r.members && |voters| >= r.quorum;
    forall a | a in voters ensures VoteTaken(evs, i + 1, n, key, a) {
      VoteTakenLater(evs, i, n, key, a);
    }
    assert AllTaken(evs, i + 1, n, key, voters);
  }

  /** A delivered vote enters its collector. */
  lemma {:induction false} CollectVote(r: Rules, evs: seq<Event>, i: nat, n: Name, vote: SPBVote, m: Collector)
    requires i < |evs| && evs[i] == Deliver(n, Vote(vote)) && CollectorTook(r, evs, i, n, VoteKey(vote), m) && vote.author in r.members
    ensures var (m', out) := Collect(r.quorum, m, vote.author);
            && CollectorTook(r, evs, i + 1, n, VoteKey(vote), m')
            && (out == Some(true) ==> QuorumTaken(r, evs, i + 1, n, VoteKey(vote)))
  {
    var key := VoteKey(vote);
    CollectorLater(r, evs, i, n, key, m);
    TookNow(evs, i, n, Vote(vote));
    assert Vote(vote) == Vote(SPBVote(key.0, key.1, key.2, vote.proposer, vote.author));
    assert VoteTaken(evs, i + 1, n, key, vote.author);
    var voters := m.used + {vote.author};
    assert AllTaken(evs, i + 1, n, key, voters);
    if vote.author !in m.used {
      assert |voters| == |m.used| + 1;
    }
  }

  lemma {:induction false} SpbKept(r: Rules, evs: seq<Event>, i: nat, s: State, t: State)
    requires i < |evs| && SpbHistory(r, evs, i, s) && t.spb == s.spb && t.name == s.name
    ensures SpbHistory(r, evs, i + 1, t)
  {
    forall key: Key | key in t.spb.makers ensures CollectorTook(r, evs, i + 1, t.name, key, t.spb.makers[key]) {
      CollectorLater(r, evs, i, s.name, key, s.spb.makers[key]);
    }
  }

  lemma {:induction false} VoteHistory(r: Rules, evs: seq<Event>, i: nat, s: State, vote: SPBVote)
    requires i < |evs| && evs[i] == Deliver(s.name, Vote(vote)) && SpbHistory(r, evs, i, s)
    ensures SpbHistory(r, evs, i + 1, HandleVote(r, s, vote).0)
    ensures HandleVote(r, s, vote).1 != [] ==> QuorumTaken(r, evs, i + 1, s.name, VoteKey(vote))
  {
    SpbKept(r, evs, i, s, s);
    if InTime(s, vote.height) && vote.author in r.members {
      var m := Get(s.spb.makers, VoteKey(vote), FRESH);
      CollectVote(r, evs, i, s.name, vote, m);
      var (m', out) := Collect(r.quorum, m, vote.author);
      var t := HandleVote(r, s, vote).0;
      assert t.spb == s.spb.(makers := s.spb.makers[VoteKey(vote) := m']) && t.name == s.name;
      forall key: Key | key in t.spb.makers ensures CollectorTook(r, evs, i + 1, t.name, key, t.spb.makers[key]) {
        if key != VoteKey(vote) {
          CollectorLater(r, evs, i, s.name, key, s.spb.makers[key]);
        }
      }
    }
  }

  lemma {:induction false} VoteGrounded(st: Setting, evs: seq<Event>, i: nat, s: State, vote: SPBVote, m: Msg)
    requires i < |evs| && evs[i] == Deliver(s.name, Vote(vote)) && SpbHistory(st.r, evs, i, s) && s.name in st.Correct()
    requires m in HandleVote(st.r, s, vote).1
    ensures Grounded(st, evs, i + 1, m)
  {
    VoteHistory(st.r, evs, i, s, vote);
    VoteEffect(st.r, s, vote);
  }

  /** The other handlers leave the broadcasts alone and send no message of a later phase. */
  lemma {:induction false} OtherHandle(r: Rules, s: State, msg: Msg)
    requires !msg.Vote?
    ensures var (t, sent) := Handle(r, s, msg);
            t.spb == s.spb && t.name == s.name && forall m :: m in sent ==> !m.Finish? && !m.Propose?
  {
  }

  lemma {:induction false} OtherDone(r: Rules, s: State, author: Name, k: Slot, sharer: Name, l: Slot)
    ensures var (t, sent) := HandleDoneAndShare(r, s, author, k, sharer, l);
            t.spb == s.spb && t.name == s.name && forall m :: m in sent ==> !m.Finish? && !m.Propose?
  {
  }

  lemma {:induction false} SpbReact(st: Setting, evs: seq<Event>, i: nat, s: State)
    requires i < |evs| && SpbHistory(st.r, evs, i, s) && s.name in st.Correct() && evs[i].n == s.name
    requires evs[i].Invoke? ==> evs[i].value.block.author == s.name && evs[i].value.phase == INIT_PHASE
    ensures var (t, sent) := React(st, s, evs[i]);
            SpbHistory(st.r, evs, i + 1, t) && t.name == s.name && forall m :: m in sent ==> Grounded(st, evs, i + 1, m)
  {
    SpbKept(st.r, evs, i, s, s);
    match evs[i]
    case Deliver(n, msg) =>
      if msg.Vote? {
        VoteHistory(st.r, evs, i, s, msg.vote);
        forall m | m in HandleVote(st.r, s, msg.vote).1 ensures Grounded(st, evs, i + 1, m) {
          VoteGrounded(st, evs, i, s, msg.vote, m);
        }
      } else {
        OtherHandle(st.r, s, msg);
        SpbKept(st.r, evs, i, s, Handle(st.r, s, msg).0);
      }
    case DeliverDone(_, author, k, sharer, l) =>
      OtherDone(st.r, s, author, k, sharer, l);
      SpbKept(st.r, evs, i, s, HandleDoneAndShare(st.r, s, author, k, sharer, l).0);
    case _ =>
  }

  ghost predicate BroadcastInv(st: Setting, w: Net, evs: seq<Event>, i: nat)
    requires i <= |evs|
  {
    && (forall n :: n in w.nodes ==> n in st.Correct() && w.nodes[n].name == n && SpbHistory(st.r, evs, i, w.nodes[n]))
    && (forall m :: m in w.soup ==> Grounded(st, evs, i, m))
  }

  lemma {:induction false} BroadcastStep(st: Setting, w: Net, evs: seq<Event>, i: nat, w': Net)
    requires i < |evs| && BroadcastInv(st, w, evs, i) && Enabled(st, w, evs[i]) && w' == Apply(st, w, evs[i])
    ensures BroadcastInv(st, w', evs, i + 1)
  {
    var n := evs[i].n;
    SpbReact(st, evs, i, w.nodes[n]);
    forall m | m in w.nodes && m != n ensures SpbHistory(st.r, evs, i + 1, w.nodes[m]) {
      SpbKept(st.r, evs, i, w.nodes[m], w.nodes[m]);
    }
    forall m | m in w'.soup ensures Grounded(st, evs, i + 1, m) {
      if m in w.soup {
        GroundedLater(st, evs, i, m);
      }
    }
  }

  lemma {:induction false} BootBroadcast(st: Setting, evs: seq<Event>)
    ensures BroadcastInv(st, Boot(st), evs, 0)
  {
    forall n | n in Boot(st).nodes ensures Boot(st).nodes[n].name == n && SpbHistory(st.r, evs, 0, Boot(st).nodes[n]) {
      assert Boot(st).nodes[n] == InitState(n);
    }
  }

  lemma {:induction false} RunBroadcast(st: Setting, ws: seq<Net>, evs: seq<Event>, i: nat)
    requires Run(st, ws, evs) && i < |ws|
    ensures BroadcastInv(st, ws[i], evs, i)
  {
    if i == 0 {
      BootBroadcast(st, evs);
    } else {
      RunBroadcast(st, ws, evs, i - 1);
      BroadcastStep(st, ws[i - 1], evs, i - 1, ws[i]);
    }
  }

  /** A finish that was sent follows LOCK-phase votes of a quorum of distinct members at its proposer, and
      a LOCK-phase proposal follows INIT-phase votes of one. */
  lemma {:induction false} PhasesInOrder(st: Setting, ws: seq<Net>, evs: seq<Event>, i: nat, m: Msg)
    requires Run(st, ws, evs) && i < |ws| && m in ws[i].soup
    ensures m.Finish? ==> m.value.block.author in st.Correct() && QuorumTaken(st.r, evs, i, m.value.block.author, (m.height, m.round, LOCK_PHASE))
    ensures m.Propose? && m.value.phase == LOCK_PHASE ==>
              m.value.block.author in st.Correct() && QuorumTaken(st.r, evs, i, m.value.block.author, (m.height, m.value.round, INIT_PHASE))
  {
    RunBroadcast(st, ws, evs, i);
    assert Grounded(st, evs, i, m);
  }

  // ----- and conversely -----

  /** The node has sent the message that follows the phase: its value in the LOCK phase, or the finish. */
  ghost predicate NextSent(soup: set<Msg>, n: Name, key: Key) {
    && (key.2 == INIT_PHASE ==> exists v :: Propose(v, key.0) in soup && v.phase == LOCK_PHASE && v.block.author == n && v.round == key.1)
    && (key.2 == LOCK_PHASE ==> exists v :: Finish(v, key.0, key.1, FIN_PHASE) in soup && v.block.author == n)
  }

  /** A collector of the first two phases counts exactly its authors below the quorum until the next
      message is sent. */
  ghost predicate CollectorNext(r: Rules, soup: set<Msg>, s: State, key: Key, m: Collector) {
    key.2 <= LOCK_PHASE ==> (m.weight == |m.used| && m.weight < r.quorum) || s.crashed || NextSent(soup, s.name, key)
  }

  ghost predicate CollectorsNext(r: Rules, soup: set<Msg>, s: State) {
    OwnProposes(s) && forall key: Key :: key in s.spb.makers ==> CollectorNext(r, soup, s, key, s.spb.makers[key])
  }

  lemma {:induction false} NextStays(r: Rules, soup: set<Msg>, soup': set<Msg>, s: State, t: State, key: Key, m: Collector)
    requires soup <= soup' && t.name == s.name && (s.crashed ==> t.crashed) && CollectorNext(r, soup, s, key, m)
    ensures CollectorNext(r, soup', t, key, m)
  {
    if NextSent(soup, s.name, key) {
      if key.2 == INIT_PHASE {
        var v :| Propose(v, key.0) in soup && v.phase == LOCK_PHASE && v.block.author == s.name && v.round == key.1;
        assert Propose(v, key.0) in soup';
      } else if key.2 == LOCK_PHASE {
        var v :| Finish(v, key.0, key.1, FIN_PHASE) in soup && v.block.author == s.name;
        assert Finish(v, key.0, key.1, FIN_PHASE) in soup';
      }
    }
  }

  lemma {:induction false} CollectorsStay(r: Rules, soup: set<Msg>, soup': set<Msg>, s: State, t: State)
    requires soup <= soup' && t.name == s.name && t.spb == s.spb && (s.crashed ==> t.crashed) && CollectorsNext(r, soup, s)
    ensures CollectorsNext(r, soup', t)
  {
    forall key: Key | key in t.spb.makers ensures CollectorNext(r, soup', t, key, t.spb.makers[key]) {
      NextStays(r, soup, soup', s, t, key, s.spb.makers[key]);
    }
  }

  lemma {:induction false} FilledSends(r: Rules, soup: set<Msg>, s: State, vote: SPBVote)
    requires OwnProposes(s) && InTime(s, vote.height) && vote.author in r.members && vote.phase <= LOCK_PHASE
    requires Fills(r.quorum, Get(s.spb.makers, VoteKey(vote), FRESH), vote.author)
    ensures var (t, sent) := HandleVote(r, s, vote); t.crashed || NextSent(soup + (set m | m in sent), s.name, VoteKey(vote))
  {
    var (t, sent) := HandleVote(r, s, vote);
    VoteEffect(r, s, vote);
    if (vote.height, vote.round) in s.spb.proposes {
      var v := s.spb.proposes[(vote.height, vote.round)];
      if vote.phase == INIT_PHASE {
        assert Propose(v.(phase := LOCK_PHASE), vote.height) in sent;
      } else {
        assert Finish(v.(phase := FIN_PHASE), vote.height, vote.round, FIN_PHASE) in sent;
      }
    }
  }

  lemma {:induction false} VoteNext(r: Rules, soup: set<Msg>, s: State, vote: SPBVote)
    requires r.quorum >= 1 && CollectorsNext(r, soup, s)
    ensures var (t, sent) := HandleVote(r, s, vote); CollectorsNext(r, soup + (set m | m in sent), t) && t.name == s.name
  {
    var (t, sent) := HandleVote(r, s, vote);
    var soup' := soup + set m | m in sent;
    CollectorsStay(r, soup, soup', s, s);
    if InTime(s, vote.height) && vote.author in r.members {
      var m := Get(s.spb.makers, VoteKey(vote), FRESH);
      var m' := Collect(r.quorum, m, vote.author).0;
      assert t.spb == s.spb.(makers := s.spb.makers[VoteKey(vote) := m']) && (s.crashed ==> t.crashed);
      if vote.phase <= LOCK_PHASE && Fills(r.quorum, m, vote.author) {
        FilledSends(r, soup, s, vote);
      }
      assert CollectorNext(r, soup, s, VoteKey(vote), m);
      NextStays(r, soup, soup', s, t, VoteKey(vote), m);
      forall key: Key | key in t.spb.makers ensures CollectorNext(r, soup', t, key, t.spb.makers[key]) {
        if key != VoteKey(vote) {
          NextStays(r, soup, soup', s, t, key, s.spb.makers[key]);
        }
      }
    }
  }

  lemma {:induction false} ReactNext(st: Setting, soup: set<Msg>, s: State, ev: Event)
    requires st.r.quorum >= 1 && CollectorsNext(st.r, soup, s) && (ev.Invoke? ==> ev.value.block.author == s.name)
    ensures var (t, sent) := React(st, s, ev); CollectorsNext(st.r, soup + (set m | m in sent), t) && t.name == s.name
  {
    var (t, sent) := React(st, s, ev);
    var soup' := soup + set m | m in sent;
    match ev
    case Deliver(_, msg) =>
      if msg.Vote? {
        VoteNext(st.r, soup, s, msg.vote);
      } else {
        OtherHandle(st.r, s, msg);
        CrashStays(st.r, s, msg);
        CollectorsStay(st.r, soup, soup', s, t);
      }
    case DeliverDone(_, author, k, sharer, l) =>
      OtherDone(st.r, s, author, k, sharer, l);
      CollectorsStay(st.r, soup, soup', s, t);
    case _ =>
      CollectorsStay(st.r, soup, soup', s, s);
      forall key: Key | key in t.spb.makers ensures CollectorNext(st.r, soup', t, key, t.spb.makers[key]) {
        NextStays(st.r, soup, soup', s, t, key, s.spb.makers[key]);
      }
  }

  lemma {:induction false} CrashStays(r: Rules, s: State, msg: Msg)
    requires !msg.Vote?
    ensures Handle(r, s, msg).0.crashed == s.crashed
  {
  }

  ghost predicate NextInv(st: Setting, w: Net) {
    forall n :: n in w.nodes ==> w.nodes[n].name == n && CollectorsNext(st.r, w.soup, w.nodes[n])
  }

  lemma {:induction false} NextStep(st: Setting, w: Net, ev: Event, w': Net)
    requires st.r.quorum >= 1 && NextInv(st, w) && Enabled(st, w, ev) && w' == Apply(st, w, ev)
    ensures NextInv(st, w')
  {
    ReactNext(st, w.soup, w.nodes[ev.n], ev);
    forall m | m in w.nodes && m != ev.n ensures CollectorsNext(st.r, w'.soup, w.nodes[m]) {
      CollectorsStay(st.r, w.soup, w'.soup, w.nodes[m], w.nodes[m]);
    }
  }

  lemma {:induction false} RunNext(st: Setting, ws: seq<Net>, evs: seq<Event>, i: nat)
    requires Run(st, ws, evs) && i < |ws|
    ensures NextInv(st, ws[i])
  {
    if i == 0 {
      assert forall n :: n in ws[0].nodes ==> ws[0].nodes[n] == InitState(n);
    } else {
      RunNext(st, ws, evs, i - 1);
      ValidBounds(st);
      NextStep(st, ws[i - 1], evs[i - 1], ws[i]);
    }
  }

  /** A node that has collected votes of a quorum of distinct authors for one of the first two phases has
      sent the message of the next one, unless it crashed for want of a recorded value. */
  lemma {:induction false} QuorumSendsNext(st: Setting, ws: seq<Net>, evs: seq<Event>, i: nat, n: Name, key: Key)
    requires Run(st, ws, evs) && i < |ws| && n in ws[i].nodes && key.2 <= LOCK_PHASE && !ws[i].nodes[n].crashed
    requires key in ws[i].nodes[n].spb.makers && |ws[i].nodes[n].spb.makers[key].used| >= st.r.quorum
    ensures NextSent(ws[i].soup, n, key)
  {
    RunNext(st, ws, evs, i);
    assert CollectorNext(st.r, ws[i].soup, ws[i].nodes[n], key, ws[i].nodes[n].spb.makers[key]);
  }

  // ----- votes on prevotes -----

  ghost predicate NoTaken(evs: seq<Event>, i: nat, n: Name, k: Slot, a: Name)
    requires i <= |evs|
  {
    exists leader :: Took(evs, i, n, PreVote(a, leader, k.0, k.1, None))
  }

  ghost predicate AllNo(evs: seq<Event>, i: nat, n: Name, k: Slot, names: set<Name>)
    requires i <= |evs|
  {
    forall a :: a in names ==> NoTaken(evs, i, n, k, a)
  }

  ghost predicate NoHistory(r: Rules, evs: seq<Event>, i: nat, s: State)
    requires i <= |evs|
  {
    forall k: Slot :: k in s.tally.noPrevotes ==> s.tally.noPrevotes[k] <= r.members && AllNo(evs, i, s.name, k, s.tally.noPrevotes[k])
  }

  /** No prevotes of a quorum of distinct members for the slot were delivered to the node. */
  ghost predicate NoQuorum(r: Rules, evs: seq<Event>, i: nat, n: Name, k: Slot)
    requires i <= |evs|
  {
    exists names :: AllNo(evs, i, n, k, names) && names <= r.members && |names| == r.quorum
  }

  ghost predicate YesTaken(evs: seq<Event>, i: nat, n: Name, leader: Name, k: Slot, v: SPBValue)
    requires i <= |evs|
  {
    exists a :: Took(evs, i, n, PreVote(a, leader, k.0, k.1, Some(v)))
  }

  /** A No vote tells of a quorum of No prevotes, a Yes vote of a prevote with its value, on which it is a
      vote of its author. */
  ghost predicate Answers(r: Rules, evs: seq<Event>, i: nat, m: Msg)
    requires i <= |evs| && m.MVote?
  {
    && (m.yes.None? ==> NoQuorum(r, evs, i, m.author, (m.height, m.round)))
    && (m.yes.Some? ==> && YesTaken(evs, i, m.author, m.leader, (m.height, m.round), m.yes.value.0)
                        && m.yes.value.0.phase <= LOCK_PHASE && VoteFor(m.yes.value.1, m.yes.value.0, m.author))
  }

  lemma {:induction false} AllNoLater(evs: seq<Event>, i: nat, n: Name, k: Slot, names: set<Name>)
    requires i < |evs| && AllNo(evs, i, n, k, names)
    ensures AllNo(evs, i + 1, n, k, names)
  {
    forall a | a in names ensures NoTaken(evs, i + 1, n, k, a) {
      var leader :| Took(evs, i, n, PreVote(a, leader, k.0, k.1, None));
      TookLater(evs, i, n, PreVote(a, leader, k.0, k.1, None));
    }
  }

  lemma {:induction false} AnswersLater(r: Rules, evs: seq<Event>, i: nat, m: Msg)
    requires i < |evs| && m.MVote? && Answers(r, evs, i, m)
    ensures Answers(r, evs, i + 1, m)
  {
    var k := (m.height, m.round);
    if m.yes.None? {
      var names :| AllNo(evs, i, m.author, k, names) && names <= r.members && |names| == r.quorum;
      AllNoLater(evs, i, m.author, k, names);
    } else {
      var a :| Took(evs, i, m.author, PreVote(a, m.leader, k.0, k.1, Some(m.yes.value.0)));
      TookLater(evs, i, m.author, PreVote(a, m.leader, k.0, k.1, Some(m.yes.value.0)));
    }
  }

  lemma {:induction false} NoKept(r: Rules, evs: seq<Event>, i: nat, s: State, t: State)
    requires i < |evs| && NoHistory(r, evs, i, s) && t.name == s.name
    requires forall k: Slot :: k in t.tally.noPrevotes ==> t.tally.noPrevotes[k] == {} || (k in s.tally.noPrevotes && t.tally.noPrevotes[k] == s.tally.noPrevotes[k])
    ensures NoHistory(r, evs, i + 1, t)
  {
    forall k: Slot | k in t.tally.noPrevotes ensures AllNo(evs, i + 1, t.name, k, t.tally.noPrevotes[k]) {
      if t.tally.noPrevotes[k] != {} {
        AllNoLater(evs, i, s.name, k, s.tally.noPrevotes[k]);
      }
    }
  }

  /** The noes of a slot after one more No prevote. */
  lemma {:induction false} NoAdded(r: Rules, evs: seq<Event>, i: nat, s: State, author: Name, leader: Name, k: Slot)
    requires i < |evs| && NoHistory(r, evs, i, s) && author in r.members && evs[i] == Deliver(s.name, PreVote(author, leader, k.0, k.1, None))
    ensures var noes := Get(s.tally.noPrevotes, k, {}) + {author}; noes <= r.members && AllNo(evs, i + 1, s.name, k, noes)
  {
    AllNoLater(evs, i, s.name, k, Get(s.tally.noPrevotes, k, {}));
    TookNow(evs, i, s.name, PreVote(author, leader, k.0, k.1, None));
    assert NoTaken(evs, i + 1, s.name, k, author);
  }

  lemma {:induction false} PrevoteNoes(r: Rules, s: State, author: Name, leader: Name, h: nat, rd: nat, lock: Option<SPBValue>)
    ensures var t := HandlePrevote(r, s, author, leader, h, rd, lock).0;
            && t.name == s.name
            && (t.tally.noPrevotes == s.tally.noPrevotes
                || (lock.None? && author in r.members && t.tally.noPrevotes == s.tally.noPrevotes[(h, rd) := Get(s.tally.noPrevotes, (h, rd), {}) + {author}]))
  {
  }

  lemma {:induction false} PrevoteHistory(r: Rules, evs: seq<Event>, i: nat, s: State, author: Name, leader: Name, h: nat, rd: nat, lock: Option<SPBValue>)
    requires i < |evs| && NoHistory(r, evs, i, s) && evs[i] == Deliver(s.name, PreVote(author, leader, h, rd, lock))
    ensures NoHistory(r, evs, i + 1, HandlePrevote(r, s, author, leader, h, rd, lock).0)
  {
    var t := HandlePrevote(r, s, author, leader, h, rd, lock).0;
    NoKept(r, evs, i, s, s);
    PrevoteNoes(r, s, author, leader, h, rd, lock);
    if t.tally.noPrevotes != s.tally.noPrevotes {
      NoAdded(r, evs, i, s, author, leader, (h, rd));
    }
  }

  lemma {:induction false} PrevoteAnswers(r: Rules, evs: seq<Event>, i: nat, s: State, author: Name, leader: Name, h: nat, rd: nat, lock: Option<SPBValue>, m: Msg)
    requires i < |evs| && NoHistory(r, evs, i, s) && evs[i] == Deliver(s.name, PreVote(author, leader, h, rd, lock))
    requires m in HandlePrevote(r, s, author, leader, h, rd, lock).1
    ensures m.MVote? && m.author == s.name && Answers(r, evs, i + 1, m)
  {
    PrevoteEffect(r, s, author, leader, h, rd, lock);
    TookNow(evs, i, s.name, PreVote(author, leader, h, rd, lock));
    if lock.None? {
      NoAdded(r, evs, i, s, author, leader, (h, rd));
    } else {
      assert YesTaken(evs, i + 1, s.name, leader, (h, rd), lock.value);
    }
  }

  /** The other handlers add no noes and send no votes on prevotes. */
  lemma {:induction false} OtherNoes(r: Rules, s: State, msg: Msg)
    requires !msg.PreVote? && !msg.MVote?
    ensures var (t, sent) := Handle(r, s, msg);
            t.name == s.name && t.tally.noPrevotes == s.tally.noPrevotes && forall m :: m in sent ==> !m.MVote?
  {
  }

  lemma {:induction false} MVoteNoes(r: Rules, s: State, author: Name, leader: Name, h: nat, rd: nat, yes: Option<(SPBValue, SPBVote)>)
    ensures var (t, sent) := HandleMVote(r, s, author, leader, h, rd, yes);
            && t.name == s.name && (forall m :: m in sent ==> !m.MVote?)
            && (t.tally.noPrevotes == s.tally.noPrevotes || t.tally.noPrevotes == s.tally.noPrevotes[(h, rd + 1) := {}])
  {
    if yes.Some? && InTime(s, h) && author in r.members && yes.value.0.block.author in r.members && yes.value.1.author in r.members {
      YesMoves(r, s, author, leader, h, rd, yes.value.0, yes.value.1);
    }
  }

  lemma {:induction false} DoneNoes(r: Rules, s: State, author: Name, k: Slot, sharer: Name, l: Slot)
    ensures var (t, sent) := HandleDoneAndShare(r, s, author, k, sharer, l);
            t.name == s.name && t.tally.noPrevotes == s.tally.noPrevotes && forall m :: m in sent ==> !m.MVote?
  {
  }

  lemma {:induction false} AnswerReact(st: Setting, evs: seq<Event>, i: nat, s: State)
    requires i < |evs| && NoHistory(st.r, evs, i, s) && evs[i].n == s.name
    ensures var (t, sent) := React(st, s, evs[i]);
            NoHistory(st.r, evs, i + 1, t) && t.name == s.name && forall m :: m in sent && m.MVote? ==> Answers(st.r, evs, i + 1, m)
  {
    var (t, sent) := React(st, s, evs[i]);
    match evs[i]
    case Deliver(n, msg) =>
      if msg.PreVote? {
        PrevoteHistory(st.r, evs, i, s, msg.author, msg.leader, msg.height, msg.round, msg.lock);
        PrevoteNoes(st.r, s, msg.author, msg.leader, msg.height, msg.round, msg.lock);
        forall m | m in sent ensures m.MVote? && Answers(st.r, evs, i + 1, m) {
          PrevoteAnswers(st.r, evs, i, s, msg.author, msg.leader, msg.height, msg.round, msg.lock, m);
        }
      } else if msg.MVote? {
        MVoteNoes(st.r, s, msg.author, msg.leader, msg.height, msg.round, msg.yes);
        NoKept(st.r, evs, i, s, t);
      } else {
        OtherNoes(st.r, s, msg);
        NoKept(st.r, evs, i, s, t);
      }
    case DeliverDone(_, author, k, sharer, l) =>
      DoneNoes(st.r, s, author, k, sharer, l);
      NoKept(st.r, evs, i, s, t);
    case _ =>
      NoKept(st.r, evs, i, s, t);
  }

  ghost predicate AnswerInv(st: Setting, w: Net, evs: seq<Event>, i: nat)
    requires i <= |evs|
  {
    && (forall n :: n in w.nodes ==> w.nodes[n].name == n && NoHistory(st.r, evs, i, w.nodes[n]))
    && (forall m :: m in w.soup && m.MVote? ==> Answers(st.r, evs, i, m))
  }

  lemma {:induction false} AnswerStep(st: Setting, w: Net, evs: seq<Event>, i: nat, w': Net)
    requires i < |evs| && AnswerInv(st, w, evs, i) && Enabled(st, w, evs[i]) && w' == Apply(st, w, evs[i])
    ensures AnswerInv(st, w', evs, i + 1)
  {
    var n := evs[i].n;
    AnswerReact(st, evs, i, w.nodes[n]);
    forall m | m in w.nodes && m != n ensures NoHistory(st.r, evs, i + 1, w.nodes[m]) {
      NoKept(st.r, evs, i, w.nodes[m], w.nodes[m]);
    }
    forall m | m in w'.soup && m.MVote? ensures Answers(st.r, evs, i + 1, m) {
      if m in w.soup {
        AnswersLater(st.r, evs, i, m);
      }
    }
  }

  lemma {:induction false} BootAnswers(st: Setting, evs: seq<Event>)
    ensures AnswerInv(st, Boot(st), evs, 0)
  {
    forall n | n in Boot(st).nodes ensures Boot(st).nodes[n].name == n && NoHistory(st.r, evs, 0, Boot(st).nodes[n]) {
      assert Boot(st).nodes[n] == InitState(n);
    }
  }

  lemma {:induction false} RunAnswers(st: Setting, ws: seq<Net>, evs: seq<Event>, i: nat)
    requires Run(st, ws, evs) && i < |ws|
    ensures AnswerInv(st, ws[i], evs, i)
  {
    if i == 0 {
      BootAnswers(st, evs);
    } else {
      RunAnswers(st, ws, evs, i - 1);
      AnswerStep(st, ws[i - 1], evs, i - 1, ws[i]);
    }
  }

  /** A No vote that was sent follows No prevotes of a quorum of distinct members at its sender; a Yes vote
      follows a prevote that carried its value, and holds an SPB vote of its sender on that value. */
  lemma {:induction false} VotesFollowPrevotes(st: Setting, ws: seq<Net>, evs: seq<Event>, i: nat, m: Msg)
    requires Run(st, ws, evs) && i < |ws| && m.MVote? && m in ws[i].soup
    ensures m.yes.None? ==> NoQuorum(st.r, evs, i, m.author, (m.height, m.round))
    ensures m.yes.Some? ==> YesTaken(evs, i, m.author, m.leader, (m.height, m.round), m.yes.value.0) && VoteFor(m.yes.value.1, m.yes.value.0, m.author)
  {
    RunAnswers(st, ws, evs, i);
    assert Answers(st.r, evs, i, m);
  }

  // ----- locks reach the prevote -----

  /** A LOCK-phase value of the author is filed for the slot. */
  ghost predicate LockHeld(s: State, k: Slot, a: Name) {
    && k in s.held.locks && a in s.held.locks[k]
    && s.held.locks[k][a].phase == LOCK_PHASE && s.held.locks[k][a].block.author == a && (s.held.locks[k][a].block.height, s.held.locks[k][a].round) == k
  }

  lemma {:induction false} LockTaken(r: Rules, s: State, value: SPBValue, h: nat)
    requires InTime(s, h) && value.block.author in r.members && value.phase == LOCK_PHASE
    ensures LockHeld(HandlePropose(r, s, value, h).0, (value.block.height, value.round), value.block.author)
  {
  }

  lemma {:induction false} LockHandle(r: Rules, s: State, msg: Msg, k: Slot, a: Name)
    requires LockHeld(s, k, a)
    ensures LockHeld(Handle(r, s, msg).0, k, a)
  {
    if !msg.Propose? {
      LocksSame(r, s, msg);
    }
  }

  lemma {:induction false} LocksSame(r: Rules, s: State, msg: Msg)
    requires !msg.Propose?
    ensures Handle(r, s, msg).0.held.locks == s.held.locks
  {
  }

  lemma {:induction false} LockReact(st: Setting, s: State, ev: Event, k: Slot, a: Name)
    requires LockHeld(s, k, a) && (ev.Clean? ==> ev.height < k.0)
    ensures LockHeld(React(st, s, ev).0, k, a)
  {
    if ev.Deliver? {
      LockHandle(st.r, s, ev.msg, k, a);
    }
  }

  ghost predicate LockedAt(w: Net, n: Name, k: Slot, a: Name) {
    n in w.nodes && LockHeld(w.nodes[n], k, a)
  }

  lemma {:induction false} LockStep(st: Setting, w: Net, ev: Event, n: Name, k: Slot, a: Name)
    requires ev.n in w.nodes && LockedAt(w, n, k, a) && (ev.n == n && ev.Clean? ==> ev.height < k.0)
    ensures LockedAt(Apply(st, w, ev), n, k, a)
  {
    if ev.n == n {
      LockReact(st, w.nodes[n], ev, k, a);
    }
  }

  /** The node does not clean up the slot's height at any event between the two. */
  ghost predicate NotCleaned(evs: seq<Event>, i: nat, j: nat, n: Name, h: nat)
    requires i <= j <= |evs|
  {
    forall e :: i <= e < j && evs[e].n == n && evs[e].Clean? ==> evs[e].height < h
  }

  lemma {:induction false} LockStays(st: Setting, ws: seq<Net>, evs: seq<Event>, i: nat, j: nat, n: Name, k: Slot, a: Name)
    requires Run(st, ws, evs) && i <= j <= |evs| && LockedAt(ws[i], n, k, a) && NotCleaned(evs, i, j, n, k.0)
    ensures LockedAt(ws[j], n, k, a)
    decreases j
  {
    if i < j {
      LockStays(st, ws, evs, i, j - 1, n, k, a);
      LockStep(st, ws[j - 1], evs[j - 1], n, k, a);
    }
  }

  lemma {:induction false} LockedAnswer(r: Rules, s: State, author: Name, k: Slot, sharer: Name, l: Slot)
    requires l !in s.coins.elected && l in HandleDoneAndShare(r, s, author, k, sharer, l).0.coins.elected
    requires LockHeld(s, l, r.coin(l)) && r.coin(l) !in Get(s.held.finishes, l, map[])
    ensures PreVote(s.name, r.coin(l), l.0, l.1, Some(s.held.locks[l][r.coin(l)])) in HandleDoneAndShare(r, s, author, k, sharer, l).1
  {
    var (t, first) := HandleDone(r, s, author, k.0, k.1);
    ShareEffect(r, t, sharer, l.0, l.1);
  }

  /** A node that took a LOCK-phase proposal of the slot's leader and has not cleaned it up answers the
      coin of the slot, if it holds no finish of the leader then, by a Yes prevote with a LOCK-phase value
      of the leader for that slot. */
  lemma {:induction false} LockPrevotesYes(st: Setting, ws: seq<Net>, evs: seq<Event>, i: nat, j: nat, n: Name, value: SPBValue, h: nat)
    requires Run(st, ws, evs) && i < j < |evs| && evs[i] == Deliver(n, Propose(value, h)) && n in ws[i].nodes && InTime(ws[i].nodes[n], h)
    requires value.phase == LOCK_PHASE && NotCleaned(evs, i + 1, j, n, value.block.height)
    requires var k := (value.block.height, value.round);
             && value.block.author == st.r.coin(k) && evs[j].DeliverDone? && evs[j].n == n && evs[j].l == k
             && n in ws[j].nodes && n in ws[j + 1].nodes && k !in ws[j].nodes[n].coins.elected && k in ws[j + 1].nodes[n].coins.elected
             && st.r.coin(k) !in Get(ws[j].nodes[n].held.finishes, k, map[])
    ensures var k := (value.block.height, value.round);
            && LockHeld(ws[j].nodes[n], k, value.block.author)
            && PreVote(n, value.block.author, k.0, k.1, Some(ws[j].nodes[n].held.locks[k][value.block.author])) in SentAt(st, ws, evs, j)
  {
    var k := (value.block.height, value.round);
    assert st.r.coin(k) in st.r.members;
    LockTaken(st.r, ws[i].nodes[n], value, h);
    assert LockedAt(ws[i + 1], n, k, value.block.author);
    LockStays(st, ws, evs, i + 1, j, n, k, value.block.author);
    RunBroadcast(st, ws, evs, j);
    LockedAnswer(st.r, ws[j].nodes[n], evs[j].author, evs[j].k, evs[j].sharer, k);
  }
}
