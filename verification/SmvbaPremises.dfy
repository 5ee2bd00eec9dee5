/** Exactly when no coin comes before a quorum of finishes. A done counts whoever signed it, and the
    share that must verify with it need not belong to the same author or slot. So enough keys from
    outside, with a share of an earlier round attached to their dones, fix the leader of a round in
    which no finish exists; and fewer keys cannot. */
module SmvbaPremises {
  import opened Committees
  import opened Messages
  import opened SmvbaNode
  import opened SmvbaProtocol

  const EARLIER: Slot := (1, 1)
  const LATER: Slot := (1, 2)

  // ----- one node -----

  predicate Quiet(s: State, n: Name) {
    s.name == n && s.height == 1 && !s.crashed && LATER !in s.held.finishes
  }

  predicate NoCoin(s: State) {
    LATER !in s.coins.makers && LATER !in s.coins.elected
  }

  /** Dones of the given keys have been counted for the later slot, and nothing was sent on them. */
  predicate Waiting(s: State, keys: set<Name>) {
    Get(s.tally.dones, LATER, {}) == keys && !Get(s.flags.d, LATER, false)
  }

  lemma {:induction false} OneMoreDone(r: Rules, s: State, n: Name, keys: set<Name>, a: Name, sharer: Name)
    requires Quiet(s, n) && NoCoin(s) && Waiting(s, keys) && a !in keys && sharer in r.members
    ensures var (t, sent) := HandleDoneAndShare(r, s, a, LATER, sharer, EARLIER);
            && Quiet(t, n) && NoCoin(t)
            && (if |keys| + 1 == r.coinQuorum then Done(n, 1, 2) in sent && Share(n, 1, 2) in sent
                else Waiting(t, keys + {a}) && Share(n, 1, 2) !in sent)
  {
    assert AddName(s.tally.dones, LATER, a)[LATER] == keys + {a};
    var (t, first) := HandleDone(r, s, a, 1, 2);
    assert |keys| + 1 == r.coinQuorum ==> first[0] == Done(n, 1, 2) && first[1] == Share(n, 1, 2);
    ShareAnswer(r, t, sharer, 1, 1);
  }

  /** Shares of the given members have been taken, and the coin is known once they suffice. */
  predicate Gathered(r: Rules, s: State, names: set<Name>) {
    if |names| < r.coinQuorum then LATER !in s.coins.elected && Get(s.coins.makers, LATER, FRESH) == Collector(|names|, names)
    else LATER in s.coins.elected
  }

  lemma {:induction false} OneMoreShare(r: Rules, s: State, n: Name, names: set<Name>, a: Name)
    requires Quiet(s, n) && Gathered(r, s, names) && |names| < r.coinQuorum && a in r.members && a !in names
    ensures var t := HandleDoneAndShare(r, s, a, LATER, a, LATER).0; Quiet(t, n) && Gathered(r, t, names + {a})
  {
  }

  /** Finishes of the given proposers are filed for the earlier slot. */
  predicate Filed(r: Rules, s: State, names: set<Name>) {
    Get(s.held.finishes, EARLIER, map[]).Keys == names && (|names| < r.quorum ==> !Get(s.flags.d, EARLIER, false))
  }

  lemma {:induction false} KeysCount<K, V>(m: map<K, V>)
    ensures |m.Keys| == |m|
  {
  }

  lemma {:induction false} OneMoreFinish(r: Rules, s: State, n: Name, names: set<Name>, v: SPBValue)
    requires Quiet(s, n) && Filed(r, s, names) && |names| < r.quorum && v.block.author in r.members - names
    ensures var (t, sent) := HandleFinish(r, s, v, 1, 1, INIT_PHASE);
            && Quiet(t, n) && (NoCoin(s) ==> NoCoin(t)) && (Waiting(s, {}) ==> Waiting(t, {}))
            && Filed(r, t, names + {v.block.author})
            && (|names| + 1 == r.quorum ==> Share(n, 1, 1) in sent)
  {
    var finishes := AddFinish(s.held, EARLIER, v, INIT_PHASE).finishes[EARLIER];
    assert finishes.Keys == names + {v.block.author};
    KeysCount(finishes);
    assert DoneAndShare(s, 1, 1)[1] == Share(s.name, 1, 1);
  }

  // ----- building the run -----

  /** Only finishes are delivered besides dones, each with a value its author has proposed and a
      proof of the first phase, which is accepted without any signatures. */
  ghost predicate Relayed(w: Net, ev: Event) {
    ev.Deliver? ==>
      && ev.msg.Finish? && ev.msg.phase == INIT_PHASE
      && Propose(ev.msg.value, ev.msg.value.block.height) in w.soup
  }

  ghost predicate QuietNet(st: Setting, w: Net) {
    w.nodes.Keys == st.Correct() && forall n :: n in w.nodes ==> Quiet(w.nodes[n], n)
  }

  ghost predicate Step(st: Setting, keys: set<Name>, w: Net, ev: Event, w': Net) {
    && Enabled(st, w, ev) && Relayed(w, ev) && w' == Apply(st, w, ev)
    && (ev.DeliverDone? ==> ev.author in st.Correct() + keys)
  }

  /** Runs of such steps through quiet nets, one event at a time. */
  ghost predicate Trail(st: Setting, keys: set<Name>, ws: seq<Net>, evs: seq<Event>)
    decreases |evs|
  {
    && |ws| == |evs| + 1 && QuietNet(st, ws[|evs|])
    && if evs == [] then ws == [Boot(st)] else
         Trail(st, keys, ws[..|evs|], evs[..|evs| - 1]) && Step(st, keys, ws[|evs| - 1], evs[|evs| - 1], ws[|evs|])
  }

  ghost predicate Reachable(st: Setting, keys: set<Name>, w: Net) {
    exists ws, evs :: Trail(st, keys, ws, evs) && ws[|evs|] == w
  }

  lemma {:induction false} Append(st: Setting, keys: set<Name>, ws: seq<Net>, evs: seq<Event>, ev: Event, w: Net)
    requires Trail(st, keys, ws, evs) && Step(st, keys, ws[|evs|], ev, w) && QuietNet(st, w)
    ensures Trail(st, keys, ws + [w], evs + [ev])
  {
    var ws', evs' := ws + [w], evs + [ev];
    assert ws'[..|evs'|] == ws && evs'[..|evs|] == evs;
  }

  lemma {:induction false} QuietAfter(st: Setting, w: Net, w': Net, n: Name, t: State)
    requires QuietNet(st, w) && n in w.nodes && w'.nodes == w.nodes[n := t] && Quiet(t, n)
    ensures QuietNet(st, w')
  {
  }

  lemma {:induction false} StepReaches(st: Setting, keys: set<Name>, w: Net, ev: Event, w': Net)
    requires Reachable(st, keys, w) && Step(st, keys, w, ev, w') && QuietNet(st, w')
    ensures Reachable(st, keys, w')
  {
    var ws, evs :| Trail(st, keys, ws, evs) && ws[|evs|] == w;
    Append(st, keys, ws, evs, ev, w');
    assert (ws + [w'])[|evs + [ev]|] == w';
  }

  /** One more event, given what it does to its node. */
  lemma {:induction false} Extend(st: Setting, keys: set<Name>, w: Net, ev: Event, t: State, sent: seq<Msg>) returns (w': Net)
    requires QuietNet(st, w) && Reachable(st, keys, w) && Enabled(st, w, ev) && Relayed(w, ev) && (t, sent) == React(st, w.nodes[ev.n], ev)
    requires (ev.DeliverDone? ==> ev.author in st.Correct() + keys) && Quiet(t, ev.n)
    ensures QuietNet(st, w') && Reachable(st, keys, w') && w'.nodes == w.nodes[ev.n := t] && w'.soup == w.soup + set m | m in sent
  {
    w' := Apply(st, w, ev);
    QuietAfter(st, w, w', ev.n, t);
    StepReaches(st, keys, w, ev, w');
  }

  ghost predicate Untouched(w: Net, names: set<Name>) {
    forall n :: n in names && n in w.nodes ==> NoCoin(w.nodes[n]) && Waiting(w.nodes[n], {})
  }

  function ValueOf(n: Name): SPBValue {
    SPBValue(NewBlock(GENESIS_QC, n, 1, 0, 0, [], PES), 1, INIT_PHASE)
  }

  lemma {:induction false} BootReachable(st: Setting, keys: set<Name>, n: Name)
    requires n in st.Correct()
    ensures Started(st, keys, Boot(st), n, {})
  {
    assert forall m :: m in Boot(st).nodes ==> Boot(st).nodes[m] == InitState(m);
    assert QuietNet(st, Boot(st));
    var evs: seq<Event> := [];
    assert Trail(st, keys, [Boot(st)], evs) && [Boot(st)][|evs|] == Boot(st);
  }

  /** The earlier round has started and n has filed finishes of the given proposers. */
  ghost predicate Started(st: Setting, keys: set<Name>, w: Net, n: Name, names: set<Name>) {
    QuietNet(st, w) && Reachable(st, keys, w) && Untouched(w, st.Correct()) && n in w.nodes && Filed(st.r, w.nodes[n], names)
  }

  lemma {:induction false} Proposed(st: Setting, keys: set<Name>, w: Net, p: Name, n: Name, names: set<Name>) returns (w': Net)
    requires Started(st, keys, w, n, names) && p in st.Correct()
    ensures Started(st, keys, w', n, names) && Propose(ValueOf(p), 1) in w'.soup
  {
    var ev := Invoke(p, ValueOf(p));
    var (t, sent) := React(st, w.nodes[p], ev);
    assert Quiet(w.nodes[p], p) && sent == [Propose(ValueOf(p), 1)];
    w' := Extend(st, keys, w, ev, t, sent);
  }

  lemma {:induction false} Finished(st: Setting, keys: set<Name>, w: Net, p: Name, n: Name, names: set<Name>) returns (w': Net)
    requires Started(st, keys, w, n, names) && p in st.Correct() - names && |names| < st.r.quorum && Propose(ValueOf(p), 1) in w.soup
    ensures Started(st, keys, w', n, names + {p})
    ensures |names| + 1 == st.r.quorum ==> Share(n, 1, 1) in w'.soup
  {
    var ev := Deliver(n, Finish(ValueOf(p), 1, 1, INIT_PHASE));
    var (t, sent) := HandleFinish(st.r, w.nodes[n], ValueOf(p), 1, 1, INIT_PHASE);
    assert Quiet(w.nodes[n], n);
    OneMoreFinish(st.r, w.nodes[n], n, names, ValueOf(p));
    w' := Extend(st, keys, w, ev, t, sent);
  }

  lemma {:induction false} ProposedAndFinished(st: Setting, keys: set<Name>, w: Net, p: Name, n: Name, names: set<Name>) returns (w': Net)
    requires Started(st, keys, w, n, names) && p in st.Correct() - names && |names| < st.r.quorum
    ensures Started(st, keys, w', n, names + {p})
    ensures |names| + 1 == st.r.quorum ==> Share(n, 1, 1) in w'.soup
  {
    var w1 := Proposed(st, keys, w, p, n, names);
    w' := Finished(st, keys, w1, p, n, names);
  }

  /** A node that receives finishes of a quorum releases its share of the earlier slot. */
  lemma {:induction false} EarlierShare(st: Setting, keys: set<Name>, w: Net, n: Name, names: set<Name>) returns (w': Net)
    requires Started(st, keys, w, n, {}) && names <= st.Correct() && |names| <= st.r.quorum
    ensures Started(st, keys, w', n, names)
    ensures names != {} && |names| == st.r.quorum ==> Share(n, 1, 1) in w'.soup
    decreases |names|
  {
    if names == {} {
      w' := w;
    } else {
      var p := Least(names);
      var rest := names - {p};
      assert rest + {p} == names && |rest| + 1 == |names|;
      var w1 := EarlierShare(st, keys, w, n, rest);
      w' := ProposedAndFinished(st, keys, w1, p, n, rest);
    }
  }

  ghost predicate OthersSame(w: Net, w': Net, n: Name) {
    w.soup <= w'.soup && forall m :: m in w.nodes && m != n ==> m in w'.nodes && w'.nodes[m] == w.nodes[m]
  }

  ghost predicate Shared(w: Net, n: Name) {
    Done(n, 1, 2) in w.soup && Share(n, 1, 2) in w.soup
  }

  lemma {:induction false} NextDone(st: Setting, keys: set<Name>, w: Net, n: Name, sharer: Name, used: set<Name>, a: Name) returns (w': Net)
    requires QuietNet(st, w) && Reachable(st, keys, w) && n in w.nodes && sharer in st.Correct() && Share(sharer, 1, 1) in w.soup
    requires a in keys - used && keys !! st.Correct() && NoCoin(w.nodes[n]) && Waiting(w.nodes[n], used)
    ensures QuietNet(st, w') && Reachable(st, keys, w') && OthersSame(w, w', n) && n in w'.nodes && NoCoin(w'.nodes[n])
    ensures if |used| + 1 == st.r.coinQuorum then Shared(w', n) else Waiting(w'.nodes[n], used + {a})
  {
    var (t, sent) := HandleDoneAndShare(st.r, w.nodes[n], a, LATER, sharer, EARLIER);
    assert Quiet(w.nodes[n], n);
    OneMoreDone(st.r, w.nodes[n], n, used, a, sharer);
    w' := Extend(st, keys, w, DeliverDone(n, a, LATER, sharer, EARLIER), t, sent);
  }

  /** Dones of keys outside, each with the same earlier share attached, delivered to one node: fewer
      than the coin threshold leave it waiting, the threshold makes it release its share. */
  lemma {:induction false} AnyKeysAmplify(st: Setting, keys: set<Name>, w: Net, n: Name, sharer: Name, used: set<Name>) returns (w': Net)
    requires QuietNet(st, w) && Reachable(st, keys, w) && n in w.nodes && sharer in st.Correct() && Share(sharer, 1, 1) in w.soup
    requires used <= keys && keys !! st.Correct() && |used| <= st.r.coinQuorum && 1 <= st.r.coinQuorum
    requires NoCoin(w.nodes[n]) && Waiting(w.nodes[n], {})
    ensures QuietNet(st, w') && Reachable(st, keys, w') && OthersSame(w, w', n) && n in w'.nodes && NoCoin(w'.nodes[n])
    ensures if |used| == st.r.coinQuorum then Shared(w', n) else Waiting(w'.nodes[n], used)
    decreases |used|
  {
    if used == {} {
      w' := w;
    } else {
      var a := Least(used);
      var w1 := AnyKeysAmplify(st, keys, w, n, sharer, used - {a});
      w' := NextDone(st, keys, w1, n, sharer, used - {a}, a);
      assert used - {a} + {a} == used;
    }
  }

  ghost predicate Flooded(w: Net, n: Name) {
    n in w.nodes && NoCoin(w.nodes[n]) && Shared(w, n)
  }

  /** The nodes of a set have been flooded, the other correct ones are untouched. */
  ghost predicate FloodedUpTo(st: Setting, keys: set<Name>, w: Net, names: set<Name>) {
    && QuietNet(st, w) && Reachable(st, keys, w)
    && (forall n :: n in names ==> Flooded(w, n)) && Untouched(w, st.Correct() - names)
  }

  lemma {:induction false} FloodOne(st: Setting, keys: set<Name>, w: Net, names: set<Name>, n: Name, sharer: Name, used: set<Name>) returns (w': Net)
    requires FloodedUpTo(st, keys, w, names) && n in st.Correct() - names && sharer in st.Correct() && Share(sharer, 1, 1) in w.soup
    requires used <= keys && keys !! st.Correct() && |used| == st.r.coinQuorum && 1 <= st.r.coinQuorum
    ensures FloodedUpTo(st, keys, w', names + {n}) && Share(sharer, 1, 1) in w'.soup
  {
    w' := AnyKeysAmplify(st, keys, w, n, sharer, used);
    forall m | m in names ensures Flooded(w', m) {
      assert Flooded(w, m);
    }
    forall m | m in st.Correct() - names - {n} && m in w'.nodes ensures NoCoin(w'.nodes[m]) && Waiting(w'.nodes[m], {}) {
      assert w'.nodes[m] == w.nodes[m];
    }
  }

  /** Every node of a set receives the dones. */
  lemma {:induction false} FloodAll(st: Setting, keys: set<Name>, w: Net, names: set<Name>, sharer: Name, used: set<Name>) returns (w': Net)
    requires FloodedUpTo(st, keys, w, {}) && names <= st.Correct() && sharer in st.Correct() && Share(sharer, 1, 1) in w.soup
    requires used <= keys && keys !! st.Correct() && |used| == st.r.coinQuorum && 1 <= st.r.coinQuorum
    ensures FloodedUpTo(st, keys, w', names) && Share(sharer, 1, 1) in w'.soup
    decreases |names|
  {
    if names == {} {
      w' := w;
    } else {
      var n := Least(names);
      var rest := names - {n};
      assert rest + {n} == names;
      var w1 := FloodAll(st, keys, w, rest, sharer, used);
      w' := FloodOne(st, keys, w1, rest, n, sharer, used);
    }
  }

  lemma {:induction false} NextShare(st: Setting, keys: set<Name>, w: Net, n: Name, names: set<Name>, a: Name) returns (w': Net)
    requires QuietNet(st, w) && Reachable(st, keys, w) && n in w.nodes && Gathered(st.r, w.nodes[n], names) && |names| < st.r.coinQuorum
    requires a in st.Correct() - names && Shared(w, a)
    ensures QuietNet(st, w') && Reachable(st, keys, w') && n in w'.nodes && Gathered(st.r, w'.nodes[n], names + {a}) && w.soup <= w'.soup
  {
    var (t, sent) := HandleDoneAndShare(st.r, w.nodes[n], a, LATER, a, LATER);
    assert Quiet(w.nodes[n], n);
    OneMoreShare(st.r, w.nodes[n], n, names, a);
    w' := Extend(st, keys, w, DeliverDone(n, a, LATER, a, LATER), t, sent);
  }

  /** The shares of a set of nodes reach one of them. */
  lemma {:induction false} Gather(st: Setting, keys: set<Name>, w: Net, n: Name, names: set<Name>) returns (w': Net)
    requires QuietNet(st, w) && Reachable(st, keys, w) && n in w.nodes && NoCoin(w.nodes[n])
    requires names <= st.Correct() && 1 <= st.r.coinQuorum && |names| <= st.r.coinQuorum
    requires forall a :: a in names ==> Shared(w, a)
    ensures QuietNet(st, w') && Reachable(st, keys, w') && n in w'.nodes && Gathered(st.r, w'.nodes[n], names) && w.soup <= w'.soup
    decreases |names|
  {
    if names == {} {
      w' := w;
    } else {
      var a := Least(names);
      var rest := names - {a};
      assert rest + {a} == names && |rest| + 1 == |names|;
      var w1 := Gather(st, keys, w, n, rest);
      assert Shared(w, a);
      w' := NextShare(st, keys, w1, n, rest, a);
    }
  }

  lemma {:induction false} Pick(s: set<Name>, k: nat) returns (t: set<Name>)
    requires k <= |s|
    ensures t <= s && |t| == k
    decreases |s|
  {
    if k == |s| {
      t := s;
    } else {
      t := Pick(s - {Least(s)}, k);
    }
  }

  lemma {:induction false} EnoughCorrect(st: Setting)
    requires st.Valid()
    ensures 1 <= st.r.coinQuorum <= st.r.quorum <= |st.Correct()|
  {
    UnitWeight(st.c, st.r.members);
    assert st.r.members == st.Correct() + st.faulty * st.r.members;
    assert st.Correct() !! st.faulty * st.r.members;
  }

  lemma {:induction false} LaterCoin(st: Setting, keys: set<Name>, quorum: set<Name>, names: set<Name>, used: set<Name>) returns (w: Net, n: Name)
    requires quorum <= st.Correct() && |quorum| == st.r.quorum && names <= quorum && |names| == st.r.coinQuorum && 1 <= st.r.coinQuorum
    requires used <= keys && keys !! st.Correct() && |used| == st.r.coinQuorum
    ensures Reachable(st, keys, w) && n in w.nodes && LATER in w.nodes[n].coins.elected
  {
    n := Least(names);
    BootReachable(st, keys, n);
    w := EarlierShare(st, keys, Boot(st), n, quorum);
    w := FloodAll(st, keys, w, names, n, used);
    assert Flooded(w, n);
    assert forall a :: a in names ==> Flooded(w, a);
    w := Gather(st, keys, w, n, names);
  }

  // ----- from trails to runs -----

  lemma {:induction false} TrailPrefix(st: Setting, keys: set<Name>, ws: seq<Net>, evs: seq<Event>, i: nat)
    requires Trail(st, keys, ws, evs) && i <= |evs|
    ensures QuietNet(st, ws[i]) && (i < |evs| ==> Step(st, keys, ws[i], evs[i], ws[i + 1])) && ws[0] == Boot(st)
    decreases |evs|
  {
    if evs != [] {
      TrailPrefix(st, keys, ws[..|evs|], evs[..|evs| - 1], if i < |evs| then i else i - 1);
    }
  }

  lemma {:induction false} TrailIsRun(st: Setting, keys: set<Name>, ws: seq<Net>, evs: seq<Event>)
    requires st.Valid() && Trail(st, keys, ws, evs)
    ensures Run(st, ws, evs)
  {
    TrailPrefix(st, keys, ws, evs, 0);
    forall i | 0 <= i < |evs| ensures Enabled(st, ws[i], evs[i]) && ws[i + 1] == Apply(st, ws[i], evs[i]) {
      TrailPrefix(st, keys, ws, evs, i);
    }
  }

  lemma {:induction false} TrailEvents(st: Setting, keys: set<Name>, ws: seq<Net>, evs: seq<Event>)
    requires Trail(st, keys, ws, evs)
    ensures DonesFrom(st, keys, evs) && forall i :: 0 <= i < |evs| ==> Relayed(ws[i], evs[i])
  {
    forall i | 0 <= i < |evs| ensures Relayed(ws[i], evs[i]) && (evs[i].DeliverDone? ==> evs[i].author in st.Correct() + keys) {
      TrailPrefix(st, keys, ws, evs, i);
    }
  }

  lemma {:induction false} NothingHeld(st: Setting, keys: set<Name>, ws: seq<Net>, evs: seq<Event>)
    requires Trail(st, keys, ws, evs)
    ensures !SomeoneHolds(st, ws, |evs|, LATER)
  {
    forall j, m | 0 <= j <= |evs| && m in ws[j].nodes ensures !HoldsFinishes(st, ws[j].nodes[m], LATER) {
      TrailPrefix(st, keys, ws, evs, j);
      assert Quiet(ws[j].nodes[m], m);
    }
  }

  /** In every setting, faulty members or not, dones of coin-threshold many keys from outside fix the
      leader of a slot for which no node ever holds a finish. Besides dones only finishes are
      delivered, all of values that correct members have proposed. */
  lemma {:induction false} StrangersFixCoin(st: Setting, keys: set<Name>) returns (ws: seq<Net>, evs: seq<Event>, n: Name)
    requires st.Valid() && keys !! st.Correct() && |keys| >= st.r.coinQuorum
    ensures Run(st, ws, evs) && DonesFrom(st, keys, evs) && n in ws[|evs|].nodes && LATER in ws[|evs|].nodes[n].coins.elected
    ensures !SomeoneHolds(st, ws, |evs|, LATER)
    ensures forall i :: 0 <= i < |evs| ==> Relayed(ws[i], evs[i])
  {
    EnoughCorrect(st);
    var quorum := Pick(st.Correct(), st.r.quorum);
    var names := Pick(quorum, st.r.coinQuorum);
    var used := Pick(keys, st.r.coinQuorum);
    var w, m := LaterCoin(st, keys, quorum, names, used);
    ws, evs :| Trail(st, keys, ws, evs) && ws[|evs|] == w;
    n := m;
    TrailIsRun(st, keys, ws, evs);
    TrailEvents(st, keys, ws, evs);
    NothingHeld(st, keys, ws, evs);
  }

  /** Every coin of the run follows a quorum of distinct finishes at some correct node. */
  ghost predicate CoinsFollowFinishes(st: Setting, ws: seq<Net>) {
    forall i, n, k :: 0 <= i < |ws| && n in ws[i].nodes && k in ws[i].nodes[n].coins.elected ==> SomeoneHolds(st, ws, i, k)
  }

  /** The exact condition: when dones may be signed by correct members and by the given other keys,
      coins follow finishes in all runs if and only if those keys are fewer than the coin threshold. */
  lemma {:induction false} CoinAfterFinishesExactly(st: Setting, keys: set<Name>)
    requires st.Valid() && keys !! st.Correct()
    ensures (forall ws, evs :: Run(st, ws, evs) && DonesFrom(st, keys, evs) ==> CoinsFollowFinishes(st, ws))
            <==> |keys| < st.r.coinQuorum
  {
    if |keys| < st.r.coinQuorum {
      forall ws: seq<Net>, evs: seq<Event> | Run(st, ws, evs) && DonesFrom(st, keys, evs) ensures CoinsFollowFinishes(st, ws) {
        forall i, n, k | 0 <= i < |ws| && n in ws[i].nodes && k in ws[i].nodes[n].coins.elected ensures SomeoneHolds(st, ws, i, k) {
          CoinAfterFinishes(st, keys, ws, evs, i, n, k);
        }
      }
    } else {
      var ws, evs, n := StrangersFixCoin(st, keys);
      assert !CoinsFollowFinishes(st, ws);
    }
  }
}
