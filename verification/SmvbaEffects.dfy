/** What the agreement handlers must do: the messages that follow from a node's state and a message,
    said without the handlers' own steps. */
module SmvbaEffects {
  import opened Committees
  import opened Messages
  import opened SmvbaNode

  predicate InTime(s: State, h: nat) {
    s.height < h + 2
  }

  /** An SPB vote of the node for the value, in the value's slot and phase. */
  predicate VoteFor(vote: SPBVote, value: SPBValue, n: Name) {
    vote.author == n && vote.proposer == value.block.author && (vote.height, vote.round) == (value.block.height, value.round) && vote.phase == value.phase
  }

  /** Starting a broadcast records the value under its slot and proposes it. */
  lemma {:induction false} StartEffect(s: State, value: SPBValue)
    ensures var (t, sent) := Broadcast(s, value);
            var k := (value.block.height, value.round);
            && k in t.spb.proposes && t.spb.proposes[k] == value && sent == [Propose(value, value.block.height)]
            && (forall j: Slot :: j != k ==> (j in t.spb.proposes <==> j in s.spb.proposes) && (j in s.spb.proposes ==> t.spb.proposes[j] == s.spb.proposes[j]))
            && t.spb.makers == s.spb.makers && t.held == s.held
  {
  }

  predicate Locked(s: State, value: SPBValue) {
    var k := (value.block.height, value.round);
    k in s.held.locks && value.block.author in s.held.locks[k] && s.held.locks[k][value.block.author] == value
  }

  /** A proposal of a member in time gets a vote up to the LOCK phase, and is locked in that phase. */
  predicate ProposeTakes(r: Rules, s: State, value: SPBValue, h: nat, t: State, sent: seq<Msg>) {
    var taken := InTime(s, h) && value.block.author in r.members;
    && (!taken ==> t == s && sent == [])
    && (taken && value.phase == LOCK_PHASE ==> Locked(t, value)) && (taken && value.phase != LOCK_PHASE ==> t == s)
    && (taken && value.phase <= LOCK_PHASE ==> |sent| == 1 && sent[0].Vote? && VoteFor(sent[0].vote, value, s.name))
    && (taken && value.phase > LOCK_PHASE ==> sent == [])
  }

  lemma {:induction false} ProposeEffect(r: Rules, s: State, value: SPBValue, h: nat)
    ensures var (t, sent) := HandlePropose(r, s, value, h); ProposeTakes(r, s, value, h, t, sent)
  {
  }

  /** A new author that brings a collector to the quorum. */
  predicate Fills(quorum: nat, m: Collector, author: Name) {
    author !in m.used && m.weight + 1 >= quorum
  }

  function VoteKey(vote: SPBVote): (nat, nat, nat) {
    (vote.height, vote.round, vote.phase)
  }

  /** The message of the next phase: after INIT-phase votes the recorded value in the LOCK phase, after
      LOCK-phase votes its finish. */
  predicate NextPhase(sent: seq<Msg>, vote: SPBVote, value: SPBValue) {
    && (vote.phase == INIT_PHASE ==> sent == [Propose(value.(phase := LOCK_PHASE), vote.height)])
    && (vote.phase == LOCK_PHASE ==> sent == [Finish(value.(phase := FIN_PHASE), vote.height, vote.round, FIN_PHASE)])
    && (vote.phase > LOCK_PHASE ==> sent == [])
  }

  /** A vote of a member in time is added to the collector of its slot and phase; the message of the next
      phase leaves exactly with the quorum, and without a recorded value that is a crash. */
  predicate VoteTakes(r: Rules, s: State, vote: SPBVote, t: State, sent: seq<Msg>) {
    var taken := InTime(s, vote.height) && vote.author in r.members;
    var m := Get(s.spb.makers, VoteKey(vote), FRESH);
    var full := taken && Fills(r.quorum, m, vote.author);
    && (!taken ==> t == s && sent == [])
    && (taken ==> VoteKey(vote) in t.spb.makers && t.spb.makers[VoteKey(vote)].used == m.used + {vote.author})
    && (full && (vote.height, vote.round) in s.spb.proposes ==>
          NextPhase(sent, vote, s.spb.proposes[(vote.height, vote.round)]) && t.crashed == s.crashed)
    && (full && (vote.height, vote.round) !in s.spb.proposes ==> t.crashed && sent == [])
    && (!full ==> sent == [] && t.crashed == s.crashed)
  }

  lemma {:induction false} VoteEffect(r: Rules, s: State, vote: SPBVote)
    ensures var (t, sent) := HandleVote(r, s, vote); VoteTakes(r, s, vote, t, sent)
  {
    var m := Get(s.spb.makers, VoteKey(vote), FRESH);
    if vote.author in m.used {
      assert m.used + {vote.author} == m.used;
    }
  }

  /** A finish of a member in time is filed with its proof's phase; done and share leave exactly when it
      brings the proposers filed to the quorum and the flag is down. */
  lemma {:induction false} FinishEffect(r: Rules, s: State, value: SPBValue, h: nat, rd: nat, phase: nat)
    ensures var (t, sent) := HandleFinish(r, s, value, h, rd, phase);
            var k := (h, rd);
            var taken := InTime(s, h) && value.block.author in r.members;
            && (!taken ==> t == s && sent == [])
            && (taken ==> && k in t.held.finishes && t.held.finishes[k] == Get(s.held.finishes, k, map[])[value.block.author := (value, phase)]
                          && t.held.locks == s.held.locks && t.coins == s.coins && t.tally == s.tally
                          && var full := |t.held.finishes[k]| == r.quorum && !Get(s.flags.d, k, false);
                             sent == (if full then [Done(s.name, h, rd), Share(s.name, h, rd)] else [])
                             && Get(t.flags.d, k, false) == (full || Get(s.flags.d, k, false)))
  {
  }

  /** A done in time with a share of a member is counted whoever signed it; done and share leave exactly
      when the count reaches the coin threshold and the flag is down. */
  lemma {:induction false} DoneEffect(r: Rules, s: State, author: Name, k: Slot, sharer: Name, l: Slot)
    ensures var (t, sent) := HandleDoneAndShare(r, s, author, k, sharer, l);
            var taken := InTime(s, k.0) && sharer in r.members;
            var dones := Get(s.tally.dones, k, {}) + {author};
            && (!taken ==> t == s && sent == [])
            && (taken ==> Get(t.tally.dones, k, {}) == dones && t.held == s.held)
            && (Share(s.name, k.0, k.1) in sent <==> taken && |dones| == r.coinQuorum && !Get(s.flags.d, k, false))
            && (Done(s.name, k.0, k.1) in sent <==> Share(s.name, k.0, k.1) in sent)
            && (taken && InTime(s, l.0) && l !in s.coins.elected ==> l in t.coins.makers && sharer in t.coins.makers[l].used)
  {
    DoneCounts(r, s, author, k);
    ShareKeeps(r, HandleDone(r, s, author, k.0, k.1).0, sharer, l);
  }

  lemma {:induction false} DoneCounts(r: Rules, s: State, author: Name, k: Slot)
    ensures var (t, sent) := HandleDone(r, s, author, k.0, k.1);
            var dones := Get(s.tally.dones, k, {}) + {author};
            InTime(s, k.0) ==> && t.tally == s.tally.(dones := s.tally.dones[k := dones])
                               && t.held == s.held && t.coins == s.coins && t.height == s.height && t.name == s.name
                               && sent == if |dones| == r.coinQuorum && !Get(s.flags.d, k, false) then [Done(s.name, k.0, k.1), Share(s.name, k.0, k.1)] else []
  {
  }

  lemma {:induction false} ShareKeeps(r: Rules, s: State, sharer: Name, l: Slot)
    ensures var (t, sent) := HandleShare(r, s, sharer, l.0, l.1);
            && t.held == s.held && t.tally == s.tally && (forall m :: m in sent ==> m.Halt? || m.PreVote?)
            && (InTime(s, l.0) && sharer in r.members && l !in s.coins.elected ==> l in t.coins.makers && sharer in t.coins.makers[l].used)
  {
  }

  /** A halt takes effect exactly if it is in time, of members, with a FIN-phase proof and a value of the
      slot's known leader, and the first of its height; it then outputs the value's block. */
  lemma {:induction false} HaltEffect(r: Rules, s: State, author: Name, value: SPBValue, h: nat, rd: nat, phase: nat)
    ensures var t := HandleHalt(r, s, author, value, h, rd, phase);
            var k := (h, rd);
            if InTime(s, h) && author in r.members && value.block.author in r.members && phase == FIN_PHASE
               && k in s.coins.elected && s.coins.elected[k] == value.block.author && h !in s.halts.heights
            then t == s.(halts := Halts(s.halts.heights + {h}, s.halts.outputs + [Output(h, rd, value.block)]))
            else t == s
  {
  }

  /** The answer to a known coin: a halt with the leader's finish exactly if one is filed, else a prevote
      that carries the leader's lock exactly if one is filed. */
  predicate CoinAnswer(s: State, leader: Name, k: Slot, sent: seq<Msg>) {
    var finishes, locks := Get(s.held.finishes, k, map[]), Get(s.held.locks, k, map[]);
    |sent| == 1 &&
    if leader in finishes then sent[0] == Halt(s.name, leader, finishes[leader].0, k.0, k.1, finishes[leader].1)
    else if leader in locks then sent[0] == PreVote(s.name, leader, k.0, k.1, Some(locks[leader]))
    else sent[0] == PreVote(s.name, leader, k.0, k.1, None)
  }

  lemma {:induction false} ShareEffect(r: Rules, s: State, author: Name, h: nat, rd: nat)
    ensures var (t, sent) := HandleShare(r, s, author, h, rd);
            var k := (h, rd);
            && t.held == s.held
            && (if k !in s.coins.elected && k in t.coins.elected then CoinAnswer(s, r.coin(k), k, sent) else sent == [])
  {
  }

  /** With both flags down, a prevote with a lock up to the LOCK phase is answered by exactly one Yes vote
      on that value; one without is counted, and exactly the quorum of such authors by one No vote. */
  predicate PrevoteTakes(r: Rules, s: State, author: Name, leader: Name, h: nat, rd: nat, lock: Option<SPBValue>, t: State, sent: seq<Msg>) {
    var k := (h, rd);
    var taken := InTime(s, h) && author in r.members && (lock.Some? ==> lock.value.block.author in r.members)
                 && !Get(s.flags.y, k, false) && !Get(s.flags.n, k, false);
    var noes := Get(s.tally.noPrevotes, k, {}) + {author};
    && (!taken ==> t == s && sent == [])
    && (taken && lock.Some? && lock.value.phase <= LOCK_PHASE ==>
          && |sent| == 1 && sent[0].MVote? && sent[0].author == s.name && sent[0].leader == leader && (sent[0].height, sent[0].round) == k
          && sent[0].yes.Some? && sent[0].yes.value.0 == lock.value && VoteFor(sent[0].yes.value.1, lock.value, s.name))
    && (taken && lock.Some? && lock.value.phase > LOCK_PHASE ==> sent == [])
    && (taken && lock.Some? ==> Get(t.flags.y, k, false) && t.tally == s.tally)
    && (taken && lock.None? ==>
          && Get(t.tally.noPrevotes, k, {}) == noes
          && sent == (if |noes| == r.quorum then [MVote(s.name, leader, h, rd, None)] else [])
          && Get(t.flags.n, k, false) == (|noes| == r.quorum) && !Get(t.flags.y, k, false))
  }

  lemma {:induction false} PrevoteEffect(r: Rules, s: State, author: Name, leader: Name, h: nat, rd: nat, lock: Option<SPBValue>)
    ensures var (t, sent) := HandlePrevote(r, s, author, leader, h, rd, lock); PrevoteTakes(r, s, author, leader, h, rd, lock, t, sent)
  {
  }

  /** A slot as it is when its round opens. */
  predicate Opened(s: State, k: Slot) {
    && !Get(s.flags.d, k, true) && !Get(s.flags.y, k, true) && !Get(s.flags.n, k, true)
    && k in s.tally.dones && k in s.tally.noPrevotes && k in s.tally.votes
    && s.tally.dones[k] == {} && s.tally.noPrevotes[k] == {} && s.tally.votes[k] == {}
  }

  /** A No vote of a member in time counts its author, and exactly the quorum of authors opens the next
      round. */
  predicate NoTakes(r: Rules, s: State, author: Name, h: nat, rd: nat, t: State, sent: seq<Msg>) {
    var taken := InTime(s, h) && author in r.members;
    var voters := Get(s.tally.votes, (h, rd), {}) + {author};
    && sent == [] && (!taken ==> t == s)
    && (taken ==> Get(t.tally.votes, (h, rd), {}) == voters)
    && (if taken && |voters| == r.quorum then Opened(t, (h, rd + 1)) else t.flags == s.flags)
  }

  lemma {:induction false} NoEffect(r: Rules, s: State, author: Name, leader: Name, h: nat, rd: nat)
    ensures var (t, sent) := HandleMVote(r, s, author, leader, h, rd, None); NoTakes(r, s, author, h, rd, t, sent)
  {
  }

  /** A Yes vote that completes its collector sends a halt with its value and a proof one phase on; one of
      a new author that does not is counted like a No vote. */
  predicate YesTakes(r: Rules, s: State, author: Name, leader: Name, h: nat, rd: nat, value: SPBValue, vote: SPBVote, t: State, sent: seq<Msg>) {
    var taken := InTime(s, h) && author in r.members && value.block.author in r.members && vote.author in r.members;
    var voters := Get(s.tally.votes, (h, rd), {}) + {author};
    var m := Get(s.preMakers, (vote.height, vote.round), FRESH);
    var full := taken && Fills(r.quorum, m, vote.author);
    && (!taken ==> t == s)
    && sent == (if full then [Halt(s.name, leader, value, vote.height, vote.round, vote.phase + 1)] else [])
    && (taken ==> Get(t.tally.votes, (h, rd), {}) == voters)
    && (taken ==> (vote.height, vote.round) in t.preMakers && t.preMakers[(vote.height, vote.round)].used == m.used + {vote.author})
    && (if taken && !full && vote.author !in m.used && |voters| == r.quorum then Opened(t, (h, rd + 1)) else t.flags == s.flags)
  }

  /** The node with the vote's author and the vote counted. */
  function WithYes(r: Rules, s: State, author: Name, k: Slot, vote: SPBVote): State {
    var j := (vote.height, vote.round);
    s.(tally := s.tally.(votes := AddName(s.tally.votes, k, author)),
       preMakers := s.preMakers[j := Collect(r.quorum, Get(s.preMakers, j, FRESH), vote.author).0])
  }

  lemma {:induction false} YesMoves(r: Rules, s: State, author: Name, leader: Name, h: nat, rd: nat, value: SPBValue, vote: SPBVote)
    requires InTime(s, h) && author in r.members && value.block.author in r.members && vote.author in r.members
    ensures var m := Get(s.preMakers, (vote.height, vote.round), FRESH);
            var u := WithYes(r, s, author, (h, rd), vote);
            HandleMVote(r, s, author, leader, h, rd, Some((value, vote))) ==
              if Fills(r.quorum, m, vote.author) then (u, [Halt(s.name, leader, value, vote.height, vote.round, vote.phase + 1)])
              else if vote.author !in m.used && |u.tally.votes[(h, rd)]| == r.quorum then (UpdateState(u, h, rd + 1), [])
              else (u, [])
  {
  }

  lemma {:induction false} YesEffect(r: Rules, s: State, author: Name, leader: Name, h: nat, rd: nat, value: SPBValue, vote: SPBVote)
    ensures var (t, sent) := HandleMVote(r, s, author, leader, h, rd, Some((value, vote))); YesTakes(r, s, author, leader, h, rd, value, vote, t, sent)
  {
    var m := Get(s.preMakers, (vote.height, vote.round), FRESH);
    if vote.author in m.used {
      assert m.used + {vote.author} == m.used;
    }
    if InTime(s, h) && author in r.members && value.block.author in r.members && vote.author in r.members {
      YesMoves(r, s, author, leader, h, rd, value, vote);
    }
  }

  /** Cleaning up to a height drops exactly the entries of those heights. */
  lemma {:induction false} CleanEffect(s: State, h: nat, k: Slot)
    ensures var t := CleanState(s, h);
            && (k in t.held.locks <==> k in s.held.locks && k.0 > h) && (k in t.held.finishes <==> k in s.held.finishes && k.0 > h)
            && (k in t.spb.proposes <==> k in s.spb.proposes && k.0 > h) && (k in t.preMakers <==> k in s.preMakers && k.0 > h)
            && (k in t.coins.makers <==> k in s.coins.makers && k.0 > h) && (k in t.tally.dones <==> k in s.tally.dones && k.0 > h)
            && (k in t.flags.d <==> k in s.flags.d && k.0 > h)
            && (k in t.held.locks ==> t.held.locks[k] == s.held.locks[k]) && (k in t.held.finishes ==> t.held.finishes[k] == s.held.finishes[k])
            && t.coins.elected == s.coins.elected && t.halts == s.halts && t.height == s.height && t.name == s.name
  {
  }
}
