/** The agreement handlers of the consensus core, updating the node's fields in place. Each keeps what
    a node can promise by itself about coins and halts, and is tied to the function of SmvbaNode that
    the proofs about whole runs are about. */
module SmvbaCoreNode {
  import opened Committees
  import opened Messages
  import opened SmvbaNode
  import opened SmvbaEffects

  class SmvbaCore {
    const rules: Rules
    const name: Name
    var height: nat
    var spb: Broadcasts
    var held: Held
    var flags: Flags
    var tally: Tally
    var preMakers: map<Slot, Collector>
    var coins: Coins
    var halts: Halts
    var crashed: bool

    /** Collectors count distinct members below the threshold until the coin is known, coins are the
        slot's coin, and there is one output per height, of the leader of its slot. */
    ghost predicate Valid()
      reads this
    {
      rules.coinQuorum >= 1 && CoinsLocal(rules, coins) && HaltsOk(coins.elected, halts)
    }

    function View(): State
      reads this
    {
      State(name, height, spb, held, flags, tally, preMakers, coins, halts, crashed)
    }

    constructor (rules: Rules, name: Name)
      requires rules.coinQuorum >= 1
      ensures Valid() && View() == InitState(name) && this.rules == rules
    {
      this.rules, this.name, height := rules, name, 1;
      spb, held := Broadcasts(map[], map[]), Held(map[], map[]);
      flags := Flags(map[(1, 1) := false], map[(1, 1) := false], map[(1, 1) := false]);
      tally := Tally(map[(1, 1) := {}], map[(1, 1) := {}], map[(1, 1) := {}]);
      preMakers, coins, halts, crashed := map[], NO_COINS, Halts({}, []), false;
    }

    method Update(h: nat, round: nat)
      requires Valid()
      modifies `flags, `tally
      ensures Valid() && View() == UpdateState(old(View()), h, round) && Opened(View(), (h, round))
    {
      var k := (h, round);
      flags := Flags(flags.d[k := false], flags.y[k := false], flags.n[k := false]);
      tally := Tally(tally.dones[k := {}], tally.noPrevotes[k := {}], tally.votes[k := {}]);
    }

    /** Terminating the agreements up to a height keeps the coins and the halt flags. */
    method Clean(h: nat)
      requires Valid()
      modifies this
      ensures Valid() && View() == CleanState(old(View()), h)
      ensures held.locks == Above(old(held.locks), h) && held.finishes == Above(old(held.finishes), h) && coins.makers == Above(old(coins.makers), h)
      ensures coins.elected == old(coins.elected) && halts == old(halts)
    {
      spb := Broadcasts(Above(spb.proposes, h), map k | k in spb.makers && k.0 > h :: spb.makers[k]);
      held := Held(Above(held.locks, h), Above(held.finishes, h));
      flags := Flags(Above(flags.d, h), Above(flags.y, h), Above(flags.n, h));
      tally := Tally(Above(tally.dones, h), Above(tally.noPrevotes, h), Above(tally.votes, h));
      preMakers := Above(preMakers, h);
      coins := coins.(makers := Above(coins.makers, h));
    }

    /** A broadcast starts with the first phase; later phases leave the recorded proposal alone. */
    method Start(value: SPBValue) returns (sent: seq<Msg>)
      requires Valid()
      modifies `spb
      ensures Valid() && (View(), sent) == Broadcast(old(View()), value)
      ensures var k := (value.block.height, value.round); k in spb.proposes && spb.proposes[k] == value && Propose(value, k.0) in sent
    {
      spb := spb.(proposes := spb.proposes[(value.block.height, value.round) := value]);
      return [Propose(value, value.block.height)];
    }

    method OnPropose(value: SPBValue, h: nat) returns (sent: seq<Msg>)
      requires Valid()
      modifies `held
      ensures Valid() && (View(), sent) == HandlePropose(rules, old(View()), value, h)
      ensures ProposeTakes(rules, old(View()), value, h, View(), sent)
    {
      ProposeEffect(rules, View(), value, h);
      if height >= h + 2 || value.block.author !in rules.members {
        return [];
      }
      if value.phase == LOCK_PHASE {
        var k := (value.block.height, value.round);
        held := held.(locks := held.locks[k := Get(held.locks, k, map[])[value.block.author := value]]);
      }
      if value.phase > LOCK_PHASE {
        return [];
      }
      return [Vote(NewSpbVote(value, name))];
    }

    method OnVote(vote: SPBVote) returns (sent: seq<Msg>)
      requires Valid()
      modifies `spb, `crashed
      ensures Valid() && (View(), sent) == HandleVote(rules, old(View()), vote)
      ensures VoteTakes(rules, old(View()), vote, View(), sent)
    {
      VoteEffect(rules, View(), vote);
      if height >= vote.height + 2 || vote.author !in rules.members {
        return [];
      }
      var k := (vote.height, vote.round, vote.phase);
      var (maker, out) := Collect(rules.quorum, Get(spb.makers, k, FRESH), vote.author);
      spb := spb.(makers := spb.makers[k := maker]);
      if out != Some(true) {
        return [];
      }
      if (vote.height, vote.round) !in spb.proposes {
        crashed := true;
        return [];
      }
      var value := spb.proposes[(vote.height, vote.round)];
      if vote.phase + 1 == LOCK_PHASE {
        return [Propose(value.(phase := LOCK_PHASE), vote.height)];
      } else if vote.phase + 1 == FIN_PHASE {
        return [Finish(value.(phase := FIN_PHASE), vote.height, vote.round, FIN_PHASE)];
      }
      return [];
    }

    method OnFinish(value: SPBValue, h: nat, round: nat, phase: nat) returns (sent: seq<Msg>)
      requires Valid()
      modifies this
      ensures Valid() && (View(), sent) == HandleFinish(rules, old(View()), value, h, round, phase)
      ensures var taken := InTime(old(View()), h) && value.block.author in rules.members;
              && (taken ==> (h, round) in held.finishes && value.block.author in held.finishes[(h, round)] && held.finishes[(h, round)][value.block.author] == (value, phase))
              && (sent != [] <==> taken && |held.finishes[(h, round)]| == rules.quorum && !Get(old(flags.d), (h, round), false))
      ensures sent != [] ==> sent == [Done(name, h, round), Share(name, h, round)] && flags.d[(h, round)]
    {
      if height >= h + 2 || value.block.author !in rules.members {
        return [];
      }
      var k := (h, round);
      held := held.(finishes := held.finishes[k := Get(held.finishes, k, map[])[value.block.author := (value, phase)]]);
      if Get(flags.d, k, false) || |held.finishes[k]| != rules.quorum {
        return [];
      }
      flags := flags.(d := flags.d[k := true]);
      return [Done(name, h, round), Share(name, h, round)];
    }

    method TakeDone(author: Name, h: nat, round: nat) returns (sent: seq<Msg>)
      requires Valid()
      modifies this
      ensures Valid() && (View(), sent) == HandleDone(rules, old(View()), author, h, round)
      ensures coins == old(coins) && halts == old(halts) && height == old(height)
      ensures var taken := InTime(old(View()), h);
              && (taken ==> Get(tally.dones, (h, round), {}) == Get(old(tally.dones), (h, round), {}) + {author})
              && (sent != [] <==> taken && |tally.dones[(h, round)]| == rules.coinQuorum && !Get(old(flags.d), (h, round), false))
      ensures sent != [] ==> sent == [Done(name, h, round), Share(name, h, round)] && flags.d[(h, round)]
    {
      if height >= h + 2 {
        return [];
      }
      var k := (h, round);
      tally := tally.(dones := AddName(tally.dones, k, author));
      if Get(flags.d, k, false) || |tally.dones[k]| != rules.coinQuorum {
        return [];
      }
      flags := flags.(d := flags.d[k := true]);
      return [Done(name, h, round), Share(name, h, round)];
    }

    method OnShare(author: Name, h: nat, round: nat) returns (sent: seq<Msg>)
      requires Valid()
      modifies this
      ensures Valid() && (View(), sent) == HandleShare(rules, old(View()), author, h, round)
      ensures if (h, round) in coins.elected && (h, round) !in old(coins.elected)
              then CoinAnswer(old(View()), rules.coin((h, round)), (h, round), sent) else sent == []
      ensures sent != [] ==> |coins.makers[(h, round)].used| == rules.coinQuorum && coins.makers[(h, round)].used <= rules.members
    {
      var k := (h, round);
      if height >= h + 2 || author !in rules.members || k in coins.elected {
        return [];
      }
      ShareLocal(rules, coins, halts, k, author);
      ElectedAtThreshold(rules, coins, k, author);
      var (maker, elected) := CollectShare(rules.coinQuorum, Get(coins.makers, k, FRESH), author);
      coins := coins.(makers := coins.makers[k := maker]);
      if !elected {
        return [];
      }
      var leader := rules.coin(k);
      coins := coins.(elected := coins.elected[k := leader]);
      var finishes := Get(held.finishes, k, map[]);
      if leader in finishes {
        return [Halt(name, leader, finishes[leader].0, h, round, finishes[leader].1)];
      }
      var locks := Get(held.locks, k, map[]);
      return [PreVote(name, leader, h, round, if leader in locks then Some(locks[leader]) else None)];
    }

    /** The whole message: the done counts whoever signed it, but only with a share of a member. */
    method OnDoneAndShare(author: Name, k: Slot, sharer: Name, l: Slot) returns (sent: seq<Msg>)
      requires Valid()
      modifies this
      ensures Valid() && (View(), sent) == HandleDoneAndShare(rules, old(View()), author, k, sharer, l)
      ensures sharer !in rules.members ==> View() == old(View()) && sent == []
    {
      if height >= k.0 + 2 || sharer !in rules.members {
        return [];
      }
      var first := TakeDone(author, k.0, k.1);
      var second := OnShare(sharer, l.0, l.1);
      sent := first + second;
    }

    method OnPrevote(author: Name, leader: Name, h: nat, round: nat, lock: Option<SPBValue>) returns (sent: seq<Msg>)
      requires Valid()
      modifies this
      ensures Valid() && (View(), sent) == HandlePrevote(rules, old(View()), author, leader, h, round, lock)
      ensures PrevoteTakes(rules, old(View()), author, leader, h, round, lock, View(), sent)
    {
      PrevoteEffect(rules, View(), author, leader, h, round, lock);
      var k := (h, round);
      if height >= h + 2 || author !in rules.members || (lock.Some? && lock.value.block.author !in rules.members) {
        return [];
      }
      if Get(flags.y, k, false) || Get(flags.n, k, false) {
        return [];
      }
      if lock.Some? {
        flags := flags.(y := flags.y[k := true]);
        if lock.value.phase > LOCK_PHASE {
          return [];
        }
        return [MVote(name, leader, h, round, Some((lock.value, NewSpbVote(lock.value, name))))];
      }
      tally := tally.(noPrevotes := AddName(tally.noPrevotes, k, author));
      if |tally.noPrevotes[k]| != rules.quorum {
        return [];
      }
      flags := flags.(n := flags.n[k := true]);
      return [MVote(name, leader, h, round, None)];
    }

    /** Count the author of a Yes vote and collect the SPB vote in it. */
    method TakeYes(author: Name, k: Slot, vote: SPBVote) returns (out: Option<bool>)
      requires Valid()
      modifies `tally, `preMakers
      ensures Valid() && View() == WithYes(rules, old(View()), author, k, vote)
      ensures out == Some(true) <==> Fills(rules.quorum, Get(old(preMakers), (vote.height, vote.round), FRESH), vote.author)
      ensures out == None <==> vote.author in Get(old(preMakers), (vote.height, vote.round), FRESH).used
    {
      tally := tally.(votes := AddName(tally.votes, k, author));
      var j := (vote.height, vote.round);
      var (maker, result) := Collect(rules.quorum, Get(preMakers, j, FRESH), vote.author);
      preMakers := preMakers[j := maker];
      return result;
    }

    method OnMVote(author: Name, leader: Name, h: nat, round: nat, yes: Option<(SPBValue, SPBVote)>) returns (sent: seq<Msg>)
      requires Valid()
      modifies this
      ensures Valid() && (View(), sent) == HandleMVote(rules, old(View()), author, leader, h, round, yes)
      ensures yes.None? ==> sent == []
    {
      sent := [];
      var k := (h, round);
      if height >= h + 2 || author !in rules.members
         || (yes.Some? && (yes.value.0.block.author !in rules.members || yes.value.1.author !in rules.members)) {
        return;
      }
      if yes.Some? {
        var (value, vote) := yes.value;
        YesMoves(rules, View(), author, leader, h, round, value, vote);
        var out := TakeYes(author, k, vote);
        if out == Some(true) {
          return [Halt(name, leader, value, vote.height, vote.round, vote.phase + 1)];
        } else if out == None {
          return;
        }
      } else {
        tally := tally.(votes := AddName(tally.votes, k, author));
      }
      if |tally.votes[k]| == rules.quorum {
        Update(h, round + 1);
      }
    }

    method OnHalt(author: Name, value: SPBValue, h: nat, round: nat, phase: nat) returns (output: Option<Block>)
      requires Valid()
      modifies this
      ensures Valid() && View() == HandleHalt(rules, old(View()), author, value, h, round, phase)
      ensures output.Some? <==> h !in old(halts.heights) && h in halts.heights
      ensures output.Some? ==> output.value == value.block && (h, round) in coins.elected && value.block.author == rules.coin((h, round))
    {
      if height >= h + 2 || author !in rules.members || value.block.author !in rules.members || phase != FIN_PHASE {
        return None;
      }
      var k := (h, round);
      if !(k in coins.elected && coins.elected[k] == value.block.author) || h in halts.heights {
        return None;
      }
      halts := Halts(halts.heights + {h}, halts.outputs + [Output(h, round, value.block)]);
      return Some(value.block);
    }
  }
}
