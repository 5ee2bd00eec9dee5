/** Epoch changes: messages of a later epoch are parked by the handler that meets them, the epoch ends,
    and the parked messages of the new epoch are sent to the node's own channels again. */
module Epochs {

  /** The messages of the two channels. */
  datatype Kind =
    | HsPropose | HSVote | HsLoopBack | SyncRequest | SyncReply
    | FBPropose | FBVote | FBLoopBack
    | SPBPropose | SPBVote | SPBFinish | SPBDoneAndShare
    | SMVBAPreVote | SMVBAVote | SMVBAHalt
    | ParPrePare | ParLoopBack

  /** A message with the epoch and height its handler looks at, and whether it verifies. */
  datatype Message = Message(kind: Kind, epoch: nat, height: nat, verifies: bool, id: nat)

  type Parked = (nat, Message)

  /** The epoch field and the loop's own counter, the node's height, whether the epoch has ended, the
      parked messages, and what was sent again to the two channels. */
  datatype State = State(epoch: nat, counter: nat, height: nat, ended: bool, queue: seq<Parked>, core: seq<Message>, smvba: seq<Message>)

  const START := State(0, 0, 1, false, [], [], [])

  // ----- the handlers, as far as they park -----

  function Park(s: State, msg: Message): State {
    s.(queue := s.queue + [(msg.epoch, msg)], ended := true)
  }

  /** The epoch is looked at before anything else; a block in a sync reply is parked as a proposal. */
  function HandleOptProposal(s: State, msg: Message): State {
    if msg.epoch > s.epoch then Park(s, msg.(kind := HsPropose)) else s
  }

  predicate TooLate(s: State, msg: Message) {
    s.height >= msg.height + 2 || s.epoch > msg.epoch
  }

  /** Fallback and agreement proposals are filtered and verified before the epoch is looked at. */
  function HandleFilteredProposal(s: State, msg: Message): State {
    if TooLate(s, msg) || !msg.verifies then s
    else if msg.epoch > s.epoch then Park(s, msg) else s
  }

  function Receive(s: State, msg: Message): State {
    match msg.kind
    case HsPropose => HandleOptProposal(s, msg)
    case SyncReply => HandleOptProposal(s, msg)
    case FBPropose => HandleFilteredProposal(s, msg)
    case SPBPropose => HandleFilteredProposal(s, msg)
    case _ => s
  }

  /** A message of a later epoch that ends this one: a proposal or a synchronized block as it is, a
      fallback or agreement proposal if it is in time and verifies. */
  predicate EndsEpoch(s: State, msg: Message) {
    msg.epoch > s.epoch &&
    match msg.kind
    case HsPropose => true
    case SyncReply => true
    case FBPropose => s.height < msg.height + 2 && msg.verifies
    case SPBPropose => s.height < msg.height + 2 && msg.verifies
    case _ => false
  }

  /** Exactly such a message is parked, and a synchronized block as a proposal; any other leaves the
      queue and the epoch alone. */
  lemma {:induction false} ParksExactly(s: State, msg: Message)
    ensures var t := Receive(s, msg);
            if EndsEpoch(s, msg)
            then t == s.(queue := s.queue + [(msg.epoch, if msg.kind == SyncReply then msg.(kind := HsPropose) else msg)], ended := true)
            else t == s
  {
  }

  // ----- the epoch loop -----

  /** The drain loop: drop other epochs, route by kind, stop at any other kind. */
  function Drain(s: State): State
    decreases |s.queue|
  {
    if s.queue == [] then s else
      var (e, msg) := s.queue[0];
      var t := s.(queue := s.queue[1..]);
      if e != s.epoch then Drain(t)
      else match msg.kind
           case HsPropose => Drain(t.(core := t.core + [msg]))
           case SPBPropose => Drain(t.(smvba := t.smvba + [msg]))
           case FBPropose => Drain(t.(smvba := t.smvba + [msg]))
           case _ => t
  }

  function NextEpoch(s: State): State {
    Drain(s.(counter := s.counter + 1, epoch := s.counter + 1, height := 1, ended := false))
  }

  datatype Event =
    | Deliver(msg: Message)
    | Advance(height: nat)      // a certificate
    | Decide                    // an output that ends the epoch
    | Switch                    // the loop starts the next epoch

  /** A handler that reports the end of the epoch is the last one of the epoch. */
  predicate Enabled(s: State, ev: Event) {
    s.ended <==> ev.Switch?
  }

  function Step(s: State, ev: Event): State {
    match ev
    case Deliver(msg) => Receive(s, msg)
    case Advance(height) => s.(height := height)
    case Decide => s.(ended := true)
    case Switch => NextEpoch(s)
  }

  // ----- what the drain sends -----

  predicate Routed(kind: Kind) {
    kind == HsPropose || kind == FBPropose || kind == SPBPropose
  }

  /** The parked messages of an epoch that go to the core channel, or to the other one. */
  function Selected(queue: seq<Parked>, epoch: nat, toCore: bool): seq<Message> {
    if queue == [] then [] else
      var (e, msg) := queue[0];
      (if e == epoch && Routed(msg.kind) && (msg.kind == HsPropose) == toCore then [msg] else []) + Selected(queue[1..], epoch, toCore)
  }

  /** The drain would break off at some message. */
  ghost predicate Stops(queue: seq<Parked>, epoch: nat) {
    exists i :: 0 <= i < |queue| && queue[i].0 == epoch && !Routed(queue[i].1.kind)
  }

  lemma {:induction false} StopsTail(queue: seq<Parked>, epoch: nat)
    requires queue != []
    ensures Stops(queue, epoch) <==> (queue[0].0 == epoch && !Routed(queue[0].1.kind)) || Stops(queue[1..], epoch)
  {
    if Stops(queue[1..], epoch) {
      var i :| 0 <= i < |queue[1..]| && queue[1..][i].0 == epoch && !Routed(queue[1..][i].1.kind);
      assert queue[i + 1] == queue[1..][i];
    }
    if Stops(queue, epoch) && !(queue[0].0 == epoch && !Routed(queue[0].1.kind)) {
      var i :| 0 <= i < |queue| && queue[i].0 == epoch && !Routed(queue[i].1.kind);
      assert queue[1..][i - 1] == queue[i];
    }
  }

  lemma {:induction false} Shifted(sent: seq<Message>, msg: Message, rest: seq<Message>)
    ensures (sent + [msg]) + rest == sent + ([msg] + rest)
  {
  }

  /** Exactly the epoch's messages have been added to the channels. */
  ghost predicate Drained(s: State, t: State) {
    && t.queue == []
    && t.core == s.core + Selected(s.queue, s.epoch, true)
    && t.smvba == s.smvba + Selected(s.queue, s.epoch, false)
  }

  lemma {:induction false} DrainKeeps(s: State)
    ensures var t := Drain(s); t.epoch == s.epoch && t.counter == s.counter && t.height == s.height && t.ended == s.ended
    decreases |s.queue|
  {
    if s.queue != [] {
      var (e, msg) := s.queue[0];
      var t := s.(queue := s.queue[1..]);
      DrainKeeps(t);
      DrainKeeps(t.(core := t.core + [msg]));
      DrainKeeps(t.(smvba := t.smvba + [msg]));
    }
  }

  /** A drain that does not break off empties the queue and re-sends exactly the new epoch's messages,
      each once and in order. */
  lemma {:induction false} DrainSends(s: State)
    requires !Stops(s.queue, s.epoch)
    ensures Drained(s, Drain(s))
    decreases |s.queue|
  {
    if s.queue != [] {
      StopsTail(s.queue, s.epoch);
      var (e, msg) := s.queue[0];
      var t := s.(queue := s.queue[1..]);
      if e != s.epoch {
        DrainSends(t);
      } else if msg.kind == HsPropose {
        DrainSends(t.(core := t.core + [msg]));
        Shifted(s.core, msg, Selected(t.queue, s.epoch, true));
      } else {
        DrainSends(t.(smvba := t.smvba + [msg]));
        Shifted(s.smvba, msg, Selected(t.queue, s.epoch, false));
      }
    }
  }

  // ----- over runs -----

  /** The counter is the epoch; only routed kinds are parked, for later epochs, and the queue is empty
      until the message comes that ends the epoch. */
  ghost predicate Ok(s: State) {
    && s.counter == s.epoch && |s.queue| <= 1 && (!s.ended ==> s.queue == [])
    && forall i :: 0 <= i < |s.queue| ==> Routed(s.queue[i].1.kind) && s.queue[i].0 > s.epoch
  }

  ghost predicate Reaches(states: seq<State>, evs: seq<Event>) {
    && |states| == |evs| + 1 && states[0] == START
    && forall i :: 0 <= i < |evs| ==> Enabled(states[i], evs[i]) && states[i + 1] == Step(states[i], evs[i])
  }

  lemma {:induction false} SwitchOk(s: State)
    requires Ok(s)
    ensures !Stops(s.queue, s.epoch + 1) && Ok(NextEpoch(s))
    ensures var t := NextEpoch(s);
            && t.epoch == s.epoch + 1 && t.queue == [] && !t.ended
            && t.core == s.core + Selected(s.queue, t.epoch, true) && t.smvba == s.smvba + Selected(s.queue, t.epoch, false)
  {
    var t := s.(counter := s.counter + 1, epoch := s.counter + 1, height := 1, ended := false);
    DrainKeeps(t);
    DrainSends(t);
  }

  lemma {:induction false} StepOk(s: State, ev: Event)
    requires Ok(s) && Enabled(s, ev)
    ensures Ok(Step(s, ev))
  {
    if ev.Switch? {
      SwitchOk(s);
    }
  }

  /** In every reachable state only the three proposals are parked, and only for later epochs, so that
      the break of the drain is never reached. */
  lemma {:induction false} BreakUnreachable(states: seq<State>, evs: seq<Event>, i: nat)
    requires Reaches(states, evs) && i < |states|
    ensures Ok(states[i]) && !Stops(states[i].queue, states[i].epoch + 1)
  {
    if i > 0 {
      BreakUnreachable(states, evs, i - 1);
      StepOk(states[i - 1], evs[i - 1]);
    }
  }

  /** The message that the handler of an event parks, in the form in which it is parked. */
  function Ending(s: State, ev: Event): seq<Parked> {
    if ev.Deliver? then Receive(s, ev.msg).queue[|s.queue|..] else []
  }

  lemma {:induction false} OneEnding(s: State, ev: Event)
    requires Ok(s) && Enabled(s, ev) && Step(s, ev).ended
    ensures var p := Ending(s, ev);
            && Step(s, ev).queue == p && |p| <= 1 && Step(s, ev).core == s.core && Step(s, ev).smvba == s.smvba && Step(s, ev).epoch == s.epoch
            && (p != [] ==> ev.Deliver? && p[0].0 == ev.msg.epoch > s.epoch && p[0].1.id == ev.msg.id)
  {
    if ev.Switch? {
      SwitchOk(s);
    }
  }

  lemma {:induction false} SelectedOne(p: seq<Parked>, epoch: nat)
    requires |p| <= 1 && forall i :: 0 <= i < |p| ==> Routed(p[i].1.kind)
    ensures Selected(p, epoch, true) == if p != [] && p[0].0 == epoch && p[0].1.kind == HsPropose then [p[0].1] else []
    ensures Selected(p, epoch, false) == if p != [] && p[0].0 == epoch && p[0].1.kind != HsPropose then [p[0].1] else []
  {
    if p != [] {
      assert p[1..] == [];
      assert Selected(p[1..], epoch, true) == [] && Selected(p[1..], epoch, false) == [];
    }
  }

  /** Every switch follows the event that ended the epoch; epoch and counter agree and rise by one, the
      queue is empty again, and the message that ended the epoch is sent again, once and to its own
      channel, if it is of the new epoch, and is dropped otherwise. */
  lemma {:induction false} EpochSwitch(states: seq<State>, evs: seq<Event>, i: nat)
    requires Reaches(states, evs) && i < |evs| && evs[i].Switch?
    ensures i > 0
    ensures var s, t, p := states[i - 1], states[i + 1], Ending(states[i - 1], evs[i - 1]);
            && t.epoch == t.counter == s.epoch + 1 && t.queue == [] && |p| <= 1
            && t.core == s.core + (if p != [] && p[0].0 == t.epoch && p[0].1.kind == HsPropose then [p[0].1] else [])
            && t.smvba == s.smvba + (if p != [] && p[0].0 == t.epoch && p[0].1.kind != HsPropose then [p[0].1] else [])
  {
    assert Enabled(states[i], evs[i]);
    BreakUnreachable(states, evs, i - 1);
    assert Enabled(states[i - 1], evs[i - 1]) && states[i] == Step(states[i - 1], evs[i - 1]);
    var p := Ending(states[i - 1], evs[i - 1]);
    OneEnding(states[i - 1], evs[i - 1]);
    BreakUnreachable(states, evs, i);
    SwitchOk(states[i]);
    assert states[i + 1] == NextEpoch(states[i]);
    SelectedOne(p, states[i + 1].epoch);
  }

  class EpochLoop {
    var epoch: nat
    var counter: nat
    var height: nat
    var ended: bool
    var queue: seq<Parked>
    var core: seq<Message>
    var smvba: seq<Message>

    ghost predicate Valid()
      reads this
    {
      Ok(View())
    }

    function View(): State
      reads this
    {
      State(epoch, counter, height, ended, queue, core, smvba)
    }

    constructor ()
      ensures Valid() && View() == START
    {
      epoch, counter, height, ended, queue, core, smvba := 0, 0, 1, false, [], [], [];
    }

    method OnMessage(msg: Message)
      requires Valid() && !ended
      modifies `queue, `ended
      ensures Valid() && View() == Receive(old(View()), msg)
      ensures ended <==> EndsEpoch(old(View()), msg)
      ensures queue == if ended then [(msg.epoch, if msg.kind == SyncReply then msg.(kind := HsPropose) else msg)] else []
    {
      ParksExactly(View(), msg);
      if msg.kind == HsPropose || msg.kind == SyncReply {
        if msg.epoch > epoch {
          queue := queue + [(msg.epoch, msg.(kind := HsPropose))];
          ended := true;
        }
      } else if msg.kind == FBPropose || msg.kind == SPBPropose {
        if height >= msg.height + 2 || epoch > msg.epoch || !msg.verifies {
          return;
        }
        if msg.epoch > epoch {
          queue := queue + [(msg.epoch, msg)];
          ended := true;
        }
      }
    }

    /** The drain loop. */
    method DrainQueue()
      modifies `queue, `core, `smvba
      ensures View() == Drain(old(View()))
    {
      ghost var begin := View();
      while queue != []
        invariant Drain(View()) == Drain(begin)
        decreases |queue|
      {
        var (e, msg) := queue[0];
        queue := queue[1..];
        if e == epoch {
          if msg.kind == HsPropose {
            core := core + [msg];
          } else if msg.kind == SPBPropose || msg.kind == FBPropose {
            smvba := smvba + [msg];
          } else {
            return;
          }
        }
      }
    }

    method Advance()
      requires Valid() && ended
      modifies this
      ensures Valid() && View() == NextEpoch(old(View())) && epoch == old(epoch) + 1 && queue == []
    {
      ghost var before := View();
      counter := counter + 1;
      epoch := counter;
      height, ended := 1, false;
      DrainQueue();
      SwitchOk(before);
    }
  }
}
