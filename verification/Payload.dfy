/** The payload maker of the mempool: client transactions are buffered and handed out in payloads,
    either because the next transaction does not fit or because the core asks for one. */
module Payloads {
  import opened Messages

  type Transaction = seq<nat>
  type Payload = seq<Transaction>

  function Size(p: Payload): nat {
    if p == [] then 0 else Size(p[..|p| - 1]) + |p[|p| - 1]|
  }

  datatype Event = Client(tx: Transaction) | Request

  /** A payload sent because the buffer was full, or the reply to a request. */
  datatype Emission = Full(payload: Payload) | Reply(payload: Payload)

  datatype State = State(transactions: Payload, size: nat, emitted: seq<Emission>)

  function Step(s: State, max: nat, ev: Event): State {
    match ev
    case Client(tx) =>
      if s.size + |tx| > max then State([tx], |tx|, s.emitted + [Full(s.transactions)])
      else State(s.transactions + [tx], s.size + |tx|, s.emitted)
    case Request => State([], 0, s.emitted + [Reply(s.transactions)])
  }

  function Run(max: nat, evs: seq<Event>): State {
    if evs == [] then State([], 0, []) else Step(Run(max, evs[..|evs| - 1]), max, evs[|evs| - 1])
  }

  function Received(evs: seq<Event>): seq<Transaction> {
    if evs == [] then [] else
      var ev := evs[|evs| - 1];
      Received(evs[..|evs| - 1]) + (if ev.Client? then [ev.tx] else [])
  }

  /** What the requester is given: a reply of size zero is withheld. */
  function Handed(e: Emission): Payload {
    if e.Reply? && Size(e.payload) == 0 then [] else e.payload
  }

  function Contents(es: seq<Emission>): seq<Transaction> {
    if es == [] then [] else Contents(es[..|es| - 1]) + es[|es| - 1].payload
  }

  function Delivered(es: seq<Emission>): seq<Transaction> {
    if es == [] then [] else Delivered(es[..|es| - 1]) + Handed(es[|es| - 1])
  }

  lemma {:induction false} ContentsSnoc(es: seq<Emission>, e: Emission)
    ensures Contents(es + [e]) == Contents(es) + e.payload
    ensures Delivered(es + [e]) == Delivered(es) + Handed(e)
  {
    assert (es + [e])[..|es|] == es;
  }

  lemma {:induction false} SizeSnoc(p: Payload, tx: Transaction)
    ensures Size(p + [tx]) == Size(p) + |tx|
  {
    assert (p + [tx])[..|p|] == p;
  }

  /** For every interleaving, the emitted payloads followed by the buffer are the received
      transactions, in order, and the size register is the buffer's byte count. */
  lemma {:induction false} PayloadsConserve(max: nat, evs: seq<Event>)
    ensures var s := Run(max, evs);
            Contents(s.emitted) + s.transactions == Received(evs) && s.size == Size(s.transactions)
  {
    if evs != [] {
      var n := |evs| - 1;
      PayloadsConserve(max, evs[..n]);
      var s := Run(max, evs[..n]);
      ContentsSnoc(s.emitted, Full(s.transactions));
      ContentsSnoc(s.emitted, Reply(s.transactions));
      if evs[n].Client? {
        SizeSnoc(s.transactions, evs[n].tx);
        SizeSnoc([], evs[n].tx);
        assert [] + [evs[n].tx] == [evs[n].tx];
      }
    }
  }

  ghost predicate Fits(max: nat, s: State) {
    s.size <= max && forall i :: 0 <= i < |s.emitted| ==> Size(s.emitted[i].payload) <= max
  }

  ghost predicate NoEmptyFull(s: State) {
    forall i :: 0 <= i < |s.emitted| && s.emitted[i].Full? ==> s.emitted[i].payload != []
  }

  ghost predicate SmallTransactions(max: nat, evs: seq<Event>) {
    forall i :: 0 <= i < |evs| && evs[i].Client? ==> |evs[i].tx| <= max
  }

  lemma {:induction false} SmallFit(max: nat, evs: seq<Event>)
    requires SmallTransactions(max, evs)
    ensures Fits(max, Run(max, evs)) && NoEmptyFull(Run(max, evs))
  {
    if evs != [] {
      SmallFit(max, evs[..|evs| - 1]);
      PayloadsConserve(max, evs[..|evs| - 1]);
    }
  }

  /** A transaction larger than the limit ends up in an oversized payload or an oversized buffer. */
  lemma {:induction false} LargeOverflows(max: nat, evs: seq<Event>, i: nat)
    requires i < |evs| && evs[i].Client? && |evs[i].tx| > max
    ensures !Fits(max, Run(max, evs))
  {
    var n := |evs| - 1;
    var s, t := Run(max, evs[..n]), Run(max, evs);
    if i < n {
      LargeOverflows(max, evs[..n], i);
      PayloadsConserve(max, evs[..n]);
      if s.size > max {
        if evs[n].Request? {
          assert t.emitted[|s.emitted|].payload == s.transactions;
        } else {
          assert t.emitted[|s.emitted|].payload == s.transactions;
        }
      } else {
        var k :| 0 <= k < |s.emitted| && Size(s.emitted[k].payload) > max;
        assert t.emitted[k] == s.emitted[k];
      }
    }
  }

  /** Peers refuse payloads above the limit. No payload is ever above it, and none that is sent for
      want of room is empty, exactly when no client transaction is above it. */
  lemma {:induction false} LimitKeptExactly(max: nat, evs: seq<Event>)
    ensures Fits(max, Run(max, evs)) <==> SmallTransactions(max, evs)
    ensures SmallTransactions(max, evs) ==> NoEmptyFull(Run(max, evs))
  {
    if SmallTransactions(max, evs) {
      SmallFit(max, evs);
    } else {
      var i :| 0 <= i < |evs| && evs[i].Client? && |evs[i].tx| > max;
      LargeOverflows(max, evs, i);
    }
  }

  lemma {:induction false} PositiveSize(p: Payload)
    requires forall i :: 0 <= i < |p| ==> |p[i]| > 0
    ensures Size(p) == 0 <==> p == []
  {
    if p != [] {
      PositiveSize(p[..|p| - 1]);
    }
  }

  ghost predicate NonEmpty(p: Payload) {
    forall i :: 0 <= i < |p| ==> |p[i]| > 0
  }

  ghost predicate NonEmptyAll(s: State) {
    NonEmpty(s.transactions) && forall i :: 0 <= i < |s.emitted| ==> NonEmpty(s.emitted[i].payload)
  }

  lemma {:induction false} NonEmptyKept(max: nat, evs: seq<Event>)
    requires forall i :: 0 <= i < |evs| && evs[i].Client? ==> |evs[i].tx| > 0
    ensures NonEmptyAll(Run(max, evs))
  {
    if evs != [] {
      NonEmptyKept(max, evs[..|evs| - 1]);
    }
  }

  lemma {:induction false} AllHanded(es: seq<Emission>)
    requires forall i :: 0 <= i < |es| ==> NonEmpty(es[i].payload)
    ensures Delivered(es) == Contents(es)
  {
    if es != [] {
      AllHanded(es[..|es| - 1]);
      PositiveSize(es[|es| - 1].payload);
    }
  }

  /** With the withheld replies taken into account, nothing is lost as long as no transaction is
      empty. */
  lemma {:induction false} DeliveredConserves(max: nat, evs: seq<Event>)
    requires forall i :: 0 <= i < |evs| && evs[i].Client? ==> |evs[i].tx| > 0
    ensures var s := Run(max, evs); Delivered(s.emitted) + s.transactions == Received(evs)
  {
    NonEmptyKept(max, evs);
    AllHanded(Run(max, evs).emitted);
    PayloadsConserve(max, evs);
  }

  /** A request keeps the transactions exactly when the buffer is empty or has bytes in it: a buffer
      of empty transactions is dropped with the withheld reply. */
  lemma {:induction false} RequestKeepsExactly(max: nat, s: State)
    ensures var t := Step(s, max, Request);
            Delivered(t.emitted) + t.transactions == Delivered(s.emitted) + s.transactions
            <==> s.transactions == [] || Size(s.transactions) > 0
  {
    ContentsSnoc(s.emitted, Reply(s.transactions));
    var d := Delivered(s.emitted);
    assert d + s.transactions + [] == d + s.transactions;
    assert |d + s.transactions| == |d| + |s.transactions|;
  }

  class Runner {
    const maxSize: nat
    var transactions: Payload
    var size: nat
    var emitted: seq<Emission>

    function View(): State
      reads this
    {
      State(transactions, size, emitted)
    }

    constructor (maxSize: nat)
      ensures View() == Run(maxSize, []) && this.maxSize == maxSize
    {
      this.maxSize := maxSize;
      transactions, size, emitted := [], 0, [];
    }

    method Make() returns (p: Payload)
      modifies `transactions, `size
      ensures p == old(transactions) && transactions == [] && size == 0
    {
      p := transactions;
      transactions := [];
      size := 0;
    }

    method Add(tx: Transaction) returns (full: Option<Payload>)
      modifies this
      ensures View() == Step(old(View()), maxSize, Client(tx))
      ensures full == if old(size) + |tx| > maxSize then Some(old(transactions)) else None
    {
      full := None;
      if size + |tx| > maxSize {
        var p := Make();
        full := Some(p);
        emitted := emitted + [Full(p)];
      }
      transactions := transactions + [tx];
      size := size + |tx|;
    }

    method Answer() returns (reply: Option<Payload>)
      modifies this
      ensures View() == Step(old(View()), maxSize, Request)
      ensures reply == if Size(old(transactions)) == 0 then None else Some(old(transactions))
    {
      var p := Make();
      emitted := emitted + [Reply(p)];
      reply := if Size(p) == 0 then None else Some(p);
    }
  }
}
