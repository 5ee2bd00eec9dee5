/** The block synchronizer: blocks whose parent is missing wait until it is stored, are then looped
    back to the core, and their parents are requested from the other nodes in the meantime. */
module Synchronizer {
  import opened Messages

  /** The state of the background task, the store's keys, and what went in and came out. */
  datatype State = State(
    pending: set<Digest>,
    requests: map<Digest, nat>,       // requested parents with the time of the first request
    waiting: seq<Block>,              // one waiter per suspended block
    stored: set<Digest>,
    received: seq<Block>,
    accepted: seq<Block>,
    loopbacks: seq<Block>)

  datatype Event =
    | Receive(block: Block, now: nat)     // a block handed over for want of its parent
    | Stored(digest: Digest)              // some block is written to the store
    | Fire(i: nat)                        // the i-th waiter's parent is there

  const START := State({}, map[], [], {}, [], [], [])

  predicate Enabled(s: State, ev: Event) {
    ev.Fire? ==> ev.i < |s.waiting| && s.waiting[ev.i].qc.hash in s.stored
  }

  function Step(s: State, ev: Event): State
    requires Enabled(s, ev)
  {
    match ev
    case Receive(b, now) =>
      var t := s.(received := s.received + [b]);
      if b.Digest() in s.pending then t else
        t.(pending := s.pending + {b.Digest()}, waiting := s.waiting + [b], accepted := s.accepted + [b],
           requests := if b.qc.hash in s.requests then s.requests else s.requests[b.qc.hash := now])
    case Stored(d) =>
      s.(stored := s.stored + {d})
    case Fire(i) =>
      var b := s.waiting[i];
      s.(pending := s.pending - {b.Digest()}, requests := s.requests - {b.qc.hash},
         waiting := s.waiting[..i] + s.waiting[i + 1..], loopbacks := s.loopbacks + [b])
  }

  ghost predicate Digests(bs: seq<Block>, d: Digest) {
    exists i :: 0 <= i < |bs| && bs[i].Digest() == d
  }

  /** A pending digest has exactly one waiter. */
  ghost predicate PendingOk(s: State) {
    && (forall d :: d in s.pending <==> Digests(s.waiting, d))
    && (forall i, j :: 0 <= i < j < |s.waiting| ==> s.waiting[i].Digest() != s.waiting[j].Digest())
  }

  /** A waiter's parent is being requested or already stored, and nothing is requested in vain. */
  ghost predicate RequestsOk(s: State) {
    && (forall i :: 0 <= i < |s.waiting| ==> s.waiting[i].qc.hash in s.requests || s.waiting[i].qc.hash in s.stored)
    && (forall d :: d in s.requests ==> exists i :: 0 <= i < |s.waiting| && s.waiting[i].qc.hash == d)
  }

  /** Suspensions are conserved: each accepted one is waiting or was looped back, once. */
  ghost predicate Conserved(s: State) {
    && multiset(s.accepted) == multiset(s.waiting) + multiset(s.loopbacks)
    && (forall i :: 0 <= i < |s.loopbacks| ==> s.loopbacks[i].qc.hash in s.stored)
    && (forall i :: 0 <= i < |s.received| ==> Digests(s.waiting, s.received[i].Digest()) || Digests(s.loopbacks, s.received[i].Digest()))
  }

  ghost predicate Ok(s: State) {
    PendingOk(s) && RequestsOk(s) && Conserved(s)
  }

  lemma {:induction false} SnocDigests(bs: seq<Block>, b: Block, d: Digest)
    ensures Digests(bs + [b], d) <==> Digests(bs, d) || b.Digest() == d
  {
    if Digests(bs, d) {
      var i :| 0 <= i < |bs| && bs[i].Digest() == d;
      assert (bs + [b])[i].Digest() == d;
    }
    assert (bs + [b])[|bs|] == b;
  }

  function Without<T>(s: seq<T>, i: nat): seq<T>
    requires i < |s|
  {
    s[..i] + s[i + 1..]
  }

  /** Where the entries of a sequence go when one is taken out. */
  lemma {:induction false} WithoutAt<T>(s: seq<T>, i: nat, j: nat)
    requires i < |s| && j < |s| && j != i
    ensures Without(s, i)[if j < i then j else j - 1] == s[j]
  {
  }

  lemma {:induction false} WithoutContents<T>(s: seq<T>, i: nat)
    requires i < |s|
    ensures multiset(s) == multiset(Without(s, i)) + multiset{s[i]}
  {
    assert s == s[..i] + ([s[i]] + s[i + 1..]);
  }

  lemma {:induction false} ReceivePending(s: State, b: Block, now: nat)
    requires PendingOk(s)
    ensures PendingOk(Step(s, Receive(b, now)))
  {
    if b.Digest() !in s.pending {
      var t := Step(s, Receive(b, now));
      forall d ensures d in t.pending <==> Digests(t.waiting, d) {
        SnocDigests(s.waiting, b, d);
      }
      forall i | 0 <= i < |s.waiting| ensures s.waiting[i].Digest() != b.Digest() {
        assert Digests(s.waiting, s.waiting[i].Digest());
      }
    }
  }

  lemma {:induction false} ReceiveRequests(s: State, b: Block, now: nat)
    requires RequestsOk(s)
    ensures RequestsOk(Step(s, Receive(b, now)))
  {
    var t := Step(s, Receive(b, now));
    if b.Digest() !in s.pending {
      forall d | d in t.requests ensures exists i :: 0 <= i < |t.waiting| && t.waiting[i].qc.hash == d {
        if d in s.requests {
          var i :| 0 <= i < |s.waiting| && s.waiting[i].qc.hash == d;
          assert t.waiting[i].qc.hash == d;
        } else {
          assert t.waiting[|s.waiting|].qc.hash == d;
        }
      }
    }
  }

  lemma {:induction false} ReceiveConserved(s: State, b: Block, now: nat)
    requires PendingOk(s) && Conserved(s)
    ensures Conserved(Step(s, Receive(b, now)))
  {
    var t := Step(s, Receive(b, now));
    forall i | 0 <= i < |t.received| ensures Digests(t.waiting, t.received[i].Digest()) || Digests(t.loopbacks, t.received[i].Digest()) {
      SnocDigests(s.waiting, b, t.received[i].Digest());
      assert i == |s.received| ==> t.received[i] == b;
    }
  }

  lemma {:induction false} FireKeeps(s: State, i: nat, d: Digest)
    requires Enabled(s, Fire(i)) && Digests(s.waiting, d)
    ensures Digests(Step(s, Fire(i)).waiting, d) || d == s.waiting[i].Digest()
  {
    var t := Step(s, Fire(i));
    assert t.waiting == Without(s.waiting, i);
    var j :| 0 <= j < |s.waiting| && s.waiting[j].Digest() == d;
    if j != i {
      WithoutAt(s.waiting, i, j);
      assert t.waiting[if j < i then j else j - 1].Digest() == d;
    }
  }

  lemma {:induction false} FireDrops(s: State, i: nat, d: Digest)
    requires PendingOk(s) && Enabled(s, Fire(i)) && Digests(Step(s, Fire(i)).waiting, d)
    ensures Digests(s.waiting, d) && d != s.waiting[i].Digest()
  {
    var t := Step(s, Fire(i));
    var j :| 0 <= j < |t.waiting| && t.waiting[j].Digest() == d;
    assert s.waiting[if j < i then j else j + 1].Digest() == d;
  }

  lemma {:induction false} FirePending(s: State, i: nat)
    requires PendingOk(s) && Enabled(s, Fire(i))
    ensures PendingOk(Step(s, Fire(i)))
  {
    var t := Step(s, Fire(i));
    forall d ensures d in t.pending <==> Digests(t.waiting, d) {
      if d in t.pending {
        FireKeeps(s, i, d);
      }
      if Digests(t.waiting, d) {
        FireDrops(s, i, d);
      }
    }
    forall j, k | 0 <= j < k < |t.waiting| ensures t.waiting[j].Digest() != t.waiting[k].Digest() {
      assert t.waiting[j] == s.waiting[if j < i then j else j + 1] && t.waiting[k] == s.waiting[if k < i then k else k + 1];
    }
  }

  lemma {:induction false} FireRequests(s: State, i: nat)
    requires RequestsOk(s) && Enabled(s, Fire(i))
    ensures RequestsOk(Step(s, Fire(i)))
  {
    var t := Step(s, Fire(i));
    assert t.waiting == Without(s.waiting, i);
    forall d | d in t.requests ensures exists j :: 0 <= j < |t.waiting| && t.waiting[j].qc.hash == d {
      var j :| 0 <= j < |s.waiting| && s.waiting[j].qc.hash == d;
      WithoutAt(s.waiting, i, j);
      assert t.waiting[if j < i then j else j - 1].qc.hash == d;
    }
  }

  lemma {:induction false} FireConserved(s: State, i: nat)
    requires Conserved(s) && Enabled(s, Fire(i))
    ensures Conserved(Step(s, Fire(i)))
  {
    var t := Step(s, Fire(i));
    assert t.waiting == Without(s.waiting, i);
    WithoutContents(s.waiting, i);
    forall k | 0 <= k < |t.received| ensures Digests(t.waiting, t.received[k].Digest()) || Digests(t.loopbacks, t.received[k].Digest()) {
      var d := t.received[k].Digest();
      SnocDigests(s.loopbacks, s.waiting[i], d);
      if Digests(s.waiting, d) {
        FireKeeps(s, i, d);
      }
    }
  }

  lemma {:induction false} StepOk(s: State, ev: Event)
    requires Ok(s) && Enabled(s, ev)
    ensures Ok(Step(s, ev))
  {
    match ev
    case Receive(b, now) =>
      ReceivePending(s, b, now);
      ReceiveRequests(s, b, now);
      ReceiveConserved(s, b, now);
    case Stored(d) =>
    case Fire(i) =>
      FirePending(s, i);
      FireRequests(s, i);
      FireConserved(s, i);
  }

  ghost predicate Reaches(states: seq<State>, evs: seq<Event>) {
    && |states| == |evs| + 1 && states[0] == START
    && forall i :: 0 <= i < |evs| ==> Enabled(states[i], evs[i]) && states[i + 1] == Step(states[i], evs[i])
  }

  /** Suspended blocks are never lost, in every reachable state: a pending block has one live waiter,
      whose parent is requested or stored; every block ever handed over is waiting or was looped back,
      under its digest; a suspension is looped back at most once, and only once the parent is stored. */
  lemma {:induction false} NeverLost(states: seq<State>, evs: seq<Event>, i: nat)
    requires Reaches(states, evs) && i < |states|
    ensures Ok(states[i])
  {
    if i > 0 {
      NeverLost(states, evs, i - 1);
      StepOk(states[i - 1], evs[i - 1]);
    }
  }

  class Task {
    var pending: set<Digest>
    var requests: map<Digest, nat>
    var waiting: seq<Block>
    ghost var stored: set<Digest>
    ghost var received: seq<Block>
    ghost var accepted: seq<Block>
    var loopbacks: seq<Block>
    var broadcasts: seq<Digest>       // sync requests sent to the other nodes

    ghost function View(): State
      reads this
    {
      State(pending, requests, waiting, stored, received, accepted, loopbacks)
    }

    constructor ()
      ensures View() == START && broadcasts == []
    {
      pending, requests, waiting, stored := {}, map[], [], {};
      received, accepted, loopbacks, broadcasts := [], [], [], [];
    }

    method OnBlock(b: Block, now: nat)
      modifies this
      ensures View() == Step(old(View()), Receive(b, now))
      ensures broadcasts == if b.Digest() in old(pending) || b.qc.hash in old(requests) then old(broadcasts) else old(broadcasts) + [b.qc.hash]
    {
      received := received + [b];
      if b.Digest() !in pending {
        pending := pending + {b.Digest()};
        waiting := waiting + [b];
        accepted := accepted + [b];
        if b.qc.hash !in requests {
          requests := requests[b.qc.hash := now];
          broadcasts := broadcasts + [b.qc.hash];
        }
      }
    }

    method OnWaiter(i: nat)
      requires Enabled(View(), Fire(i))
      modifies this
      ensures View() == Step(old(View()), Fire(i)) && broadcasts == old(broadcasts)
    {
      var b := waiting[i];
      pending := pending - {b.Digest()};
      requests := requests - {b.qc.hash};
      waiting := waiting[..i] + waiting[i + 1..];
      loopbacks := loopbacks + [b];
    }

    /** The timer repeats every request older than the delay, each once, and changes nothing else. */
    method OnTimer(now: nat, delay: nat)
      modifies `broadcasts
      ensures |broadcasts| >= |old(broadcasts)| && broadcasts[..|old(broadcasts)|] == old(broadcasts)
      ensures var again := broadcasts[|old(broadcasts)|..];
              && (forall d :: d in again <==> d in requests && requests[d] + delay < now)
              && (forall i, j :: 0 <= i < j < |again| ==> again[i] != again[j])
    {
      var rest := requests.Keys;
      var again: seq<Digest> := [];
      while rest != {}
        invariant rest <= requests.Keys && broadcasts == old(broadcasts)
        invariant forall d :: d in again <==> d in requests && d !in rest && requests[d] + delay < now
        invariant forall i, j :: 0 <= i < j < |again| ==> again[i] != again[j]
        decreases rest
      {
        var d :| d in rest;
        if requests[d] + delay < now {
          again := again + [d];
        }
        rest := rest - {d};
      }
      broadcasts := broadcasts + again;
      assert broadcasts[|old(broadcasts)|..] == again;
    }
  }
}
