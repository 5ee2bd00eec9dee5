/** The storage actor: a key-value map with reads that wait for the first write of their key. */
module Stores {
  import opened Messages

  type Key = nat
  type Value = nat

  /** Requests are numbered by their place in the command stream; the number stands for the
      one-shot channel the answer goes to. */
  datatype Command = Write(key: Key, value: Value) | Read(key: Key) | NotifyRead(key: Key)

  type Reply = (nat, Option<Value>)

  datatype State = State(db: map<Key, Value>, obligations: map<Key, seq<nat>>, replies: seq<Reply>)

  function Lookup(db: map<Key, Value>, k: Key): Option<Value> {
    if k in db then Some(db[k]) else None
  }

  function AnswerAll(ids: seq<nat>, v: Value): (rs: seq<Reply>)
    ensures |rs| == |ids| && forall i :: 0 <= i < |ids| ==> rs[i] == (ids[i], Some(v))
  {
    if ids == [] then [] else AnswerAll(ids[..|ids| - 1], v) + [(ids[|ids| - 1], Some(v))]
  }

  function Step(s: State, cmd: Command, id: nat): State {
    match cmd
    case Write(k, v) =>
      State(s.db[k := v], s.obligations - {k}, if k in s.obligations then s.replies + AnswerAll(s.obligations[k], v) else s.replies)
    case Read(k) =>
      s.(replies := s.replies + [(id, Lookup(s.db, k))])
    case NotifyRead(k) =>
      if k in s.db then s.(replies := s.replies + [(id, Some(s.db[k]))])
      else s.(obligations := s.obligations[k := (if k in s.obligations then s.obligations[k] else []) + [id]])
  }

  /** The actor after a whole command stream. */
  function Run(cmds: seq<Command>): State {
    if cmds == [] then State(map[], map[], []) else
      var n := |cmds| - 1;
      Step(Run(cmds[..n]), cmds[n], n)
  }

  // ----- what the answers should be, read off the command stream alone -----

  function LastWrite(cmds: seq<Command>, k: Key): Option<Value> {
    if cmds == [] then None else
      var c := cmds[|cmds| - 1];
      if c.Write? && c.key == k then Some(c.value) else LastWrite(cmds[..|cmds| - 1], k)
  }

  function FirstWrite(cmds: seq<Command>, i: nat, k: Key): Option<Value>
    requires i <= |cmds|
    decreases |cmds| - i
  {
    if i == |cmds| then None
    else if cmds[i].Write? && cmds[i].key == k then Some(cmds[i].value)
    else FirstWrite(cmds, i + 1, k)
  }

  /** A read sees the latest write before it; a waiting read sees that, or else the first write
      after it, or else has no answer yet. */
  function Answer(cmds: seq<Command>, i: nat): Option<Option<Value>>
    requires i < |cmds|
  {
    var before := if cmds[i].Write? then None else LastWrite(cmds[..i], cmds[i].key);
    match cmds[i]
    case Write(_, _) => None
    case Read(_) => Some(before)
    case NotifyRead(k) =>
      if before.Some? then Some(before)
      else if FirstWrite(cmds, i, k).Some? then Some(FirstWrite(cmds, i, k)) else None
  }

  lemma {:induction false} FirstWriteSnoc(cmds: seq<Command>, c: Command, i: nat, k: Key)
    requires i <= |cmds|
    ensures FirstWrite(cmds + [c], i, k) ==
            if FirstWrite(cmds, i, k).Some? then FirstWrite(cmds, i, k)
            else if c.Write? && c.key == k then Some(c.value) else None
    decreases |cmds| - i
  {
    if i < |cmds| {
      assert (cmds + [c])[i] == cmds[i];
      FirstWriteSnoc(cmds, c, i + 1, k);
    }
  }

  /** A later command changes an answer only by giving a pending wait its first write. */
  lemma {:induction false} AnswerSnoc(cmds: seq<Command>, c: Command, i: nat)
    requires i < |cmds|
    ensures Answer(cmds, i).Some? ==> Answer(cmds + [c], i) == Answer(cmds, i)
    ensures Answer(cmds, i).None? ==>
              Answer(cmds + [c], i) == if cmds[i].NotifyRead? && c.Write? && c.key == cmds[i].key then Some(Some(c.value)) else None
  {
    var all := cmds + [c];
    assert all[i] == cmds[i] && all[..i] == cmds[..i];
    if cmds[i].NotifyRead? {
      FirstWriteSnoc(cmds, c, i, cmds[i].key);
    }
  }

  // ----- the actor keeps to it -----

  ghost predicate DbOk(cmds: seq<Command>, s: State) {
    forall k :: Lookup(s.db, k) == LastWrite(cmds, k)
  }

  /** Waiting reads stand in the queue of their key, oldest first; no waiting key is stored. */
  ghost predicate QueuesOk(cmds: seq<Command>, s: State) {
    && (forall k :: k in s.obligations ==> k !in s.db)
    && Queued(cmds, s.obligations) && AllQueued(cmds, s.obligations)
  }

  ghost predicate RepliesOk(cmds: seq<Command>, s: State) {
    && (forall p :: 0 <= p < |s.replies| ==> s.replies[p].0 < |cmds| && Answer(cmds, s.replies[p].0) == Some(s.replies[p].1))
    && (forall i :: 0 <= i < |cmds| && Answer(cmds, i).Some? ==> (i, Answer(cmds, i).value) in s.replies)
    && (forall p, q :: 0 <= p < q < |s.replies| ==> s.replies[p].0 != s.replies[q].0)
  }

  /** Waiting reads of one key are answered in the order in which they were made. */
  ghost predicate FifoOk(cmds: seq<Command>, s: State) {
    forall p, q :: 0 <= p < q < |s.replies| && SameWait(cmds, s.replies[p], s.replies[q]) ==> s.replies[p].0 < s.replies[q].0
  }

  ghost predicate Ok(cmds: seq<Command>, s: State) {
    DbOk(cmds, s) && QueuesOk(cmds, s) && RepliesOk(cmds, s) && FifoOk(cmds, s)
  }

  lemma {:induction false} DbStep(cmds: seq<Command>, s: State, c: Command)
    requires DbOk(cmds, s)
    ensures DbOk(cmds + [c], Step(s, c, |cmds|))
  {
    assert (cmds + [c])[..|cmds|] == cmds;
  }

  lemma {:induction false} NewAnswer(cmds: seq<Command>, s: State, c: Command)
    requires DbOk(cmds, s)
    ensures var all := cmds + [c];
            match c
            case Write(_, _) => Answer(all, |cmds|) == None
            case Read(k) => Answer(all, |cmds|) == Some(Lookup(s.db, k))
            case NotifyRead(k) => Answer(all, |cmds|) == if k in s.db then Some(Some(s.db[k])) else None
  {
    var all := cmds + [c];
    assert all[..|cmds|] == cmds;
    if c.NotifyRead? {
      assert FirstWrite(all, |cmds| + 1, c.key) == None;
      assert FirstWrite(all, |cmds|, c.key) == None;
    }
  }

  /** What a command does to the pending waits. */
  lemma {:induction false} PendingSnoc(cmds: seq<Command>, c: Command, i: nat)
    requires i < |cmds| && cmds[i].NotifyRead?
    ensures (cmds + [c])[i] == cmds[i]
    ensures Answer(cmds + [c], i).None? <==> Answer(cmds, i).None? && !(c.Write? && c.key == cmds[i].key)
  {
    AnswerSnoc(cmds, c, i);
  }

  ghost predicate Queued(cmds: seq<Command>, obligations: map<Key, seq<nat>>) {
    && (forall k, j :: k in obligations && 0 <= j < |obligations[k]| ==>
          && obligations[k][j] < |cmds| && cmds[obligations[k][j]] == NotifyRead(k)
          && Answer(cmds, obligations[k][j]).None?)
    && (forall k, i, j :: k in obligations && 0 <= i < j < |obligations[k]| ==> obligations[k][i] < obligations[k][j])
  }

  ghost predicate AllQueued(cmds: seq<Command>, obligations: map<Key, seq<nat>>) {
    forall i :: 0 <= i < |cmds| && cmds[i].NotifyRead? && Answer(cmds, i).None? ==>
      cmds[i].key in obligations && i in obligations[cmds[i].key]
  }

  lemma {:induction false} QueuedStep(cmds: seq<Command>, s: State, c: Command)
    requires DbOk(cmds, s) && Queued(cmds, s.obligations)
    ensures Queued(cmds + [c], Step(s, c, |cmds|).obligations)
  {
    var all, t := cmds + [c], Step(s, c, |cmds|);
    NewAnswer(cmds, s, c);
    forall k, j | k in t.obligations && 0 <= j < |t.obligations[k]|
      ensures var i := t.obligations[k][j]; i < |all| && all[i] == NotifyRead(k) && Answer(all, i).None?
    {
      if k in s.obligations && j < |s.obligations[k]| {
        assert t.obligations[k][j] == s.obligations[k][j];
        PendingSnoc(cmds, c, s.obligations[k][j]);
      }
    }
  }

  lemma {:induction false} AllQueuedStep(cmds: seq<Command>, s: State, c: Command)
    requires DbOk(cmds, s) && AllQueued(cmds, s.obligations)
    ensures AllQueued(cmds + [c], Step(s, c, |cmds|).obligations)
  {
    var all, t := cmds + [c], Step(s, c, |cmds|);
    NewAnswer(cmds, s, c);
    forall i | 0 <= i < |all| && all[i].NotifyRead? && Answer(all, i).None?
      ensures all[i].key in t.obligations && i in t.obligations[all[i].key]
    {
      var k := all[i].key;
      if i < |cmds| {
        PendingSnoc(cmds, c, i);
        var j :| 0 <= j < |s.obligations[k]| && s.obligations[k][j] == i;
        assert t.obligations[k][j] == i;
      } else {
        assert t.obligations[k][|t.obligations[k]| - 1] == i;
      }
    }
  }

  lemma {:induction false} QueuesStep(cmds: seq<Command>, s: State, c: Command)
    requires DbOk(cmds, s) && QueuesOk(cmds, s)
    ensures QueuesOk(cmds + [c], Step(s, c, |cmds|))
  {
    QueuedStep(cmds, s, c);
    AllQueuedStep(cmds, s, c);
  }

  /** The identifiers that a step answers, with their answers. */
  function Answered(s: State, c: Command, id: nat): seq<Reply> {
    match c
    case Write(k, v) => if k in s.obligations then AnswerAll(s.obligations[k], v) else []
    case Read(k) => [(id, Lookup(s.db, k))]
    case NotifyRead(k) => if k in s.db then [(id, Some(s.db[k]))] else []
  }

  lemma {:induction false} StepReplies(s: State, c: Command, id: nat)
    ensures Step(s, c, id).replies == s.replies + Answered(s, c, id)
  {
  }

  /** A step answers exactly the requests whose answer has just become known. */
  lemma {:induction false} AnsweredExactly(cmds: seq<Command>, s: State, c: Command)
    requires DbOk(cmds, s) && QueuesOk(cmds, s)
    ensures var all, added := cmds + [c], Answered(s, c, |cmds|);
            && (forall p :: 0 <= p < |added| ==>
                  && added[p].0 < |all| && Answer(all, added[p].0) == Some(added[p].1)
                  && (added[p].0 < |cmds| ==> Answer(cmds, added[p].0).None?))
            && (forall i :: 0 <= i < |all| && Answer(all, i).Some? && (i < |cmds| ==> Answer(cmds, i).None?)
                            ==> (i, Answer(all, i).value) in added)
            && (forall p, q :: 0 <= p < q < |added| ==> added[p].0 < added[q].0)
  {
    var all, added := cmds + [c], Answered(s, c, |cmds|);
    NewAnswer(cmds, s, c);
    forall p | 0 <= p < |added|
      ensures added[p].0 < |all| && Answer(all, added[p].0) == Some(added[p].1) && (added[p].0 < |cmds| ==> Answer(cmds, added[p].0).None?)
    {
      if c.Write? {
        AnswerSnoc(cmds, c, s.obligations[c.key][p]);
      }
    }
    forall i | 0 <= i < |all| && Answer(all, i).Some? && (i < |cmds| ==> Answer(cmds, i).None?)
      ensures (i, Answer(all, i).value) in added
    {
      if i < |cmds| {
        AnswerSnoc(cmds, c, i);
        var p :| 0 <= p < |s.obligations[c.key]| && s.obligations[c.key][p] == i;
        assert added[p] == (i, Some(c.value));
      } else {
        assert added[0].0 == i;
      }
    }
  }

  lemma {:induction false} OldReply(cmds: seq<Command>, s: State, c: Command, p: nat)
    requires RepliesOk(cmds, s) && p < |s.replies|
    ensures s.replies[p].0 < |cmds| && Answer(cmds, s.replies[p].0).Some?
    ensures Answer(cmds + [c], s.replies[p].0) == Some(s.replies[p].1)
  {
    AnswerSnoc(cmds, c, s.replies[p].0);
  }

  lemma {:induction false} NewReply(cmds: seq<Command>, s: State, c: Command, p: nat)
    requires DbOk(cmds, s) && QueuesOk(cmds, s) && p < |Answered(s, c, |cmds|)|
    ensures var r := Answered(s, c, |cmds|)[p];
            && r.0 < |cmds + [c]| && Answer(cmds + [c], r.0) == Some(r.1)
            && (r.0 < |cmds| ==> Answer(cmds, r.0).None?)
  {
    AnsweredExactly(cmds, s, c);
  }

  /** A reply stands for the answer that the stream determines, and a new one for one just determined. */
  lemma {:induction false} RepliesSound(cmds: seq<Command>, s: State, c: Command, p: nat)
    requires DbOk(cmds, s) && QueuesOk(cmds, s) && RepliesOk(cmds, s) && p < |Step(s, c, |cmds|).replies|
    ensures var r := Step(s, c, |cmds|).replies[p]; r.0 < |cmds + [c]| && Answer(cmds + [c], r.0) == Some(r.1)
    ensures var r := Step(s, c, |cmds|).replies[p];
            if p < |s.replies| then r == s.replies[p] && r.0 < |cmds| && Answer(cmds, r.0).Some?
            else r.0 < |cmds| ==> Answer(cmds, r.0).None?
  {
    var added := Answered(s, c, |cmds|);
    StepReplies(s, c, |cmds|);
    if p < |s.replies| {
      OldReply(cmds, s, c, p);
      assert (s.replies + added)[p] == s.replies[p];
    } else {
      NewReply(cmds, s, c, p - |s.replies|);
      assert (s.replies + added)[p] == added[p - |s.replies|];
    }
  }

  lemma {:induction false} RepliesComplete(cmds: seq<Command>, s: State, c: Command, i: nat)
    requires DbOk(cmds, s) && QueuesOk(cmds, s) && RepliesOk(cmds, s)
    requires i < |cmds + [c]| && Answer(cmds + [c], i).Some?
    ensures (i, Answer(cmds + [c], i).value) in Step(s, c, |cmds|).replies
  {
    StepReplies(s, c, |cmds|);
    AnsweredExactly(cmds, s, c);
    if i < |cmds| {
      AnswerSnoc(cmds, c, i);
    }
  }

  lemma {:induction false} RepliesStep(cmds: seq<Command>, s: State, c: Command)
    requires DbOk(cmds, s) && QueuesOk(cmds, s) && RepliesOk(cmds, s)
    ensures RepliesOk(cmds + [c], Step(s, c, |cmds|))
  {
    var t, added := Step(s, c, |cmds|), Answered(s, c, |cmds|);
    forall p | 0 <= p < |t.replies| ensures t.replies[p].0 < |cmds + [c]| && Answer(cmds + [c], t.replies[p].0) == Some(t.replies[p].1) {
      RepliesSound(cmds, s, c, p);
    }
    forall i | 0 <= i < |cmds + [c]| && Answer(cmds + [c], i).Some? ensures (i, Answer(cmds + [c], i).value) in t.replies {
      RepliesComplete(cmds, s, c, i);
    }
    forall p, q | 0 <= p < q < |t.replies| ensures t.replies[p].0 != t.replies[q].0 {
      OneReplyEach(cmds, s, c, p, q);
    }
  }

  lemma {:induction false} OneReplyEach(cmds: seq<Command>, s: State, c: Command, p: nat, q: nat)
    requires DbOk(cmds, s) && QueuesOk(cmds, s) && RepliesOk(cmds, s) && p < q < |Step(s, c, |cmds|).replies|
    ensures Step(s, c, |cmds|).replies[p].0 != Step(s, c, |cmds|).replies[q].0
  {
    var added := Answered(s, c, |cmds|);
    StepReplies(s, c, |cmds|);
    if q >= |s.replies| {
      if p < |s.replies| {
        RepliesSound(cmds, s, c, q);
        assert Answer(cmds, s.replies[p].0).Some?;
      } else {
        AnsweredExactly(cmds, s, c);
        assert added[p - |s.replies|].0 < added[q - |s.replies|].0;
      }
    }
  }

  /** The order of two replies of which the second is new. */
  lemma {:induction false} NewReplyLater(cmds: seq<Command>, s: State, x: Reply, y: Reply)
    requires DbOk(cmds, s) && QueuesOk(cmds, s) && x.0 < |cmds| && Answer(cmds, x.0).Some? && cmds[x.0].NotifyRead?
    requires y.0 < |cmds| ==> Answer(cmds, y.0).None? && cmds[y.0] == cmds[x.0]
    ensures x.0 < y.0
  {
    if y.0 < |cmds| {
      AnsweredKeyWritten(cmds, s, x.0, y.0);
    }
  }

  /** The two replies wait for the same key. */
  ghost predicate SameWait(cmds: seq<Command>, x: Reply, y: Reply) {
    x.0 < |cmds| && y.0 < |cmds| && cmds[x.0].NotifyRead? && cmds[y.0] == cmds[x.0]
  }

  lemma {:induction false} FifoPair(cmds: seq<Command>, s: State, c: Command, p: nat, q: nat)
    requires DbOk(cmds, s) && QueuesOk(cmds, s) && RepliesOk(cmds, s) && FifoOk(cmds, s)
    requires p < q < |Step(s, c, |cmds|).replies|
    requires SameWait(cmds + [c], Step(s, c, |cmds|).replies[p], Step(s, c, |cmds|).replies[q])
    ensures Step(s, c, |cmds|).replies[p].0 < Step(s, c, |cmds|).replies[q].0
  {
    var t, added := Step(s, c, |cmds|), Answered(s, c, |cmds|);
    StepReplies(s, c, |cmds|);
    if p >= |s.replies| {
      AnsweredExactly(cmds, s, c);
      assert added[p - |s.replies|].0 < added[q - |s.replies|].0;
    } else if q >= |s.replies| {
      RepliesSound(cmds, s, c, p);
      RepliesSound(cmds, s, c, q);
      NewReplyLater(cmds, s, t.replies[p], t.replies[q]);
    } else {
      assert SameWait(cmds, s.replies[p], s.replies[q]);
    }
  }

  lemma {:induction false} FifoStep(cmds: seq<Command>, s: State, c: Command)
    requires DbOk(cmds, s) && QueuesOk(cmds, s) && RepliesOk(cmds, s) && FifoOk(cmds, s)
    ensures FifoOk(cmds + [c], Step(s, c, |cmds|))
  {
    var all, t := cmds + [c], Step(s, c, |cmds|);
    forall p, q | 0 <= p < q < |t.replies| && SameWait(all, t.replies[p], t.replies[q])
      ensures t.replies[p].0 < t.replies[q].0
    {
      FifoPair(cmds, s, c, p, q);
    }
  }

  /** Once a wait on a key has been answered the key is stored, so no other wait on it is pending. */
  lemma {:induction false} AnsweredKeyWritten(cmds: seq<Command>, s: State, i: nat, j: nat)
    requires DbOk(cmds, s) && QueuesOk(cmds, s) && i < |cmds| && j < |cmds|
    requires cmds[i].NotifyRead? && cmds[j] == cmds[i] && Answer(cmds, i).Some?
    ensures Answer(cmds, j).Some?
  {
    var k := cmds[i].key;
    if LastWrite(cmds[..i], k).Some? {
      WrittenStays(cmds, i, k);
    } else {
      FirstIsWritten(cmds, i, k);
    }
  }

  lemma {:induction false} WrittenStays(cmds: seq<Command>, i: nat, k: Key)
    requires i <= |cmds| && LastWrite(cmds[..i], k).Some?
    ensures LastWrite(cmds, k).Some?
    decreases |cmds|
  {
    if i == |cmds| {
      assert cmds[..i] == cmds;
    } else {
      assert cmds[..|cmds| - 1][..i] == cmds[..i];
      WrittenStays(cmds[..|cmds| - 1], i, k);
    }
  }

  lemma {:induction false} FirstIsWritten(cmds: seq<Command>, i: nat, k: Key)
    requires i <= |cmds| && FirstWrite(cmds, i, k).Some?
    ensures LastWrite(cmds, k).Some?
    decreases |cmds| - i
  {
    if cmds[i].Write? && cmds[i].key == k {
      assert cmds[..i + 1][..i] == cmds[..i];
      WrittenStays(cmds, i + 1, k);
    } else {
      FirstIsWritten(cmds, i + 1, k);
    }
  }

  /** Store refinement, for every command stream: the map holds the latest writes; no key is both
      stored and waited for; every read and every answered wait gets exactly the answer that the
      stream determines, once; waits of one key are answered in order. */
  lemma {:induction false} StoreRefines(cmds: seq<Command>)
    ensures Ok(cmds, Run(cmds))
  {
    if cmds != [] {
      var n := |cmds| - 1;
      var before := cmds[..n];
      var s := Run(before);
      StoreRefines(before);
      assert cmds == before + [cmds[n]];
      DbStep(before, s, cmds[n]);
      QueuesStep(before, s, cmds[n]);
      RepliesStep(before, s, cmds[n]);
      FifoStep(before, s, cmds[n]);
    }
  }

  class StoreActor {
    var db: map<Key, Value>
    var obligations: map<Key, seq<nat>>
    var replies: seq<Reply>

    function View(): State
      reads this
    {
      State(db, obligations, replies)
    }

    constructor ()
      ensures View() == Run([])
    {
      db, obligations, replies := map[], map[], [];
    }

    method Handle(cmd: Command, id: nat)
      modifies this
      ensures View() == Step(old(View()), cmd, id)
    {
      match cmd {
        case Write(k, v) =>
          db := db[k := v];
          if k in obligations {
            var senders := obligations[k];
            obligations := obligations - {k};
            var sent := 0;
            while sent < |senders|
              invariant 0 <= sent <= |senders|
              invariant replies == old(replies) + AnswerAll(senders[..sent], v)
              invariant db == old(db)[k := v] && obligations == old(obligations) - {k}
            {
              assert senders[..sent + 1][..sent] == senders[..sent];
              replies := replies + [(senders[sent], Some(v))];
              sent := sent + 1;
            }
            assert senders[..sent] == senders;
          }
        case Read(k) =>
          replies := replies + [(id, Lookup(db, k))];
        case NotifyRead(k) =>
          if k in db {
            replies := replies + [(id, Some(db[k]))];
          } else {
            var senders := if k in obligations then obligations[k] else [];
            obligations := obligations[k := senders + [id]];
          }
      }
    }
  }
}
