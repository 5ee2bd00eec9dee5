/** Vote aggregation: when a collection of votes turns into a certificate, how often, and whether
    the certificate is one that verification accepts. */
module Aggregation {
  import opened Committees
  import opened Messages

  /** Contents of a vote collector. */
  datatype Maker = Maker(weight: nat, votes: seq<(Name, Signature)>, used: set<Name>)

  const EMPTY_MAKER := Maker(0, [], {})

  function Certificate(vote: HVote, votes: seq<(Name, Signature)>): QC {
    QC(vote.hash, vote.height, vote.epoch, vote.round, vote.tag, vote.proposer, vote.proposer, votes)
  }

  function AppendVote(c: Committee, m: Maker, vote: HVote): (Maker, Result<Option<QC>>)
    requires c.HasStake()
  {
    if vote.author in m.used then (m, Err(AuthorityReuseInQC(vote.author))) else
      var votes := m.votes + [(vote.author, vote.signature)];
      var used := m.used + {vote.author};
      var weight := m.weight + c.Stake(vote.author);
      if weight >= c.QuorumThreshold()
      then (Maker(0, votes, used), Ok(Some(Certificate(vote, votes))))
      else (Maker(weight, votes, used), Ok(None))
  }

  /** A collector after a whole sequence of votes, with the certificates it handed out. */
  function Feed(c: Committee, votes: seq<HVote>): (Maker, seq<QC>)
    requires c.HasStake()
  {
    if votes == [] then (EMPTY_MAKER, []) else
      var (m, made) := Feed(c, votes[..|votes| - 1]);
      var (m', r) := AppendVote(c, m, votes[|votes| - 1]);
      (m', if r.Ok? && r.value.Some? then made + [r.value.value] else made)
  }

  lemma {:induction false} NextMultiple(k: nat, q: nat)
    ensures (k + 1) * q == k * q + q
  {
  }

  /** Every certificate uses up a quorum of stake of authorities that can never vote again. */
  lemma {:induction false} CertificatesSpendStake(c: Committee, votes: seq<HVote>)
    requires c.HasStake()
    ensures var (m, made) := Feed(c, votes);
            m.weight + |made| * c.QuorumThreshold() <= c.Weight(m.used) && m.weight <= c.Weight(m.used)
  {
    if votes != [] {
      var v := votes[|votes| - 1];
      CertificatesSpendStake(c, votes[..|votes| - 1]);
      var (m, made) := Feed(c, votes[..|votes| - 1]);
      if v.author !in m.used {
        WeightInsert(c, m.used, v.author);
        NextMultiple(|made|, c.QuorumThreshold());
      }
    }
  }

  /** One vote per committee member, in key order. */
  function Ballots(members: set<Name>): (votes: seq<HVote>)
    ensures |votes| == |members|
    decreases |members|
  {
    if members == {} then [] else
      var n := Least(members);
      Ballots(members - {n}) + [NewVote(GENESIS, n, OPT)]
  }

  lemma {:induction false} FeedSnoc(c: Committee, votes: seq<HVote>, v: HVote)
    requires c.HasStake()
    ensures var (m, made) := Feed(c, votes);
            var (m', r) := AppendVote(c, m, v);
            Feed(c, votes + [v]) == (m', if r.Ok? && r.value.Some? then made + [r.value.value] else made)
  {
    assert (votes + [v])[..|votes|] == votes;
  }

  lemma {:induction false} OneBallot(c: Committee, m: Maker, made: nat, k: nat, vote: HVote)
    requires c.HasStake() && c.Stake(vote.author) == 1 && vote.author !in m.used
    requires made * c.QuorumThreshold() + m.weight == k && m.weight < c.QuorumThreshold()
    ensures var (m', r) := AppendVote(c, m, vote);
            && r.Ok? && m'.used == m.used + {vote.author} && m'.weight < c.QuorumThreshold()
            && (if r.value.Some? then made + 1 else made) * c.QuorumThreshold() + m'.weight == k + 1
  {
    NextMultiple(made, c.QuorumThreshold());
  }

  /** With unit stakes, k members who each vote once produce exactly k / quorum certificates. */
  lemma {:induction false} UnitBallots(c: Committee, members: set<Name>)
    requires c.HasStake() && c.UnitStakes() && members <= c.authorities.Keys
    ensures var (m, made) := Feed(c, Ballots(members));
            && m.used == members
            && |made| * c.QuorumThreshold() + m.weight == |members|
            && m.weight < c.QuorumThreshold()
    decreases |members|
  {
    if members != {} {
      var n := Least(members);
      var rest := members - {n};
      assert rest + {n} == members && |members| == |rest| + 1;
      UnitBallots(c, rest);
      var (m, made) := Feed(c, Ballots(rest));
      var vote := NewVote(GENESIS, n, OPT);
      FeedSnoc(c, Ballots(rest), vote);
      OneBallot(c, m, |made|, |rest|, vote);
    }
  }

  lemma {:induction false} Multiples(k: nat, q: nat)
    ensures k <= 1 ==> k * q <= q
    ensures k >= 2 ==> k * q >= 2 * q
  {
    if k >= 2 {
      assert k * q == 2 * q + (k - 2) * q;
    }
  }

  /** "Ensures QC is only made once": whatever the stakes and the votes, a collector hands out at
      most one certificate when the total stake is not 2, 3 or 6. */
  lemma {:induction false} OneCertificatePerMaker(c: Committee, votes: seq<HVote>)
    requires c.HasStake() && c.Total() !in {2, 3, 6}
    ensures |Feed(c, votes).1| <= 1
  {
    var (m, made) := Feed(c, votes);
    var q := c.QuorumThreshold();
    CertificatesSpendStake(c, votes);
    WeightAtMostTotal(c, m.used);
    ThresholdFacts(c, {});
    Multiples(|made|, q);
  }

  /** The exception is exact: with unit stakes the once-only promise holds for all vote sequences
      if and only if the committee does not have 2, 3 or 6 members. */
  lemma {:induction false} OnceOnlyExactly(c: Committee)
    requires c.HasStake() && c.UnitStakes()
    ensures (forall votes :: |Feed(c, votes).1| <= 1) <==> c.Total() !in {2, 3, 6}
  {
    ThresholdFacts(c, {});
    if c.Total() in {2, 3, 6} {
      var all := c.authorities.Keys;
      UnitBallots(c, all);
      UnitWeight(c, all);
      var (m, made) := Feed(c, Ballots(all));
      var q := c.QuorumThreshold();
      Multiples(|made|, q);
      assert !(forall votes :: |Feed(c, votes).1| <= 1) by {
        assert |Feed(c, Ballots(all)).1| > 1;
      }
    } else {
      forall votes ensures |Feed(c, votes).1| <= 1 {
        OneCertificatePerMaker(c, votes);
      }
    }
  }

  /** What a collector holds after verified votes: the recorded signatures are those of the votes
      it accepted, by distinct authorities with stake. */
  predicate Recorded(c: Committee, votes: seq<HVote>, m: Maker) {
    && m.used == Voters(m.votes)
    && DistinctVoters(m.votes)
    && PositiveVoters(c, m.votes)
    && (forall i :: 0 <= i < |m.votes| ==> Cast(votes, m.votes[i]))
  }

  /** The recorded signature is that of one of the votes. */
  predicate Cast(votes: seq<HVote>, v: (Name, Signature)) {
    exists k :: 0 <= k < |votes| && votes[k].author == v.0 && v.1 == Signature(v.0, votes[k].Digest())
  }

  lemma {:induction false} CastStays(votes: seq<HVote>, last: HVote, v: (Name, Signature))
    requires Cast(votes, v)
    ensures Cast(votes + [last], v)
  {
    var k :| 0 <= k < |votes| && votes[k].author == v.0 && v.1 == Signature(v.0, votes[k].Digest());
    assert (votes + [last])[k] == votes[k];
  }

  lemma {:induction false} AppendRecords(c: Committee, votes: seq<HVote>, m: Maker, last: HVote)
    requires c.HasStake() && Recorded(c, votes, m) && last.Verified(c)
    ensures Recorded(c, votes + [last], AppendVote(c, m, last).0)
  {
    forall i | 0 <= i < |m.votes| ensures Cast(votes + [last], m.votes[i]) {
      CastStays(votes, last, m.votes[i]);
    }
    if last.author !in m.used {
      var v := (last.author, last.signature);
      VotersSnoc(m.votes, v);
      assert forall i :: 0 <= i < |m.votes| ==> m.votes[i].0 in Voters(m.votes);
      assert (votes + [last])[|votes|] == last;
      assert Cast(votes + [last], v);
    }
  }

  lemma {:induction false} FeedRecords(c: Committee, votes: seq<HVote>)
    requires c.HasStake() && forall k :: 0 <= k < |votes| ==> votes[k].Verified(c)
    ensures Recorded(c, votes, Feed(c, votes).0)
  {
    if votes != [] {
      var n := |votes| - 1;
      FeedRecords(c, votes[..n]);
      AppendRecords(c, votes[..n], Feed(c, votes[..n]).0, votes[n]);
      assert votes[..n] + [votes[n]] == votes;
    }
  }

  lemma {:induction false} FeedShape(c: Committee, votes: seq<HVote>)
    requires c.HasStake() && forall k :: 0 <= k < |votes| ==> votes[k].Verified(c)
    ensures var m := Feed(c, votes).0;
            && m.used == Voters(m.votes) && DistinctVoters(m.votes) && PositiveVoters(c, m.votes)
            && m.weight <= c.Weight(m.used)
  {
    FeedRecords(c, votes);
    CertificatesSpendStake(c, votes);
  }

  lemma {:induction false} CompletedShape(c: Committee, m: Maker, last: HVote, qc: QC)
    requires c.HasStake() && last.Verified(c)
    requires m.used == Voters(m.votes) && DistinctVoters(m.votes) && PositiveVoters(c, m.votes)
    requires m.weight <= c.Weight(m.used)
    requires AppendVote(c, m, last).1 == Ok(Some(qc))
    ensures DistinctVoters(qc.votes) && PositiveVoters(c, qc.votes)
    ensures c.Weight(Voters(qc.votes)) >= c.QuorumThreshold()
    ensures qc.votes == m.votes + [(last.author, last.signature)]
    ensures qc.Digest() == last.Digest()
  {
    WeightInsert(c, m.used, last.author);
    VotersSnoc(m.votes, (last.author, last.signature));
    forall i, j | 0 <= i < j < |qc.votes| ensures qc.votes[i].0 != qc.votes[j].0 {
      assert qc.votes[i].0 in Voters(m.votes);
    }
  }

  /** Aggregation agrees with verification: a certificate made from verified votes always has
      distinct authors with stake and the weight of a quorum, and it passes verification exactly
      when every vote recorded before it was signed over the same digest as the vote that
      completed it. */
  lemma {:induction false} AggregateVerifies(c: Committee, votes: seq<HVote>, last: HVote, qc: QC)
    requires c.HasStake() && last.Verified(c) && forall k :: 0 <= k < |votes| ==> votes[k].Verified(c)
    requires AppendVote(c, Feed(c, votes).0, last).1 == Ok(Some(qc))
    ensures DistinctVoters(qc.votes) && PositiveVoters(c, qc.votes)
    ensures c.Weight(Voters(qc.votes)) >= c.QuorumThreshold()
    ensures ValidQC(c, qc) <==> forall v :: v in Feed(c, votes).0.votes ==> v.1.digest == last.Digest()
  {
    FeedShape(c, votes);
    CompletedShape(c, Feed(c, votes).0, last, qc);
    SameDigests(c, votes, last, qc);
  }

  lemma {:induction false} SameDigests(c: Committee, votes: seq<HVote>, last: HVote, qc: QC)
    requires c.HasStake() && last.Verified(c) && forall k :: 0 <= k < |votes| ==> votes[k].Verified(c)
    requires qc.votes == Feed(c, votes).0.votes + [(last.author, last.signature)]
    requires qc.Digest() == last.Digest()
    ensures SignedBy(qc.votes, qc.Digest()) <==> forall v :: v in Feed(c, votes).0.votes ==> v.1.digest == last.Digest()
  {
    FeedRecords(c, votes);
    var recorded := Feed(c, votes).0.votes;
    if SignedBy(qc.votes, qc.Digest()) {
      forall v | v in recorded ensures v.1.digest == last.Digest() {
        var i :| 0 <= i < |recorded| && recorded[i] == v;
        assert qc.votes[i] == v;
      }
    }
    if forall v :: v in recorded ==> v.1.digest == last.Digest() {
      forall i | 0 <= i < |qc.votes| ensures qc.votes[i].1 == Signature(qc.votes[i].0, qc.Digest()) {
        if i < |recorded| {
          assert recorded[i] in recorded;
        }
      }
    }
  }

  /** Collectors are found by key and created on the first vote. */
  function AddTo<K>(c: Committee, makers: map<K, Maker>, key: K, vote: HVote): (map<K, Maker>, Result<Option<QC>>)
    requires c.HasStake()
  {
    var (m, r) := AppendVote(c, if key in makers then makers[key] else EMPTY_MAKER, vote);
    (makers[key := m], r)
  }

  class QCMaker {
    var weight: nat
    var votes: seq<(Name, Signature)>
    var used: set<Name>

    function View(): Maker
      reads this
    {
      Maker(weight, votes, used)
    }

    constructor ()
      ensures View() == EMPTY_MAKER
    {
      weight, votes, used := 0, [], {};
    }

    method Append(c: Committee, vote: HVote) returns (r: Result<Option<QC>>)
      requires c.HasStake()
      modifies this
      ensures (View(), r) == AppendVote(c, old(View()), vote)
    {
      if vote.author in used {
        return Err(AuthorityReuseInQC(vote.author));
      }
      used := used + {vote.author};
      votes := votes + [(vote.author, vote.signature)];
      weight := weight + c.Stake(vote.author);
      if weight >= c.QuorumThreshold() {
        weight := 0;
        return Ok(Some(Certificate(vote, votes)));
      }
      return Ok(None);
    }
  }

  /** The optimistic collectors of a node, one object per height and block digest. */
  class Aggregator {
    const committee: Committee
    var hsVotes: map<(nat, Digest), QCMaker>

    ghost predicate Valid()
      reads this
    {
      && committee.HasStake()
      && forall k, l :: k in hsVotes && l in hsVotes && k != l ==> hsVotes[k] != hsVotes[l]
    }

    ghost function View(): map<(nat, Digest), Maker>
      reads this, hsVotes.Values
    {
      map k | k in hsVotes :: hsVotes[k].View()
    }

    constructor (committee: Committee)
      requires committee.HasStake()
      ensures Valid() && this.committee == committee && View() == map[]
    {
      this.committee := committee;
      hsVotes := map[];
    }

    method MakerFor(key: (nat, Digest)) returns (maker: QCMaker)
      requires Valid()
      modifies this
      ensures Valid() && hsVotes.Keys == old(hsVotes.Keys) + {key} && hsVotes[key] == maker
      ensures forall k :: k in old(hsVotes) ==> hsVotes[k] == old(hsVotes[k])
      ensures key !in old(hsVotes) ==> fresh(maker) && maker.View() == EMPTY_MAKER
    {
      if key !in hsVotes {
        maker := new QCMaker();
        hsVotes := hsVotes[key := maker];
      }
      maker := hsVotes[key];
    }

    method AddHsVote(vote: HVote) returns (r: Result<Option<QC>>)
      requires Valid()
      modifies this, hsVotes.Values
      ensures Valid() && fresh(hsVotes.Values - old(hsVotes.Values))
      ensures (View(), r) == AddTo(committee, old(View()), (vote.height, vote.hash), vote)
    {
      var key := (vote.height, vote.hash);
      var maker := MakerFor(key);
      assert key in old(hsVotes) ==> maker in old(hsVotes.Values);
      r := maker.Append(committee, vote);
      assert View() == old(View())[key := maker.View()];
    }

    method CleanupHsVote(height: nat)
      requires Valid()
      modifies this
      ensures Valid() && hsVotes.Values <= old(hsVotes.Values)
      ensures View() == map k | k in old(View()) && k.0 > height :: old(View())[k]
    {
      hsVotes := map k | k in hsVotes && k.0 > height :: hsVotes[k];
    }
  }
}
