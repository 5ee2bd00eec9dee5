/** Blocks, votes and quorum certificates. Digests are terms over the hashed fields, so two
    digests are equal exactly when those fields are; a signature names its signer and the digest
    it was made over. Fields that the source leaves out of a hash are left out here too. */
module Messages {
  import opened Committees

  const OPT: nat := 0
  const PES: nat := 1

  const DEFAULT_KEY: Name := 0

  type Slot = (nat, nat)      // height and round

  datatype Option<+T> = None | Some(value: T)
  datatype Result<+T> = Ok(value: T) | Err(error: ConsensusError)

  datatype ConsensusError =
    | AuthorityReuseInQC(name: Name)
    | UnknownAuthority(name: Name)
    | QCRequiresQuorum
    | InvalidSignature
    | AuthorityReuseInProof(name: Name)
    | AuthorityReuseInCoin(name: Name)

  datatype Digest =
    | Zero
    | BlockDigest(author: Name, height: nat, epoch: nat, payload: seq<nat>, parent: Digest, tag: nat)
    | VoteDigest(hash: Digest, height: nat, round: nat, tag: nat, epoch: nat, proposer: Name)

  datatype Signature = Signature(signer: Name, digest: Digest)

  datatype QC = QC(hash: Digest, height: nat, epoch: nat, round: nat, tag: nat, proposer: Name,
                   acceptor: Name, votes: seq<(Name, Signature)>)
  {
    function Digest(): Digest {
      VoteDigest(hash, height, round, tag, epoch, proposer)
    }

    /** The source's equality against the genesis certificate: epoch, round, tag and votes are not
        compared (the epoch is compared with itself). */
    predicate IsGenesis() {
      hash == Zero && height == 0 && proposer == DEFAULT_KEY
    }
  }

  const GENESIS_QC := QC(Zero, 0, 0, 0, OPT, DEFAULT_KEY, DEFAULT_KEY, [])

  datatype Block = Block(qc: QC, author: Name, height: nat, epoch: nat, payload: seq<nat>,
                         signature: Signature, tag: nat, round: nat)
  {
    function Digest(): Digest {
      BlockDigest(author, height, epoch, payload, qc.hash, tag)
    }
  }

  const GENESIS := Block(GENESIS_QC, DEFAULT_KEY, 0, 0, [], Signature(DEFAULT_KEY, Zero), OPT, 0)

  function NewBlock(qc: QC, author: Name, height: nat, epoch: nat, round: nat, payload: seq<nat>, tag: nat): Block {
    var d := BlockDigest(author, height, epoch, payload, qc.hash, tag);
    Block(qc, author, height, epoch, payload, Signature(author, d), tag, round)
  }

  datatype HVote = HVote(hash: Digest, height: nat, round: nat, epoch: nat, proposer: Name, tag: nat,
                         author: Name, signature: Signature)
  {
    function Digest(): Digest {
      VoteDigest(hash, height, round, tag, epoch, proposer)
    }

    predicate Verified(c: Committee) {
      c.Stake(author) > 0 && signature == Signature(author, Digest())
    }
  }

  function NewVote(block: Block, author: Name, tag: nat): HVote {
    var d := VoteDigest(block.Digest(), block.height, block.round, tag, block.epoch, block.author);
    HVote(block.Digest(), block.height, block.round, block.epoch, block.author, tag, author, Signature(author, d))
  }

  function Voters(votes: seq<(Name, Signature)>): set<Name> {
    set i | 0 <= i < |votes| :: votes[i].0
  }

  predicate DistinctVoters(votes: seq<(Name, Signature)>) {
    forall i, j :: 0 <= i < j < |votes| ==> votes[i].0 != votes[j].0
  }

  predicate PositiveVoters(c: Committee, votes: seq<(Name, Signature)>) {
    forall i :: 0 <= i < |votes| ==> c.Stake(votes[i].0) > 0
  }

  predicate SignedBy(votes: seq<(Name, Signature)>, d: Digest) {
    forall i :: 0 <= i < |votes| ==> votes[i].1 == Signature(votes[i].0, d)
  }

  /** A certificate worth its name: signatures of distinct stake-holders over its own digest,
      weighing at least a quorum. */
  predicate ValidQC(c: Committee, qc: QC)
    requires c.HasStake()
  {
    && DistinctVoters(qc.votes)
    && PositiveVoters(c, qc.votes)
    && c.Weight(Voters(qc.votes)) >= c.QuorumThreshold()
    && SignedBy(qc.votes, qc.Digest())
  }

  lemma {:induction false} VotersSnoc(votes: seq<(Name, Signature)>, v: (Name, Signature))
    ensures Voters(votes + [v]) == Voters(votes) + {v.0}
  {
    var all := votes + [v];
    forall n | n in Voters(votes) ensures n in Voters(all) {
      var i :| 0 <= i < |votes| && votes[i].0 == n;
      assert all[i].0 == n;
    }
    assert all[|votes|].0 == v.0;
  }

  /** The verification loop accepts exactly the valid certificates, and a refusal names a reason
      that holds. */
  method VerifyQC(c: Committee, qc: QC) returns (r: Result<()>)
    requires c.HasStake()
    ensures r.Ok? <==> ValidQC(c, qc)
    ensures r.Err? ==>
              match r.error
              case AuthorityReuseInQC(n) => exists i, j :: 0 <= i < j < |qc.votes| && n == qc.votes[i].0 == qc.votes[j].0
              case UnknownAuthority(n) => n in Voters(qc.votes) && c.Stake(n) == 0
              case QCRequiresQuorum => c.Weight(Voters(qc.votes)) < c.QuorumThreshold()
              case InvalidSignature => c.Weight(Voters(qc.votes)) >= c.QuorumThreshold() && !SignedBy(qc.votes, qc.Digest())
              case _ => false
  {
    var weight := 0;
    var used: set<Name> := {};
    for k := 0 to |qc.votes|
      invariant used == Voters(qc.votes[..k])
      invariant weight == c.Weight(used)
      invariant DistinctVoters(qc.votes[..k]) && PositiveVoters(c, qc.votes[..k])
    {
      var name := qc.votes[k].0;
      assert qc.votes[..k + 1] == qc.votes[..k] + [qc.votes[k]];
      VotersSnoc(qc.votes[..k], qc.votes[k]);
      if name in used {
        var i :| 0 <= i < k && qc.votes[..k][i].0 == name;
        assert qc.votes[i].0 == name;
        return Err(AuthorityReuseInQC(name));
      }
      if c.Stake(name) == 0 {
        assert !PositiveVoters(c, qc.votes);
        return Err(UnknownAuthority(name));
      }
      WeightInsert(c, used, name);
      used := used + {name};
      weight := weight + c.Stake(name);
    }
    assert qc.votes[..|qc.votes|] == qc.votes;
    if weight < c.QuorumThreshold() {
      return Err(QCRequiresQuorum);
    }
    if !SignedBy(qc.votes, qc.Digest()) {
      return Err(InvalidSignature);
    }
    return Ok(());
  }

  /** The checks a received block passes before it is processed. */
  predicate VerifiedBlock(c: Committee, block: Block)
    requires c.HasStake()
  {
    && c.Stake(block.author) > 0
    && block.signature == Signature(block.author, block.Digest())
    && (block.qc.IsGenesis() || ValidQC(c, block.qc))
  }
}
