/** The committee: voting stake of sets of authorities and the two thresholds
    that every certificate and every coin is measured against. */
module Committees {

  // Public keys are ordered in the source; only equality and order matter here.
  type Name = nat

  /** The least member of a set of names, used to walk a set in a fixed order. */
  function Least(s: set<Name>): (m: Name)
    requires s != {}
    ensures m in s && forall x :: x in s ==> m <= x
  {
    LeastExists(s);
    var m :| m in s && forall x :: x in s ==> m <= x;
    m
  }

  lemma {:induction false} LeastExists(s: set<Name>)
    requires s != {}
    ensures exists m :: m in s && forall x :: x in s ==> m <= x
    decreases |s|
  {
    var x :| x in s;
    if s == {x} {
      assert forall y :: y in s ==> x <= y;
    } else {
      LeastExists(s - {x});
      var m :| m in s - {x} && forall y :: y in s - {x} ==> m <= y;
      LeastOfTwo(s, x, m);
    }
  }

  lemma {:induction false} LeastOfTwo(s: set<Name>, x: Name, m: Name)
    requires x in s && m in s && forall y :: y in s - {x} ==> m <= y
    ensures exists k :: k in s && forall y :: y in s ==> k <= y
  {
    var k := if m <= x then m else x;
    forall y | y in s ensures k <= y {
      if y != x {
        assert y in s - {x};
      }
    }
  }

  datatype Committee = Committee(authorities: map<Name, nat>) {

    /** An unknown name has no stake. */
    function Stake(name: Name): nat {
      if name in authorities then authorities[name] else 0
    }

    function Weight(s: set<Name>): nat
      decreases |s|
    {
      if s == {} then 0 else
        var m := Least(s);
        Stake(m) + Weight(s - {m})
    }

    function Total(): nat {
      Weight(authorities.Keys)
    }

    // The thresholds subtract one from an unsigned total, so the source needs stake to exist.
    predicate HasStake() {
      Total() > 0
    }

    function QuorumThreshold(): nat
      requires HasStake()
    {
      2 * ((Total() - 1) / 3) + 1
    }

    function CoinThreshold(): nat
      requires HasStake()
    {
      (Total() - 1) / 3 + 1
    }

    predicate UnitStakes() {
      forall n :: n in authorities ==> authorities[n] == 1
    }
  }

  /** The weight of a set does not depend on the order in which it is walked. */
  lemma {:induction false} WeightPick(c: Committee, s: set<Name>, x: Name)
    requires x in s
    ensures c.Weight(s) == c.Stake(x) + c.Weight(s - {x})
    decreases |s|
  {
    var m := Least(s);
    if m != x {
      WeightPick(c, s - {m}, x);
      WeightPick(c, s - {x}, m);
      assert s - {m} - {x} == s - {x} - {m};
    }
  }

  lemma {:induction false} WeightInsert(c: Committee, s: set<Name>, x: Name)
    requires x !in s
    ensures c.Weight(s + {x}) == c.Weight(s) + c.Stake(x)
  {
    WeightPick(c, s + {x}, x);
    assert s + {x} - {x} == s;
  }

  /** Inclusion-exclusion for stake. */
  lemma {:induction false} WeightUnion(c: Committee, a: set<Name>, b: set<Name>)
    ensures c.Weight(a + b) + c.Weight(a * b) == c.Weight(a) + c.Weight(b)
    decreases |a|
  {
    if a == {} {
      assert a + b == b && a * b == {};
    } else {
      var x := Least(a);
      var a' := a - {x};
      WeightUnion(c, a', b);
      WeightPick(c, a, x);
      if x in b {
        assert a + b == a' + b;
        assert a * b == a' * b + {x};
        WeightInsert(c, a' * b, x);
      } else {
        assert a + b == a' + b + {x};
        assert a * b == a' * b;
        WeightInsert(c, a' + b, x);
      }
    }
  }

  lemma {:induction false} WeightMonotone(c: Committee, a: set<Name>, b: set<Name>)
    requires a <= b
    ensures c.Weight(a) <= c.Weight(b)
  {
    WeightUnion(c, a, b - a);
    assert a + (b - a) == b && a * (b - a) == {};
  }

  lemma {:induction false} StrangersWeighNothing(c: Committee, s: set<Name>)
    requires s !! c.authorities.Keys
    ensures c.Weight(s) == 0
    decreases |s|
  {
    if s != {} {
      StrangersWeighNothing(c, s - {Least(s)});
    }
  }

  /** No set of names, members or not, outweighs the committee. */
  lemma {:induction false} WeightAtMostTotal(c: Committee, s: set<Name>)
    ensures c.Weight(s) <= c.Total()
  {
    var all := c.authorities.Keys;
    WeightUnion(c, s - all, all);
    StrangersWeighNothing(c, s - all);
    assert (s - all) * all == {};
    WeightMonotone(c, s, (s - all) + all);
  }

  lemma {:induction false} UnitWeight(c: Committee, s: set<Name>)
    requires c.UnitStakes() && s <= c.authorities.Keys
    ensures c.Weight(s) == |s|
    decreases |s|
  {
    if s != {} {
      UnitWeight(c, s - {Least(s)});
    }
  }

  /** The hypothesis under which two quorums must share a correct authority. */
  predicate FewFaults(c: Committee, faulty: set<Name>)
    requires c.HasStake()
  {
    c.Weight(faulty) < 2 * c.QuorumThreshold() - c.Total()
  }

  /** Two quorums share an authority outside the faulty set. */
  lemma {:induction false} QuorumsShareACorrectName(c: Committee, faulty: set<Name>, a: set<Name>, b: set<Name>) returns (n: Name)
    requires c.HasStake() && FewFaults(c, faulty)
    requires c.Weight(a) >= c.QuorumThreshold() && c.Weight(b) >= c.QuorumThreshold()
    ensures n in a && n in b && n !in faulty
  {
    WeightUnion(c, a, b);
    WeightAtMostTotal(c, a + b);
    if a * b <= faulty {
      WeightMonotone(c, a * b, faulty);
      assert false;
    }
    n :| n in a * b && n !in faulty;
  }

  /** What the thresholds amount to. With N = 3f + 1 + k the quorum is the N - f announced
      beside it only when k = 0; two disjoint quorums fit into the total exactly for totals
      2, 3 and 6; and for N = 3f + 1 the fault hypothesis reads "at most f". */
  lemma {:induction false} ThresholdFacts(c: Committee, faulty: set<Name>)
    requires c.HasStake()
    ensures var n := c.Total(); var f := (n - 1) / 3;
            && (c.QuorumThreshold() == n - f <==> n % 3 == 1)
            && (2 * c.QuorumThreshold() <= n <==> n in {2, 3, 6})
            && (n % 3 == 1 ==> (FewFaults(c, faulty) <==> c.Weight(faulty) <= f))
            && c.CoinThreshold() <= c.QuorumThreshold() <= n
  {
    var n := c.Total();
    var f := (n - 1) / 3;
    assert n == 3 * f + 1 || n == 3 * f + 2 || n == 3 * f + 3;
  }
}
