/** The rotating window of leaders. */
module Leaders {
  import opened Committees
  import opened Messages

  /** Sorted names of the authorities and the width of the window. */
  datatype Elector = Elector(names: seq<Name>, window: nat) {

    predicate Valid() {
      && |names| > 0
      && forall i, j :: 0 <= i < j < |names| ==> names[i] < names[j]
    }

    function LeaderIndex(height: nat): nat
      requires Valid()
    {
      height % |names|
    }

    /** Position of a name among the sorted names; the source's lookup panics on a stranger. */
    function Position(name: Name): (p: nat)
      requires Valid() && name in names
      ensures p < |names| && names[p] == name
    {
      var p :| 0 <= p < |names| && names[p] == name;
      p
    }

    /** Places from the first leader of the height to the name. */
    function Distance(name: Name, height: nat): (d: nat)
      requires Valid() && name in names
      ensures d < |names|
    {
      (Position(name) + |names| - LeaderIndex(height)) % |names|
    }

    function IndexAsLeader(name: Name, height: nat): Option<nat>
      requires Valid() && name in names
    {
      var idx := Distance(name, height);
      if idx < window then Some(idx) else None
    }
  }

  /** Heights among the n from `height` on at which the name stands in the window. */
  function TimesInWindow(e: Elector, name: Name, height: nat, n: nat): nat
    requires e.Valid() && name in e.names
  {
    if n == 0 then 0 else
      TimesInWindow(e, name, height, n - 1) + (if e.IndexAsLeader(name, height + n - 1).Some? then 1 else 0)
  }

  /** The window read from the leader's side: entry i is the name i places after the first leader. */
  method GetLeaders(e: Elector, height: nat) returns (leaders: seq<Name>)
    requires e.Valid()
    ensures |leaders| == e.window
    ensures forall i :: 0 <= i < e.window ==> leaders[i] == e.names[(height + i) % |e.names|]
    ensures e.window <= |e.names| ==> forall name, i :: name in e.names && 0 <= i < e.window ==>
                                                          (leaders[i] == name <==> e.IndexAsLeader(name, height) == Some(i))
    ensures forall name :: name in leaders ==> name in e.names && e.IndexAsLeader(name, height).Some?
  {
    leaders := [];
    var n := |e.names|;
    var start := e.LeaderIndex(height);
    for i := start to start + e.window
      invariant |leaders| == i - start
      invariant forall k :: 0 <= k < i - start ==> leaders[k] == e.names[(start + k + n) % n]
    {
      leaders := leaders + [e.names[(i + n) % n]];
    }
    forall i | 0 <= i < e.window ensures leaders[i] == e.names[(height + i) % n] {
      SameResidue(height, i, n);
    }
    forall name, i | name in e.names && 0 <= i < e.window
      ensures e.window <= n ==> (leaders[i] == name <==> e.IndexAsLeader(name, height) == Some(i))
      ensures leaders[i] == name ==> e.IndexAsLeader(name, height).Some?
    {
      WindowEntry(e, name, height, i);
    }
  }

  /** The remainder is determined by its range. */
  lemma {:induction false} Remainder(x: int, n: int, q: int, r: int)
    requires n > 0 && 0 <= r < n && x == q * n + r
    ensures x % n == r
  {
    var d := q - x / n;
    assert x == (x / n) * n + x % n;
    assert d * n == x % n - r;
    Period(d, n);
  }

  lemma {:induction false} Period(d: int, n: int)
    requires n >= 0
    ensures d >= 1 ==> d * n >= n
    ensures d <= -1 ==> d * n <= -n
  {
    if d >= 1 {
      assert d * n == n + (d - 1) * n;
    } else if d <= -1 {
      assert d * n == -n + (d + 1) * n;
      assert (-d - 1) * n == -((d + 1) * n);
    }
  }

  /** Adding whole periods to a sum does not change its remainder. */
  lemma {:induction false} SameResidue(x: nat, i: nat, n: nat)
    requires n > 0
    ensures (x % n + i + n) % n == (x + i) % n == (x % n + i % n) % n
  {
    var q, r := (x + i) / n, (x + i) % n;
    var a, b := x / n, i / n;
    assert x == a * n + x % n && i == b * n + i % n && x + i == q * n + r;
    assert (q - a + 1) * n == q * n - a * n + n;
    assert (q - a - b) * n == q * n - a * n - b * n;
    Remainder(x % n + i + n, n, q - a + 1, r);
    Remainder(x % n + i % n, n, q - a - b, r);
  }

  lemma {:induction false} Residue(x: int, n: int)
    requires n > 0 && 0 <= x < 2 * n
    ensures x % n == if x < n then x else x - n
  {
    if x < n {
      Remainder(x, n, 0, x);
    } else {
      Remainder(x, n, 1, x - n);
    }
  }

  lemma {:induction false} WindowEntry(e: Elector, name: Name, height: nat, i: nat)
    requires e.Valid() && name in e.names && i < e.window
    ensures e.window <= |e.names| ==>
              (e.names[(height + i) % |e.names|] == name <==> e.IndexAsLeader(name, height) == Some(i))
    ensures e.names[(height + i) % |e.names|] == name ==> e.IndexAsLeader(name, height).Some?
  {
    var n := |e.names|;
    var s, p := e.LeaderIndex(height), e.Position(name);
    SameResidue(height, i, n);
    Residue(s + i % n, n);
    Residue(p + n - s, n);
    Small(i, n);
  }

  lemma {:induction false} Small(i: nat, n: nat)
    requires n > 0
    ensures i % n <= i && (i < n ==> i % n == i)
  {
    if i < n {
      Remainder(i, n, 0, i);
    }
  }

  /** How the distance to the front of the window changes from one height to the next. */
  lemma {:induction false} NextDistance(e: Elector, name: Name, height: nat)
    requires e.Valid() && name in e.names
    ensures e.Distance(name, height + 1) == if e.Distance(name, height) == 0 then |e.names| - 1 else e.Distance(name, height) - 1
  {
    var n := |e.names|;
    var s, p := e.LeaderIndex(height), e.Position(name);
    SameResidue(height, 1, n);
    Small(1, n);
    if n == 1 {
      Residue(0, 1);
    }
    Residue(s + 1 % n, n);
    Residue(p + n - s, n);
    Residue(p + n - e.LeaderIndex(height + 1), n);
  }

  /** A back-up leader moves one place forward with every height. */
  lemma {:induction false} WindowSlides(e: Elector, name: Name, height: nat, i: nat)
    requires e.Valid() && name in e.names && e.IndexAsLeader(name, height) == Some(i + 1)
    ensures e.IndexAsLeader(name, height + 1) == Some(i)
  {
    NextDistance(e, name, height);
  }

  /** Closed form of the visits among k heights when the walk starts at distance d. */
  function Visits(d: nat, n: nat, w: nat, k: nat): int {
    if k <= d then (if d - k + 1 >= w then 0 else if d + 1 >= w then w - 1 - (d - k) else k)
    else if d + 1 >= w then w + (if k - d - 1 <= n - w then 0 else k - d - 1 - (n - w))
    else d + 1 + (if k - d - 1 <= n - w then 0 else k - d - 1 - (n - w))
  }

  lemma {:induction false} WindowCount(e: Elector, name: Name, height: nat, k: nat)
    requires e.Valid() && name in e.names && e.window <= |e.names| && k <= |e.names|
    ensures var d := e.Distance(name, height);
            && (k < |e.names| ==> e.Distance(name, height + k) == if k <= d then d - k else d - k + |e.names|)
            && TimesInWindow(e, name, height, k) == Visits(d, |e.names|, e.window, k)
  {
    if k > 0 {
      WindowCount(e, name, height, k - 1);
      NextDistance(e, name, height + k - 1);
    }
  }

  /** Rotation is fair: over any n consecutive heights each of the n authorities stands in the
      window exactly `window` times. */
  lemma {:induction false} FairRotation(e: Elector, name: Name, height: nat)
    requires e.Valid() && name in e.names && e.window <= |e.names|
    ensures TimesInWindow(e, name, height, |e.names|) == e.window
  {
    WindowCount(e, name, height, |e.names|);
  }

  /** The two readings of the window agree for every height and name exactly when the window is
      not wider than the committee. */
  lemma {:induction false} WindowReadingsAgree(e: Elector)
    requires e.Valid()
    ensures (forall height: nat, name, i :: name in e.names && 0 <= i < e.window ==>
               (e.names[(height + i) % |e.names|] == name <==> e.IndexAsLeader(name, height) == Some(i)))
       <==> e.window <= |e.names|
  {
    var n := |e.names|;
    if e.window <= n {
      forall height: nat, name, i | name in e.names && 0 <= i < e.window
        ensures e.names[(height + i) % n] == name <==> e.IndexAsLeader(name, height) == Some(i)
      {
        WindowEntry(e, name, height, i);
      }
    } else {
      var name := e.names[0];
      Residue(n, n);
      assert e.names[(0 + n) % n] == name && e.IndexAsLeader(name, 0) != Some(n);
    }
  }
}
