/** Iteration over a set of offsets in ascending order, as a B-tree set gives it. */
module OrderedSet {
  predicate IsLeast(m: int, s: set<int>) {
    m in s && forall x | x in s :: m <= x
  }

  lemma Member<T>(s: set<T>) returns (x: T)
    requires s != {}
    ensures x in s
  {
    x :| x in s;
  }

  lemma {:induction false} FindLeast(s: set<int>) returns (m: int)
    requires s != {}
    ensures IsLeast(m, s)
    decreases s
  {
    var a := Member(s);
    var below := set x | x in s && x < a;
    if below == {} {
      m := a;
      assert forall x | x in s :: x !in below;
    } else {
      assert a !in below;
      m := FindLeast(below);
      assert forall x | x in s :: x in below || a <= x;
    }
  }

  lemma LeastExists(s: set<int>)
    requires s != {}
    ensures exists m :: IsLeast(m, s)
  {
    var m := FindLeast(s);
  }

  function Least(s: set<int>): (m: int)
    requires s != {}
    ensures IsLeast(m, s)
  {
    LeastExists(s);
    var m :| IsLeast(m, s);
    m
  }

  /** The members of a set in ascending order. */
  function Ascending(s: set<int>): (r: seq<int>)
    ensures forall x :: x in r <==> x in s
    ensures forall i, j | 0 <= i < j < |r| :: r[i] < r[j]
    decreases s
  {
    if s == {} then []
    else
      var m := Least(s);
      [m] + Ascending(s - {m})
  }
}
