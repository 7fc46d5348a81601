/** Counting arguments over finite sets. */
module SetFacts {

  lemma {:induction false} SubsetCount<T>(a: set<T>, b: set<T>)
    requires a <= b
    ensures |a| <= |b|
  {
    if a != {} {
      var x :| x in a;
      SubsetCount(a - {x}, b - {x});
    }
  }

  /** As many elements as there are images, when no two elements share one. */
  lemma {:induction false} InjectionBounds<S>(s: set<S>, t: set<nat>, f: S -> nat)
    requires forall x | x in s :: f(x) in t
    requires forall x, y | x in s && y in s && f(x) == f(y) :: x == y
    ensures |s| <= |t|
  {
    if s != {} {
      var x :| x in s;
      InjectionBounds(s - {x}, t - {f(x)}, f);
    }
  }

  function Below(n: nat): (s: set<nat>)
    ensures |s| == n
    ensures forall x: nat :: x in s <==> x < n
  {
    if n == 0 then {} else Below(n - 1) + {n - 1}
  }

  lemma {:induction false} Least(s: set<nat>, x: nat) returns (least: nat)
    requires x in s
    ensures least in s && forall y | y in s :: least <= y
  {
    if y :| y in s && y < x {
      least := Least(s, y);
    } else {
      least := x;
    }
  }
}
