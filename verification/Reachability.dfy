/** Walks in a finite directed graph, given as its set of edges. */
module Reachability {

  ghost predicate IsWalk<T>(r: set<(T, T)>, w: seq<T>)
  {
    |w| > 0 && (|w| == 1 || ((w[0], w[1]) in r && IsWalk(r, w[1..])))
  }

  /** There is a walk of zero or more edges from `a` to `b`. */
  ghost predicate Reaches<T(!new)>(r: set<(T, T)>, a: T, b: T)
  {
    exists w: seq<T> :: IsWalk(r, w) && w[0] == a && w[|w| - 1] == b
  }

  ghost predicate Mutual<T(!new)>(r: set<(T, T)>, a: T, b: T)
  {
    Reaches(r, a, b) && Reaches(r, b, a)
  }

  /** There is a walk of one or more edges from `a` back to itself. */
  ghost predicate OnCycle<T(!new)>(r: set<(T, T)>, a: T)
  {
    exists b: T :: (a, b) in r && Reaches(r, b, a)
  }

  ghost predicate Closed<T>(r: set<(T, T)>, s: set<T>)
  {
    forall e :: e in r && e.0 in s ==> e.1 in s
  }

  lemma ReachesSelf<T(!new)>(r: set<(T, T)>, a: T)
    ensures Reaches(r, a, a)
  {
    assert IsWalk(r, [a]);
  }

  lemma ReachesEdge<T(!new)>(r: set<(T, T)>, a: T, b: T)
    requires (a, b) in r
    ensures Reaches(r, a, b)
  {
    assert [a, b][1..] == [b];
    assert IsWalk(r, [a, b]);
  }

  lemma {:induction false} WalkAppend<T>(r: set<(T, T)>, u: seq<T>, v: seq<T>)
    requires IsWalk(r, u) && IsWalk(r, v) && u[|u| - 1] == v[0]
    ensures IsWalk(r, u + v[1..])
    ensures (u + v[1..])[0] == u[0] && (u + v[1..])[|u + v[1..]| - 1] == v[|v| - 1]
  {
    if |u| == 1 {
      assert u + v[1..] == v;
    } else {
      WalkAppend(r, u[1..], v);
      assert (u + v[1..])[1..] == u[1..] + v[1..];
    }
  }

  lemma ReachesTrans<T(!new)>(r: set<(T, T)>, a: T, b: T, c: T)
    requires Reaches(r, a, b) && Reaches(r, b, c)
    ensures Reaches(r, a, c)
  {
    var u :| IsWalk(r, u) && u[0] == a && u[|u| - 1] == b;
    var v :| IsWalk(r, v) && v[0] == b && v[|v| - 1] == c;
    WalkAppend(r, u, v);
  }

  lemma {:induction false} WalkStaysInside<T>(r: set<(T, T)>, s: set<T>, w: seq<T>)
    requires Closed(r, s) && IsWalk(r, w) && w[0] in s
    ensures w[|w| - 1] in s
  {
    if |w| > 1 {
      assert (w[0], w[1]) in r;
      WalkStaysInside(r, s, w[1..]);
    }
  }

  /** A set that no edge leaves is left by no walk. */
  lemma ClosedReaches<T(!new)>(r: set<(T, T)>, s: set<T>, a: T, b: T)
    requires Closed(r, s) && a in s && Reaches(r, a, b)
    ensures b in s
  {
    var w :| IsWalk(r, w) && w[0] == a && w[|w| - 1] == b;
    WalkStaysInside(r, s, w);
  }

  /** A walk between two different points has a first edge. */
  lemma FirstEdge<T(!new)>(r: set<(T, T)>, a: T, b: T) returns (c: T)
    requires Reaches(r, a, b) && a != b
    ensures (a, c) in r && Reaches(r, c, b)
  {
    var w :| IsWalk(r, w) && w[0] == a && w[|w| - 1] == b;
    c := w[1];
    assert IsWalk(r, w[1..]) && w[1..][0] == c && w[1..][|w[1..]| - 1] == b;
  }

  /** A nontrivial strongly connected class lies on a cycle, and a cycle lies in one class. */
  lemma OnCycleMutual<T(!new)>(r: set<(T, T)>, a: T)
    ensures OnCycle(r, a) <==> (a, a) in r || exists b :: b != a && Mutual(r, a, b)
  {
    if (a, a) in r {
      ReachesSelf(r, a);
    } else if OnCycle(r, a) {
      var b :| (a, b) in r && Reaches(r, b, a);
      ReachesEdge(r, a, b);
      assert b != a && Mutual(r, a, b);
    } else if exists b :: b != a && Mutual(r, a, b) {
      var b :| b != a && Mutual(r, a, b);
      var c := FirstEdge(r, a, b);
      ReachesTrans(r, c, b, a);
    }
  }

  /** A set that no edge enters from outside is entered by no walk. */
  ghost predicate ClosedBackwards<T>(r: set<(T, T)>, s: set<T>)
  {
    forall e :: e in r && e.1 in s ==> e.0 in s
  }

  lemma {:induction false} WalkStartsInside<T>(r: set<(T, T)>, s: set<T>, w: seq<T>)
    requires ClosedBackwards(r, s) && IsWalk(r, w) && w[|w| - 1] in s
    ensures w[0] in s
  {
    if |w| > 1 {
      assert w[1..][|w[1..]| - 1] == w[|w| - 1];
      WalkStartsInside(r, s, w[1..]);
      assert (w[0], w[1]) in r;
    }
  }

  lemma ClosedBackwardsReaches<T(!new)>(r: set<(T, T)>, s: set<T>, a: T, b: T)
    requires ClosedBackwards(r, s) && b in s && Reaches(r, a, b)
    ensures a in s
  {
    var w :| IsWalk(r, w) && w[0] == a && w[|w| - 1] == b;
    WalkStartsInside(r, s, w);
  }
}
