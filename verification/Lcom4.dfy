/** The LCOM4 cohesion count: methods of a type grouped by shared fields and by calls among themselves. */
module Lcom4 {
  import opened Basics
  import opened Reachability
  import opened UnionFind

  datatype FieldAccess = FieldAccess(from: string, to: string)

  datatype CallEdge = CallEdge(from: string, to: string, resolved: bool)

  datatype Model = Model(fieldAccesses: seq<FieldAccess>, callEdges: seq<CallEdge>)

  /** A resolved call between two methods of the type whose ids start with `prefix`. */
  predicate SameTypeCall(e: CallEdge, prefix: string)
  {
    e.resolved && prefix <= e.from && prefix <= e.to
  }

  predicate HasOwnSignal(m: Model, prefix: string, id: string)
  {
    || (exists a :: a in m.fieldAccesses && a.from == id)
    || (exists e :: e in m.callEdges && SameTypeCall(e, prefix) && (e.from == id || e.to == id))
  }

  function MethodsWithOwnSignal(ids: seq<string>, m: Model, prefix: string): (kept: seq<string>)
    ensures forall id :: id in kept <==> id in ids && HasOwnSignal(m, prefix, id)
  {
    if ids == [] then []
    else
      (if HasOwnSignal(m, prefix, ids[0]) then [ids[0]] else []) + MethodsWithOwnSignal(ids[1..], m, prefix)
  }

  // ---------------------------------------------------------------------------
  // The relation the count is about
  // ---------------------------------------------------------------------------

  /** The last listing of an id, which is the one that its accesses and calls are attributed to. */
  ghost predicate Last(ids: seq<string>, i: nat)
  {
    i < |ids| && forall k :: i < k < |ids| ==> ids[k] != ids[i]
  }

  ghost predicate ShareField(ids: seq<string>, m: Model, i: nat, j: nat)
    requires i < |ids| && j < |ids|
  {
    Last(ids, i) && Last(ids, j) &&
    exists a, b :: a in m.fieldAccesses && b in m.fieldAccesses && a.to == b.to && a.from == ids[i] && b.from == ids[j]
  }

  ghost predicate CallJoined(ids: seq<string>, m: Model, prefix: string, i: nat, j: nat)
    requires i < |ids| && j < |ids|
  {
    Last(ids, i) && Last(ids, j) &&
    exists e :: e in m.callEdges && e.resolved && prefix <= e.from && prefix <= e.to
                && ((e.from == ids[i] && e.to == ids[j]) || (e.from == ids[j] && e.to == ids[i]))
  }

  /** The methods, by position, that share a field or are joined by a resolved call within the type. */
  ghost function Cohesion(ids: seq<string>, m: Model, prefix: string): set<(nat, nat)>
  {
    set i: nat, j: nat | i < |ids| && j < |ids|
        && (ShareField(ids, m, i, j) || CallJoined(ids, m, prefix, i, j)) :: (i, j)
  }

  lemma CohesionIsSymmetric(ids: seq<string>, m: Model, prefix: string, i: nat, j: nat)
    requires (i, j) in Cohesion(ids, m, prefix)
    ensures (j, i) in Cohesion(ids, m, prefix)
  {
  }

  /** The connected component of method `i`. */
  ghost function ComponentOf(r: set<(nat, nat)>, n: nat, i: nat): set<nat>
  {
    set j: nat | j < n && Reaches(r, i, j)
  }

  ghost function Components(r: set<(nat, nat)>, n: nat): seq<set<nat>>
  {
    seq(n, i requires 0 <= i < n => ComponentOf(r, n, i))
  }

  /** The number of different elements of a sequence. */
  ghost function Count<T>(s: seq<T>): nat
  {
    |Elements(s)|
  }

  // ---------------------------------------------------------------------------
  // What the unions keep
  // ---------------------------------------------------------------------------

  /** Merged methods are connected. */
  ghost predicate Sound(r: set<(nat, nat)>, rep: seq<nat>)
  {
    forall i: nat, j: nat :: i < |rep| && j < |rep| && rep[i] == rep[j] ==> Reaches(r, i, j)
  }

  ghost predicate Symmetric(r: set<(nat, nat)>)
  {
    forall i, j :: (i, j) in r ==> (j, i) in r
  }

  lemma MergeIsSound(r: set<(nat, nat)>, rep: seq<nat>, a: nat, b: nat)
    requires Symmetric(r) && Sound(r, rep) && a < |rep| && b < |rep| && (a, b) in r
    ensures Sound(r, Merged(rep, a, b))
  {
    var m := Merged(rep, a, b);
    ReachesEdge(r, a, b);
    ReachesEdge(r, b, a);
    hide Reaches;
    forall i: nat, j: nat | i < |rep| && j < |rep| && m[i] == m[j] ensures Reaches(r, i, j) {
      if rep[i] != rep[j] {
        if rep[i] == rep[a] {
          ReachesTrans(r, i, a, b);
          ReachesTrans(r, i, b, j);
        } else {
          ReachesTrans(r, i, b, a);
          ReachesTrans(r, i, a, j);
        }
      }
    }
  }

  /** Merging separates nothing that was merged before. */
  ghost predicate Coarser(old_: seq<nat>, rep: seq<nat>)
  {
    |old_| == |rep| && forall i, j :: 0 <= i < |rep| && 0 <= j < |rep| && old_[i] == old_[j] ==> rep[i] == rep[j]
  }

  /** If everything related is merged, the merged sets are the connected components. */
  lemma RepsAreComponents(r: set<(nat, nat)>, rep: seq<nat>)
    requires Sound(r, rep)
    requires forall i: nat, j: nat :: (i, j) in r ==> i < |rep| && j < |rep| && rep[i] == rep[j]
    ensures forall i: nat, j: nat :: i < |rep| && j < |rep| ==> (rep[i] == rep[j] <==> Reaches(r, i, j))
  {
    forall i: nat, j: nat | i < |rep| && j < |rep| && Reaches(r, i, j) ensures rep[i] == rep[j] {
      var same := set k: nat | k < |rep| && rep[k] == rep[i];
      forall e | e in r && e.0 in same ensures e.1 in same {
        assert e == (e.0, e.1);
      }
      ClosedReaches(r, same, i, j);
    }
  }

  lemma CountSnoc<T>(s: seq<T>, x: T)
    ensures Count(s + [x]) == Count(s) + if x in s then 0 else 1
  {
    assert Elements(s + [x]) == Elements(s) + {x};
    if x in s {
      assert Elements(s + [x]) == Elements(s);
    }
  }

  /** Two sequences that repeat at the same places have equally many different elements. */
  lemma {:induction false} SamePatternSameCount<S, T>(s: seq<S>, t: seq<T>)
    requires |s| == |t|
    requires forall i, j :: 0 <= i < |s| && 0 <= j < |s| ==> (s[i] == s[j] <==> t[i] == t[j])
    ensures Count(s) == Count(t)
  {
    if s != [] {
      var n := |s| - 1;
      var s', t' := s[..n], t[..n];
      SamePatternSameCount(s', t');
      assert s == s' + [s[n]] && t == t' + [t[n]];
      CountSnoc(s', s[n]);
      CountSnoc(t', t[n]);
      assert s[n] in s' ==> exists i :: 0 <= i < n && s[i] == s[n] && t[i] == t'[i];
      assert t[n] in t' ==> exists i :: 0 <= i < n && t[i] == t[n] && s[i] == s'[i];
      hide Count;
    }
  }

  lemma SameComponent(r: set<(nat, nat)>, n: nat, i: nat, j: nat)
    requires Symmetric(r) && i < n && j < n
    ensures ComponentOf(r, n, i) == ComponentOf(r, n, j) <==> Reaches(r, i, j)
  {
    ReachesSelf(r, j);
    hide Reaches;
    if Reaches(r, i, j) {
      ReachesBack(r, i, j);
      forall k: nat | k < n ensures Reaches(r, i, k) <==> Reaches(r, j, k) {
        if Reaches(r, i, k) {
          ReachesTrans(r, j, i, k);
        }
        if Reaches(r, j, k) {
          ReachesTrans(r, i, j, k);
        }
      }
    } else {
      assert j in ComponentOf(r, n, j);
    }
  }

  lemma {:induction false} WalkBack(r: set<(nat, nat)>, w: seq<nat>)
    requires Symmetric(r) && IsWalk(r, w)
    ensures Reaches(r, w[|w| - 1], w[0])
  {
    if |w| == 1 {
      ReachesSelf(r, w[0]);
    } else {
      WalkBack(r, w[1..]);
      ReachesEdge(r, w[1], w[0]);
      hide Reaches;
      ReachesTrans(r, w[|w| - 1], w[1], w[0]);
    }
  }

  lemma ReachesBack(r: set<(nat, nat)>, i: nat, j: nat)
    requires Symmetric(r) && Reaches(r, i, j)
    ensures Reaches(r, j, i)
  {
    var w :| IsWalk(r, w) && w[0] == i && w[|w| - 1] == j;
    WalkBack(r, w);
  }

  lemma CountOfReps(r: set<(nat, nat)>, rep: seq<nat>)
    requires Symmetric(r) && Sound(r, rep)
    requires forall i: nat, j: nat :: (i, j) in r ==> i < |rep| && j < |rep| && rep[i] == rep[j]
    ensures Count(rep) == Count(Components(r, |rep|))
  {
    RepsAreComponents(r, rep);
    hide Reaches;
    var c := Components(r, |rep|);
    forall i, j | 0 <= i < |rep| && 0 <= j < |rep| ensures rep[i] == rep[j] <==> c[i] == c[j] {
      SameComponent(r, |rep|, i, j);
    }
    SamePatternSameCount(rep, c);
  }

  // ---------------------------------------------------------------------------
  // Repeated listings
  // ---------------------------------------------------------------------------

  /** The positions of last listings among the first `n`. */
  ghost function Places(ids: seq<string>, n: nat): (p: seq<nat>)
    requires n <= |ids|
    ensures |p| <= n && forall k :: 0 <= k < |p| ==> p[k] < n && Last(ids, p[k])
  {
    if n == 0 then [] else Places(ids, n - 1) + if Last(ids, n - 1) then [n - 1] else []
  }

  /** Each method once, in the order of last listings. */
  ghost function Methods(ids: seq<string>): (methods: seq<string>)
    ensures |methods| == |Places(ids, |ids|)| <= |ids|
  {
    seq(|Places(ids, |ids|)|, k requires 0 <= k < |Places(ids, |ids|)| => ids[Places(ids, |ids|)[k]])
  }

  lemma {:induction false} PlacesAreAll(ids: seq<string>, n: nat, i: nat)
    requires i < n <= |ids| && Last(ids, i)
    ensures i in Places(ids, n)
  {
    if i < n - 1 {
      PlacesAreAll(ids, n - 1, i);
    }
  }

  lemma {:induction false} PlacesAscend(ids: seq<string>, n: nat, k: nat, l: nat)
    requires n <= |ids| && k < l < |Places(ids, n)|
    ensures Places(ids, n)[k] < Places(ids, n)[l]
  {
    if l < |Places(ids, n - 1)| {
      PlacesAscend(ids, n - 1, k, l);
    }
  }

  /** The methods are the listed ids, each once. */
  lemma MethodsAreDistinct(ids: seq<string>)
    ensures NoDuplicates(Methods(ids)) && forall id :: id in Methods(ids) <==> id in ids
  {
    var p, d := Places(ids, |ids|), Methods(ids);
    forall k, l | 0 <= k < l < |d| ensures d[k] != d[l] {
      PlacesAscend(ids, |ids|, k, l);
      assert Last(ids, p[k]);
    }
    forall id | id in ids ensures id in d {
      var i := LastListing(ids, id);
      PlacesAreAll(ids, |ids|, i);
      var k :| 0 <= k < |p| && p[k] == i;
      assert d[k] == id;
    }
  }

  lemma {:induction false} EveryPlace(ids: seq<string>, n: nat)
    requires NoDuplicates(ids) && n <= |ids|
    ensures |Places(ids, n)| == n && forall k :: 0 <= k < n ==> Places(ids, n)[k] == k
  {
    if n > 0 {
      EveryPlace(ids, n - 1);
    }
  }

  /** Distinct ids are the methods themselves; only then no listing comes before the last of its method. */
  lemma DistinctIffMethods(ids: seq<string>)
    ensures NoDuplicates(ids) <==> |Methods(ids)| == |ids|
    ensures NoDuplicates(ids) ==> Methods(ids) == ids
  {
    if NoDuplicates(ids) {
      EveryPlace(ids, |ids|);
    } else {
      var i, j :| 0 <= i < j < |ids| && ids[i] == ids[j];
      MissesPlace(ids, |ids|, i);
    }
  }

  lemma {:induction false} MissesPlace(ids: seq<string>, n: nat, i: nat)
    requires i < n <= |ids| && !Last(ids, i)
    ensures |Places(ids, n)| < n
  {
    if i < n - 1 {
      MissesPlace(ids, n - 1, i);
    }
  }

  lemma EdgesAreLast(ids: seq<string>, m: Model, prefix: string, i: nat, j: nat)
    requires (i, j) in Cohesion(ids, m, prefix)
    ensures Last(ids, i) && Last(ids, j)
  {
  }

  /** An earlier listing is a component of its own. */
  lemma EarlierIsAlone(ids: seq<string>, m: Model, prefix: string, i: nat)
    requires i < |ids| && !Last(ids, i)
    ensures ComponentOf(Cohesion(ids, m, prefix), |ids|, i) == {i}
  {
    hide Cohesion;
    var r := Cohesion(ids, m, prefix);
    ReachesSelf(r, i);
    forall j: nat | j < |ids| && Reaches(r, i, j) ensures j == i {
      if j != i {
        var k := FirstEdge(r, i, j);
        EdgesAreLast(ids, m, prefix, i, k);
      }
    }
  }

  ghost function Selected<T>(c: seq<T>, p: seq<nat>): (s: seq<T>)
    requires forall k :: 0 <= k < |p| ==> p[k] < |c|
    ensures |s| == |p|
  {
    seq(|p|, k requires 0 <= k < |p| => c[p[k]])
  }

  lemma HoldsItself(r: set<(nat, nat)>, n: nat, i: nat)
    requires i < n
    ensures i in ComponentOf(r, n, i)
  {
    ReachesSelf(r, i);
  }

  /** Among the first `n` listings: the components of last listings, and one for every other. */
  lemma {:induction false} CountListings(ids: seq<string>, m: Model, prefix: string, n: nat)
    requires n <= |ids|
    ensures var c := Components(Cohesion(ids, m, prefix), |ids|);
            Count(c[..n]) == Count(Selected(c, Places(ids, n))) + (n - |Places(ids, n)|)
  {
    hide Cohesion, ComponentOf, Count, Last;
    var r := Cohesion(ids, m, prefix);
    var c := Components(r, |ids|);
    if n > 0 {
      var i, p := n - 1, Places(ids, n - 1);
      CountListings(ids, m, prefix, i);
      assert c[..n] == c[..i] + [c[i]];
      CountSnoc(c[..i], c[i]);
      HoldsItself(r, |ids|, i);
      if Last(ids, i) {
        assert Selected(c, Places(ids, n)) == Selected(c, p) + [c[i]];
        CountSnoc(Selected(c, p), c[i]);
        SeenAmongLast(ids, m, prefix, i);
      } else {
        EarlierIsAlone(ids, m, prefix, i);
        forall j | 0 <= j < i ensures c[j] != c[i] {
          HoldsItself(r, |ids|, j);
        }
        assert c[i] !in c[..i] && Places(ids, n) == p;
      }
    }
  }

  lemma SeenAmongLast(ids: seq<string>, m: Model, prefix: string, i: nat)
    requires i < |ids|
    ensures var c := Components(Cohesion(ids, m, prefix), |ids|);
            c[i] in c[..i] <==> c[i] in Selected(c, Places(ids, i))
  {
    hide Cohesion, ComponentOf;
    var r := Cohesion(ids, m, prefix);
    var c, p := Components(r, |ids|), Places(ids, i);
    if c[i] in c[..i] {
      var j: nat :| j < i && c[j] == c[i];
      HoldsItself(r, |ids|, i);
      if !Last(ids, j) {
        EarlierIsAlone(ids, m, prefix, j);
      }
      PlacesAreAll(ids, i, j);
      var k :| 0 <= k < |p| && p[k] == j;
      assert Selected(c, p)[k] == c[i];
    }
    if c[i] in Selected(c, p) {
      var k :| 0 <= k < |p| && Selected(c, p)[k] == c[i];
      assert c[..i][p[k]] == c[i];
    }
  }

  /** Two last listings are related exactly when their methods are. */
  lemma SameRelation(ids: seq<string>, m: Model, prefix: string, k: nat, l: nat)
    requires k < |Methods(ids)| && l < |Methods(ids)|
    ensures var p := Places(ids, |ids|);
            (p[k], p[l]) in Cohesion(ids, m, prefix) <==> (k, l) in Cohesion(Methods(ids), m, prefix)
  {
    MethodsAreDistinct(ids);
    var p, d := Places(ids, |ids|), Methods(ids);
    assert Last(d, k) && Last(d, l) && Last(ids, p[k]) && Last(ids, p[l]);
    assert d[k] == ids[p[k]] && d[l] == ids[p[l]];
    hide Last, SameTypeCall;
  }

  lemma {:induction false} WalkOfMethods(ids: seq<string>, m: Model, prefix: string, w: seq<nat>)
    requires IsWalk(Cohesion(Methods(ids), m, prefix), w) && forall k :: 0 <= k < |w| ==> w[k] < |Methods(ids)|
    ensures Reaches(Cohesion(ids, m, prefix), Places(ids, |ids|)[w[0]], Places(ids, |ids|)[w[|w| - 1]])
  {
    hide Cohesion;
    var r, p := Cohesion(ids, m, prefix), Places(ids, |ids|);
    ReachesSelf(r, p[w[0]]);
    if |w| > 1 {
      WalkOfMethods(ids, m, prefix, w[1..]);
      SameRelation(ids, m, prefix, w[0], w[1]);
      ReachesEdge(r, p[w[0]], p[w[1]]);
      hide Reaches;
      ReachesTrans(r, p[w[0]], p[w[1]], p[w[|w| - 1]]);
    }
  }

  lemma {:induction false} WalkOfListings(ids: seq<string>, m: Model, prefix: string, w: seq<nat>, k: nat)
      returns (l: nat)
    requires IsWalk(Cohesion(ids, m, prefix), w) && k < |Methods(ids)| && w[0] == Places(ids, |ids|)[k]
    ensures l < |Methods(ids)| && w[|w| - 1] == Places(ids, |ids|)[l]
    ensures Reaches(Cohesion(Methods(ids), m, prefix), k, l)
  {
    hide Cohesion, Last;
    var r, p := Cohesion(Methods(ids), m, prefix), Places(ids, |ids|);
    ReachesSelf(r, k);
    if |w| == 1 {
      return k;
    }
    EdgesAreLast(ids, m, prefix, w[0], w[1]);
    PlacesAreAll(ids, |ids|, w[1]);
    var j: nat :| j < |p| && p[j] == w[1];
    SameRelation(ids, m, prefix, k, j);
    ReachesEdge(r, k, j);
    hide Reaches;
    l := WalkOfListings(ids, m, prefix, w[1..], j);
    ReachesTrans(r, k, j, l);
  }

  lemma SameReach(ids: seq<string>, m: Model, prefix: string, k: nat, l: nat)
    requires k < |Methods(ids)| && l < |Methods(ids)|
    ensures var p := Places(ids, |ids|);
            Reaches(Cohesion(ids, m, prefix), p[k], p[l]) <==> Reaches(Cohesion(Methods(ids), m, prefix), k, l)
  {
    var r, p := Cohesion(ids, m, prefix), Places(ids, |ids|);
    hide Cohesion, Methods;
    if Reaches(r, p[k], p[l]) {
      var w :| IsWalk(r, w) && w[0] == p[k] && w[|w| - 1] == p[l];
      var j := WalkOfListings(ids, m, prefix, w, k);
      if j < l {
        PlacesAscend(ids, |ids|, j, l);
      } else if l < j {
        PlacesAscend(ids, |ids|, l, j);
      }
    }
    if Reaches(Cohesion(Methods(ids), m, prefix), k, l) {
      var w :| IsWalk(Cohesion(Methods(ids), m, prefix), w) && w[0] == k && w[|w| - 1] == l;
      WalkInside(ids, m, prefix, w);
      WalkOfMethods(ids, m, prefix, w);
    }
  }

  lemma {:induction false} WalkInside(ids: seq<string>, m: Model, prefix: string, w: seq<nat>)
    requires IsWalk(Cohesion(Methods(ids), m, prefix), w) && w[0] < |Methods(ids)|
    ensures forall k :: 0 <= k < |w| ==> w[k] < |Methods(ids)|
  {
    if |w| > 1 {
      assert (w[0], w[1]) in Cohesion(Methods(ids), m, prefix);
      hide Methods;
      WalkInside(ids, m, prefix, w[1..]);
      forall k | 0 <= k < |w| ensures w[k] < |Methods(ids)| {
        assert k > 0 ==> w[k] == w[1..][k - 1];
      }
    }
  }

  lemma RepeatedListingsCount(ids: seq<string>, m: Model, prefix: string)
    ensures Count(Components(Cohesion(ids, m, prefix), |ids|))
            == Count(Components(Cohesion(Methods(ids), m, prefix), |Methods(ids)|)) + (|ids| - |Methods(ids)|)
  {
    hide Cohesion, ComponentOf, Count, Reaches, Symmetric, Methods;
    var r, q, p := Cohesion(ids, m, prefix), Cohesion(Methods(ids), m, prefix), Places(ids, |ids|);
    var c, d := Components(r, |ids|), Components(q, |p|);
    CountListings(ids, m, prefix, |ids|);
    assert c[..|ids|] == c;
    CohesionSymmetric(ids, m, prefix);
    CohesionSymmetric(Methods(ids), m, prefix);
    var s := Selected(c, p);
    forall k, l | 0 <= k < |p| && 0 <= l < |p| ensures s[k] == s[l] <==> d[k] == d[l] {
      SameComponent(r, |ids|, p[k], p[l]);
      SameComponent(q, |p|, k, l);
      SameReach(ids, m, prefix, k, l);
    }
    SamePatternSameCount(s, d);
  }

  /** So the count is that of the methods exactly when no method is listed twice. */
  lemma CountIsExactIff(ids: seq<string>, m: Model, prefix: string, count: nat)
    requires count == Count(Components(Cohesion(Methods(ids), m, prefix), |Methods(ids)|)) + (|ids| - |Methods(ids)|)
    ensures count == Count(Components(Cohesion(Methods(ids), m, prefix), |Methods(ids)|)) <==> NoDuplicates(ids)
    ensures NoDuplicates(ids) ==> count == Count(Components(Cohesion(ids, m, prefix), |ids|))
  {
    hide Cohesion, Methods;
    DistinctIffMethods(ids);
  }

  /** One method declared in two files for different platforms is listed twice, and counts as two components. */
  lemma DeclaredTwice(id: string, m: Model, prefix: string)
    ensures Methods([id, id]) == [id]
    ensures Count(Components(Cohesion([id], m, prefix), 1)) == 1
    ensures Count(Components(Cohesion([id, id], m, prefix), 2)) == 2
  {
    hide Cohesion;
    var ids := [id, id];
    assert |ids| == 2 && ids[0] == ids[1] == id;
    assert !Last(ids, 0);
    assert Last(ids, 1);
    assert Places(ids, 0) == [] && Places(ids, 1) == [];
    assert Places(ids, 2) == [1] && Methods(ids) == [id];
    var c := Components(Cohesion([id], m, prefix), 1);
    assert |c| == 1 && Elements(c) == {c[0]};
    RepeatedListingsCount(ids, m, prefix);
  }

  // ---------------------------------------------------------------------------
  // The algorithm
  // ---------------------------------------------------------------------------

  ghost predicate IsIndex(index: map<string, nat>, ids: seq<string>)
  {
    && (forall id :: id in index ==> index[id] < |ids| && ids[index[id]] == id && Last(ids, index[id]))
    && (forall i :: 0 <= i < |ids| ==> ids[i] in index && (Last(ids, i) ==> index[ids[i]] == i))
  }

  /** A repeated id keeps the position of its last listing. */
  method BuildIndex(ids: seq<string>) returns (index: map<string, nat>)
    ensures IsIndex(index, ids)
  {
    index := map[];
    for i := 0 to |ids|
      invariant forall id :: id in index ==> index[id] < i && ids[index[id]] == id
      invariant forall id, k :: id in index && index[id] < k < i ==> ids[k] != id
      invariant forall k :: 0 <= k < i ==> ids[k] in index
    {
      index := index[ids[i] := i];
    }
  }

  ghost predicate InGroup(groups: map<string, seq<nat>>, f: string, k: nat)
  {
    f in groups && k in groups[f]
  }

  /** `groups` lists, for each accessed field, the positions of the methods that access it. */
  ghost predicate IsGrouping(groups: map<string, seq<nat>>, accesses: seq<FieldAccess>, ids: seq<string>)
  {
    forall f, k: nat {:trigger InGroup(groups, f, k)} ::
      InGroup(groups, f, k) <==> Last(ids, k) && FieldAccess(ids[k], f) in accesses
  }

  /** The groups after one more access. */
  function Grouped(groups: map<string, seq<nat>>, access: FieldAccess, index: map<string, nat>): map<string, seq<nat>>
  {
    if access.from in index
    then groups[access.to := (if access.to in groups then groups[access.to] else []) + [index[access.from]]]
    else groups
  }

  lemma GroupedMembers(groups: map<string, seq<nat>>, access: FieldAccess, index: map<string, nat>, f: string, k: nat)
    ensures InGroup(Grouped(groups, access, index), f, k)
            <==> InGroup(groups, f, k) || (f == access.to && access.from in index && k == index[access.from])
  {
  }

  lemma GroupingStep(groups: map<string, seq<nat>>, accesses: seq<FieldAccess>, access: FieldAccess,
                     index: map<string, nat>, ids: seq<string>)
    requires IsGrouping(groups, accesses, ids) && IsIndex(index, ids)
    ensures IsGrouping(Grouped(groups, access, index), accesses + [access], ids)
  {
    hide Grouped;
    var all, next := accesses + [access], Grouped(groups, access, index);
    forall f, k: nat ensures InGroup(next, f, k) <==> Last(ids, k) && FieldAccess(ids[k], f) in all {
      GroupedMembers(groups, access, index, f, k);
      assert InGroup(groups, f, k) <==> Last(ids, k) && FieldAccess(ids[k], f) in accesses;
    }
  }

  method GroupByField(index: map<string, nat>, accesses: seq<FieldAccess>, ghost ids: seq<string>)
    returns (groups: map<string, seq<nat>>)
    requires IsIndex(index, ids)
    ensures IsGrouping(groups, accesses, ids)
    ensures forall f :: f in groups ==> groups[f] != []
  {
    groups := map[];
    for i := 0 to |accesses|
      invariant IsGrouping(groups, accesses[..i], ids)
      invariant forall f :: f in groups ==> groups[f] != []
    {
      var access := accesses[i];
      assert accesses[..i + 1] == accesses[..i] + [access];
      GroupingStep(groups, accesses[..i], access, index, ids);
      if access.from in index {
        var members := if access.to in groups then groups[access.to] else [];
        groups := groups[access.to := members + [index[access.from]]];
      }
    }
    assert accesses[..|accesses|] == accesses;
  }

  /** All of `members` are in one set. */
  ghost predicate Together(rep: seq<nat>, members: seq<nat>)
  {
    forall p: nat, q: nat :: p in members && q in members ==> p < |rep| && q < |rep| && rep[p] == rep[q]
  }

  /** The state of the unions: a forest whose sets are connected and at least as coarse as those of `rep0`. */
  ghost predicate Progress(r: set<(nat, nat)>, rep0: seq<nat>, parent: seq<nat>, t: Shape)
  {
    IsForest(parent, t) && |t.rep| == |parent| && Sound(r, t.rep) && Coarser(rep0, t.rep)
  }

  lemma ProgressRebase(r: set<(nat, nat)>, rep0: seq<nat>, parent: seq<nat>, t: Shape)
    requires Progress(r, rep0, parent, t)
    ensures |rep0| == |t.rep| == |parent| && Progress(r, t.rep, parent, t) && Coarser(rep0, t.rep)
  {
    hide IsForest, Sound;
  }

  lemma CoarserTrans(rep0: seq<nat>, rep1: seq<nat>, rep2: seq<nat>)
    requires Coarser(rep0, rep1) && Coarser(rep1, rep2)
    ensures Coarser(rep0, rep2)
  {
  }

  lemma TogetherStays(rep: seq<nat>, rep': seq<nat>, members: seq<nat>)
    requires Together(rep, members) && Coarser(rep, rep')
    ensures Together(rep', members)
  {
  }

  lemma MergeIsCoarser(rep0: seq<nat>, rep: seq<nat>, a: nat, b: nat)
    requires Coarser(rep0, rep) && a < |rep| && b < |rep|
    ensures Coarser(rep0, Merged(rep, a, b)) && Coarser(rep, Merged(rep, a, b))
    ensures Merged(rep, a, b)[a] == Merged(rep, a, b)[b]
  {
  }

  /** One union of two related methods. */
  method Join(parent: array<nat>, a: nat, b: nat, ghost r: set<(nat, nat)>, ghost rep0: seq<nat>, ghost s: Shape)
    returns (ghost t: Shape)
    requires Progress(r, rep0, parent[..], s) && Symmetric(r) && (a, b) in r && a < parent.Length && b < parent.Length
    modifies parent
    ensures Progress(r, rep0, parent[..], t) && |t.rep| == |s.rep| == parent.Length
    ensures Coarser(s.rep, t.rep) && t.rep[a] == t.rep[b]
  {
    hide Sound, Reaches, Coarser, Symmetric, IsForest, Merged;
    MergeIsSound(r, s.rep, a, b);
    MergeIsCoarser(rep0, s.rep, a, b);
    t := Union(parent, a, b, s);
  }

  lemma TogetherGrows(rep: seq<nat>, rep': seq<nat>, members: seq<nat>, k: nat)
    requires k + 1 < |members| && Together(rep, members[..k + 1]) && Coarser(rep, rep')
    requires members[k] < |rep'| && members[k + 1] < |rep'| && rep'[members[k]] == rep'[members[k + 1]]
    ensures Together(rep', members[..k + 2])
  {
    TogetherStays(rep, rep', members[..k + 1]);
    assert members[..k + 2] == members[..k + 1] + [members[k + 1]];
    assert members[k] in members[..k + 1];
  }

  /** Merging neighbours in a list merges the whole list. */
  method UnionNeighbours(parent: array<nat>, members: seq<nat>, ghost r: set<(nat, nat)>, ghost rep0: seq<nat>,
                         ghost s: Shape)
    returns (ghost t: Shape)
    requires Progress(r, rep0, parent[..], s) && Symmetric(r)
    requires forall p: nat :: p in members ==> p < parent.Length
    requires forall p: nat, q: nat :: p in members && q in members ==> (p, q) in r
    modifies parent
    ensures Progress(r, rep0, parent[..], t) && Coarser(s.rep, t.rep)
    ensures Together(t.rep, members)
  {
    hide Progress, Symmetric, Coarser;
    t := s;
    ProgressRebase(r, rep0, parent[..], s);
    SameIsCoarser(s.rep);
    if members == [] {
      return;
    }
    assert members[0] in members;
    var k := 0;
    while k + 1 < |members|
      invariant 0 <= k < |members|
      invariant Progress(r, rep0, parent[..], t) && Coarser(s.rep, t.rep) && |t.rep| == parent.Length
      invariant Together(t.rep, members[..k + 1])
      decreases |members| - k
    {
      var a, b := members[k], members[k + 1];
      assert a in members && b in members;
      ghost var before := t.rep;
      t := Join(parent, a, b, r, rep0, t);
      CoarserTrans(s.rep, before, t.rep);
      TogetherGrows(before, t.rep, members, k);
      k := k + 1;
    }
    assert members[..k + 1] == members;
  }

  lemma GroupMember(groups: map<string, seq<nat>>, accesses: seq<FieldAccess>, ids: seq<string>, f: string, k: nat)
    requires IsGrouping(groups, accesses, ids) && f in groups && k in groups[f]
    ensures Last(ids, k) && FieldAccess(ids[k], f) in accesses
  {
    assert InGroup(groups, f, k);
  }

  lemma GroupIsRelated(groups: map<string, seq<nat>>, ids: seq<string>, m: Model, prefix: string, f: string)
    requires IsGrouping(groups, m.fieldAccesses, ids) && f in groups
    ensures forall p: nat :: p in groups[f] ==> p < |ids|
    ensures forall p: nat, q: nat :: p in groups[f] && q in groups[f] ==> (p, q) in Cohesion(ids, m, prefix)
  {
    forall p: nat, q: nat | p in groups[f] && q in groups[f]
      ensures p < |ids| && q < |ids| && ShareField(ids, m, p, q)
    {
      GroupMember(groups, m.fieldAccesses, ids, f, p);
      GroupMember(groups, m.fieldAccesses, ids, f, q);
      assert FieldAccess(ids[p], f) in m.fieldAccesses && FieldAccess(ids[q], f) in m.fieldAccesses;
    }
  }

  /** Merges the methods of each field; the order in which fields come is not fixed. */
  method UnionSharedFieldAccesses(index: map<string, nat>, m: Model, parent: array<nat>,
                                  ghost ids: seq<string>, ghost prefix: string, ghost s: Shape)
    returns (found: bool, ghost t: Shape)
    requires IsIndex(index, ids) && parent.Length == |ids|
    requires Progress(Cohesion(ids, m, prefix), s.rep, parent[..], s)
    modifies parent
    ensures Progress(Cohesion(ids, m, prefix), s.rep, parent[..], t)
    ensures |t.rep| == |ids|
    ensures forall i: nat, j: nat :: i < |ids| && j < |ids| && ShareField(ids, m, i, j) ==> t.rep[i] == t.rep[j]
    ensures found <==> exists a :: a in m.fieldAccesses && a.from in ids
  {
    hide Progress, Reaches, Cohesion, IsGrouping, ShareField, Symmetric, Coarser, Together, IsIndex;
    var groups := GroupByField(index, m.fieldAccesses, ids);
    ghost var r := Cohesion(ids, m, prefix);
    CohesionSymmetric(ids, m, prefix);
    t := s;
    var rest := groups.Keys;
    while rest != {}
      invariant rest <= groups.Keys
      invariant Progress(r, s.rep, parent[..], t)
      invariant forall f :: f in groups && f !in rest ==> Together(t.rep, groups[f])
      decreases |rest|
    {
      var f :| f in rest;
      GroupIsRelated(groups, ids, m, prefix, f);
      ghost var before := t.rep;
      t := UnionNeighbours(parent, groups[f], r, s.rep, t);
      forall g | g in groups && g !in rest ensures Together(t.rep, groups[g]) {
        TogetherStays(before, t.rep, groups[g]);
      }
      rest := rest - {f};
    }
    ProgressRebase(r, s.rep, parent[..], t);
    AllGroupsTogether(groups, ids, m, t.rep);
    found := groups != map[];
    FoundIff(groups, m.fieldAccesses, ids);
  }

  lemma CohesionSymmetric(ids: seq<string>, m: Model, prefix: string)
    ensures Symmetric(Cohesion(ids, m, prefix))
  {
    forall i, j | (i, j) in Cohesion(ids, m, prefix) ensures (j, i) in Cohesion(ids, m, prefix) {
      CohesionIsSymmetric(ids, m, prefix, i, j);
    }
  }

  lemma AllGroupsTogether(groups: map<string, seq<nat>>, ids: seq<string>, m: Model, rep: seq<nat>)
    requires IsGrouping(groups, m.fieldAccesses, ids) && |rep| == |ids|
    requires forall f :: f in groups ==> Together(rep, groups[f])
    ensures forall i: nat, j: nat :: i < |ids| && j < |ids| && ShareField(ids, m, i, j) ==> rep[i] == rep[j]
  {
    forall i: nat, j: nat | i < |ids| && j < |ids| && ShareField(ids, m, i, j) ensures rep[i] == rep[j] {
      var a, b :| a in m.fieldAccesses && b in m.fieldAccesses && a.to == b.to && a.from == ids[i] && b.from == ids[j];
      assert a == FieldAccess(ids[i], a.to) && b == FieldAccess(ids[j], a.to);
      assert InGroup(groups, a.to, i) && InGroup(groups, a.to, j);
    }
  }

  lemma {:induction false} LastListing(ids: seq<string>, id: string) returns (k: nat)
    requires id in ids
    ensures Last(ids, k) && ids[k] == id
  {
    var n := |ids| - 1;
    if ids[n] == id {
      k := n;
    } else {
      assert ids == ids[..n] + [ids[n]];
      k := LastListing(ids[..n], id);
    }
  }

  lemma FoundIff(groups: map<string, seq<nat>>, accesses: seq<FieldAccess>, ids: seq<string>)
    requires IsGrouping(groups, accesses, ids)
    requires forall f :: f in groups ==> groups[f] != []
    ensures groups != map[] <==> exists a :: a in accesses && a.from in ids
  {
    if groups != map[] {
      var f :| f in groups;
      var k := groups[f][0];
      GroupMember(groups, accesses, ids, f, k);
      assert FieldAccess(ids[k], f).from in ids;
    }
    if exists a :: a in accesses && a.from in ids {
      var a :| a in accesses && a.from in ids;
      var k := LastListing(ids, a.from);
      assert a == FieldAccess(ids[k], a.to);
      assert InGroup(groups, a.to, k);
    }
  }

  /** An edge that `union_same_type_calls` acts on. */
  predicate Relevant(e: CallEdge, prefix: string, index: map<string, nat>)
  {
    SameTypeCall(e, prefix) && e.from in index && e.to in index
  }

  /** The relevant edges among the first `i` have joined their ends. */
  ghost predicate EdgesJoined(edges: seq<CallEdge>, i: nat, prefix: string, index: map<string, nat>, rep: seq<nat>)
  {
    forall k :: 0 <= k < i && k < |edges| && Relevant(edges[k], prefix, index) ==>
      var a, b := index[edges[k].from], index[edges[k].to];
      a < |rep| && b < |rep| && rep[a] == rep[b]
  }

  lemma JoinedStays(edges: seq<CallEdge>, i: nat, prefix: string, index: map<string, nat>, rep: seq<nat>,
                    rep': seq<nat>)
    requires EdgesJoined(edges, i, prefix, index, rep) && Coarser(rep, rep') && i < |edges|
    requires Relevant(edges[i], prefix, index) ==>
               var a, b := index[edges[i].from], index[edges[i].to]; a < |rep'| && b < |rep'| && rep'[a] == rep'[b]
    ensures EdgesJoined(edges, i + 1, prefix, index, rep')
  {
    hide SameTypeCall;
    forall k | 0 <= k < i + 1 && Relevant(edges[k], prefix, index)
      ensures var a, b := index[edges[k].from], index[edges[k].to]; a < |rep'| && b < |rep'| && rep'[a] == rep'[b]
    {
      if k < i {
        var a, b := index[edges[k].from], index[edges[k].to];
        assert a < |rep| && b < |rep| && rep[a] == rep[b];
      }
    }
  }

  method UnionSameTypeCalls(index: map<string, nat>, m: Model, prefix: string, parent: array<nat>,
                            ghost ids: seq<string>, ghost rep0: seq<nat>, ghost s: Shape)
    returns (found: bool, ghost t: Shape)
    requires IsIndex(index, ids) && parent.Length == |ids|
    requires Progress(Cohesion(ids, m, prefix), rep0, parent[..], s)
    modifies parent
    ensures Progress(Cohesion(ids, m, prefix), rep0, parent[..], t) && Coarser(s.rep, t.rep)
    ensures |t.rep| == |ids|
    ensures forall i: nat, j: nat :: i < |ids| && j < |ids| && CallJoined(ids, m, prefix, i, j) ==> t.rep[i] == t.rep[j]
    ensures found <==> exists e :: e in m.callEdges && SameTypeCall(e, prefix) && e.from in ids && e.to in ids
  {
    hide Progress, Reaches, Cohesion, Symmetric, Coarser, EdgesJoined, CallJoined, SameTypeCall;
    ghost var r := Cohesion(ids, m, prefix);
    CohesionSymmetric(ids, m, prefix);
    found := false;
    t := s;
    ProgressRebase(r, rep0, parent[..], s);
    NothingJoined(m.callEdges, prefix, index, s.rep);
    for i := 0 to |m.callEdges|
      invariant Progress(r, rep0, parent[..], t) && Coarser(s.rep, t.rep) && |t.rep| == |ids|
      invariant found <==> exists k :: 0 <= k < i && Relevant(m.callEdges[k], prefix, index)
      invariant EdgesJoined(m.callEdges, i, prefix, index, t.rep)
    {
      var edge := m.callEdges[i];
      ghost var before := t.rep;
      if Relevant(edge, prefix, index) {
        found := true;
        EdgeIsRelated(ids, m, prefix, i, index[edge.from], index[edge.to]);
        t := Join(parent, index[edge.from], index[edge.to], r, rep0, t);
        CoarserTrans(s.rep, before, t.rep);
      } else {
        ProgressRebase(r, rep0, parent[..], t);
        SameIsCoarser(t.rep);
      }
      JoinedStays(m.callEdges, i, prefix, index, before, t.rep);
    }
    AllEdgesJoined(index, ids, m, prefix, t.rep);
  }

  lemma SameIsCoarser(rep: seq<nat>)
    ensures Coarser(rep, rep)
  {
  }

  lemma NothingJoined(edges: seq<CallEdge>, prefix: string, index: map<string, nat>, rep: seq<nat>)
    ensures EdgesJoined(edges, 0, prefix, index, rep) && Coarser(rep, rep)
  {
  }

  lemma AllEdgesJoined(index: map<string, nat>, ids: seq<string>, m: Model, prefix: string, rep: seq<nat>)
    requires IsIndex(index, ids) && |rep| == |ids| && EdgesJoined(m.callEdges, |m.callEdges|, prefix, index, rep)
    ensures forall i: nat, j: nat :: i < |ids| && j < |ids| && CallJoined(ids, m, prefix, i, j) ==> rep[i] == rep[j]
    ensures (exists k :: 0 <= k < |m.callEdges| && Relevant(m.callEdges[k], prefix, index))
            <==> exists e :: e in m.callEdges && SameTypeCall(e, prefix) && e.from in ids && e.to in ids
  {
    forall i: nat, j: nat | i < |ids| && j < |ids| && CallJoined(ids, m, prefix, i, j) ensures rep[i] == rep[j] {
      var e :| e in m.callEdges && e.resolved && prefix <= e.from && prefix <= e.to
               && ((e.from == ids[i] && e.to == ids[j]) || (e.from == ids[j] && e.to == ids[i]));
      var k :| 0 <= k < |m.callEdges| && m.callEdges[k] == e;
      assert Relevant(m.callEdges[k], prefix, index);
    }
    if exists e :: e in m.callEdges && SameTypeCall(e, prefix) && e.from in ids && e.to in ids {
      var e :| e in m.callEdges && SameTypeCall(e, prefix) && e.from in ids && e.to in ids;
      var k :| 0 <= k < |m.callEdges| && m.callEdges[k] == e;
      assert Relevant(m.callEdges[k], prefix, index);
    }
  }

  lemma EdgeIsRelated(ids: seq<string>, m: Model, prefix: string, k: nat, i: nat, j: nat)
    requires k < |m.callEdges| && SameTypeCall(m.callEdges[k], prefix) && Last(ids, i) && Last(ids, j)
    requires m.callEdges[k].from == ids[i] && m.callEdges[k].to == ids[j]
    ensures (i, j) in Cohesion(ids, m, prefix)
  {
    assert m.callEdges[k] in m.callEdges;
    assert CallJoined(ids, m, prefix, i, j);
  }

  /** The number of distinct roots. */
  method CountRoots(parent: array<nat>, ghost s: Shape) returns (count: nat)
    requires IsForest(parent[..], s) && |s.rep| == parent.Length
    modifies parent
    ensures count == Count(s.rep)
  {
    hide IsForest;
    var roots: set<nat> := {};
    for i := 0 to parent.Length
      invariant IsForest(parent[..], s)
      invariant roots == Elements(s.rep[..i])
    {
      assert s.rep[..i + 1] == s.rep[..i] + [s.rep[i]];
      assert Elements(s.rep[..i + 1]) == Elements(s.rep[..i]) + {s.rep[i]};
      var root := Root(parent, i, s);
      roots := roots + {root};
    }
    assert s.rep[..|s.rep|] == s.rep;
    count := |roots|;
  }

  /**
   * LCOM4 is the number of connected components of the cohesion relation on the methods, plus one for each listing of
   * a method before its last.
   */
  method Lcom4Components(ids: seq<string>, m: Model, prefix: string) returns (count: nat, signal: bool)
    ensures count == Count(Components(Cohesion(Methods(ids), m, prefix), |Methods(ids)|)) + (|ids| - |Methods(ids)|)
    ensures signal <==> || (exists a :: a in m.fieldAccesses && a.from in ids)
                        || (exists e :: e in m.callEdges && e.resolved && prefix <= e.from && prefix <= e.to
                                        && e.from in ids && e.to in ids)
  {
    hide Reaches, Cohesion, Components, Progress, Coarser, ShareField, CallJoined, SameTypeCall, IsIndex, Singletons,
         Methods;
    ghost var r := Cohesion(ids, m, prefix);
    var index := BuildIndex(ids);
    var parent := Init(|ids|);
    ghost var s := Singletons(|ids|);
    SingletonsStart(r, parent[..], s);
    var hasField, hasCall: bool;
    ghost var t, u;
    hasField, t := UnionSharedFieldAccesses(index, m, parent, ids, prefix, s);
    hasCall, u := UnionSameTypeCalls(index, m, prefix, parent, ids, s.rep, t);
    AllRelatedMerged(ids, m, prefix, t.rep, u.rep);
    ProgressFacts(r, s.rep, parent[..], u);
    CountOfReps(r, u.rep);
    count := CountRoots(parent, u);
    RepeatedListingsCount(ids, m, prefix);
    CallsWithin(ids, m, prefix);
    signal := hasField || hasCall;
  }

  lemma CallsWithin(ids: seq<string>, m: Model, prefix: string)
    ensures (exists e :: e in m.callEdges && SameTypeCall(e, prefix) && e.from in ids && e.to in ids)
            <==> exists e :: e in m.callEdges && e.resolved && prefix <= e.from && prefix <= e.to
                             && e.from in ids && e.to in ids
  {
  }

  lemma ProgressFacts(r: set<(nat, nat)>, rep0: seq<nat>, parent: seq<nat>, t: Shape)
    requires Progress(r, rep0, parent, t)
    ensures IsForest(parent, t) && |t.rep| == |parent| && Sound(r, t.rep)
  {
  }

  lemma SingletonsStart(r: set<(nat, nat)>, parent: seq<nat>, s: Shape)
    requires IsForest(parent, s) && s == Singletons(|parent|)
    ensures Progress(r, s.rep, parent, s)
  {
    forall i: nat | i < |parent| ensures Reaches(r, i, i) {
      ReachesSelf(r, i);
    }
  }

  lemma AllRelatedMerged(ids: seq<string>, m: Model, prefix: string, rep: seq<nat>, rep': seq<nat>)
    requires |rep| == |rep'| == |ids| && Coarser(rep, rep')
    requires forall i: nat, j: nat :: i < |ids| && j < |ids| && ShareField(ids, m, i, j) ==> rep[i] == rep[j]
    requires forall i: nat, j: nat :: i < |ids| && j < |ids| && CallJoined(ids, m, prefix, i, j) ==> rep'[i] == rep'[j]
    ensures Symmetric(Cohesion(ids, m, prefix))
    ensures forall i: nat, j: nat :: (i, j) in Cohesion(ids, m, prefix)
              ==> i < |rep'| && j < |rep'| && rep'[i] == rep'[j]
  {
    CohesionSymmetric(ids, m, prefix);
    hide ShareField, CallJoined;
  }

  // ---------------------------------------------------------------------------
  // The signal that the source asserts in debug builds
  // ---------------------------------------------------------------------------

  /** The list the count is called with, as the assertion sees it. */
  ghost predicate HasSignal(ids: seq<string>, m: Model, prefix: string)
  {
    || ids == []
    || (exists a :: a in m.fieldAccesses && a.from in ids)
    || (exists e :: e in m.callEdges && e.resolved && prefix <= e.from && prefix <= e.to
                    && e.from in ids && e.to in ids)
  }

  /**
   * The assertion holds exactly when no candidate has a signal, one accesses a field, or
   * some call has both ends listed.
   */
  lemma SignalIff(all: seq<string>, m: Model, prefix: string)
    ensures HasSignal(MethodsWithOwnSignal(all, m, prefix), m, prefix)
            <==> || (forall id :: id in all ==> !HasOwnSignal(m, prefix, id))
                 || (exists a :: a in m.fieldAccesses && a.from in all)
                 || (exists e :: e in m.callEdges && e.resolved && prefix <= e.from && prefix <= e.to
                                 && e.from in all && e.to in all)
  {
    var ids := MethodsWithOwnSignal(all, m, prefix);
    assert ids != [] ==> ids[0] in ids;
    assert forall a :: a in m.fieldAccesses && a.from in all ==> HasOwnSignal(m, prefix, a.from);
    assert forall e :: e in m.callEdges && SameTypeCall(e, prefix)
             ==> HasOwnSignal(m, prefix, e.from) && HasOwnSignal(m, prefix, e.to);
  }

  /**
   * What call resolution guarantees: a resolved call into the type goes to a listed method. Its caller may be pruned.
   */
  ghost predicate TargetsAreListed(all: seq<string>, m: Model, prefix: string)
  {
    forall e :: e in m.callEdges && e.resolved && prefix <= e.to ==> e.to in all
  }

  /** `caller` calls each of `ids`. */
  function CallsFrom(caller: string, ids: seq<string>): (calls: seq<CallEdge>)
    ensures forall e :: e in calls <==> e.from == caller && e.to in ids && e.resolved
  {
    if ids == [] then [] else [CallEdge(caller, ids[0], true)] + CallsFrom(caller, ids[1..])
  }

  /** It fails for every type whose listed methods touch no field and are only called by a method that was pruned. */
  lemma SignalCanBeMissing(all: seq<string>, caller: string, prefix: string)
    requires all != [] && caller !in all && prefix <= caller
    requires forall id :: id in all ==> prefix <= id
    ensures var m := Model([], CallsFrom(caller, all));
            && TargetsAreListed(all, m, prefix)
            && MethodsWithOwnSignal(all, m, prefix) == all
            && !HasSignal(MethodsWithOwnSignal(all, m, prefix), m, prefix)
  {
    var m := Model([], CallsFrom(caller, all));
    forall id | id in all ensures HasOwnSignal(m, prefix, id) {
      assert CallEdge(caller, id, true) in m.callEdges;
    }
    AllHaveSignal(all, m, prefix);
  }

  lemma {:induction false} AllHaveSignal(ids: seq<string>, m: Model, prefix: string)
    requires forall id :: id in ids ==> HasOwnSignal(m, prefix, id)
    ensures MethodsWithOwnSignal(ids, m, prefix) == ids
  {
    if ids != [] {
      AllHaveSignal(ids[1..], m, prefix);
      assert ids == [ids[0]] + ids[1..];
    }
  }

  /** Listings are kept one by one, in order. */
  lemma {:induction false} KeptOneByOne(a: seq<string>, b: seq<string>, m: Model, prefix: string)
    ensures MethodsWithOwnSignal(a + b, m, prefix)
            == MethodsWithOwnSignal(a, m, prefix) + MethodsWithOwnSignal(b, m, prefix)
  {
    if a == [] {
      assert a + b == b && MethodsWithOwnSignal(a, m, prefix) == [];
    } else {
      var first := if HasOwnSignal(m, prefix, a[0]) then [a[0]] else [];
      FirstKept(a, b, m, prefix);
      KeptOneByOne(a[1..], b, m, prefix);
      Associates(first, MethodsWithOwnSignal(a[1..], m, prefix), MethodsWithOwnSignal(b, m, prefix));
      hide *;
    }
  }

  lemma Associates(x: seq<string>, y: seq<string>, z: seq<string>)
    ensures (x + y) + z == x + (y + z)
  {
  }

  lemma FirstKept(a: seq<string>, b: seq<string>, m: Model, prefix: string)
    requires a != []
    ensures var first := if HasOwnSignal(m, prefix, a[0]) then [a[0]] else [];
            && MethodsWithOwnSignal(a, m, prefix) == first + MethodsWithOwnSignal(a[1..], m, prefix)
            && MethodsWithOwnSignal(a + b, m, prefix) == first + MethodsWithOwnSignal(a[1..] + b, m, prefix)
  {
    hide HasOwnSignal;
    assert (a + b)[1..] == a[1..] + b && (a + b)[0] == a[0];
  }

  /** A listing is kept when its method accesses a field or has a resolved call within the type. */
  lemma KeptIff(id: string, m: Model, prefix: string)
    ensures MethodsWithOwnSignal([id], m, prefix)
            == if (exists x :: x in m.fieldAccesses && x.from == id)
                  || (exists e :: e in m.callEdges && e.resolved && prefix <= e.from && prefix <= e.to
                                  && (e.from == id || e.to == id))
               then [id] else []
  {
    assert MethodsWithOwnSignal([id][1..], m, prefix) == [];
  }

  /** A method left out of the list is alone: it shares no field and has no resolved call within the type. */
  lemma UnlistedIsAlone(all: seq<string>, m: Model, prefix: string, i: nat, j: nat)
    requires i < |all| && j < |all| && (i, j) in Cohesion(all, m, prefix)
    ensures all[i] in MethodsWithOwnSignal(all, m, prefix) && all[j] in MethodsWithOwnSignal(all, m, prefix)
  {
  }
}
