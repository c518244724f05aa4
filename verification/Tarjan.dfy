/** Strongly connected components by Tarjan's algorithm, and the import cycles found with it. */
module Tarjan {
  import opened Basics
  import opened Reachability
  import opened ImportGraph

  // ---------------------------------------------------------------------------
  // The invariant of the search, stated on a snapshot of its fields
  // ---------------------------------------------------------------------------

  datatype Search = Search(next: nat, indices: map<Package, nat>, stack: seq<Package>, sccs: seq<seq<Package>>)

  /** `c` lists one class of mutually reachable names: connected, and nothing left out. */
  ghost predicate IsComponent(r: set<(Package, Package)>, c: seq<Package>)
  {
    && |c| > 0
    && NoDuplicates(c)
    && forall x :: x in c ==> forall y :: y in c <==> Mutual(r, x, y)
  }

  /** No member of an earlier component reaches a member of a later one. */
  ghost predicate ReverseTopological(r: set<(Package, Package)>, cs: seq<seq<Package>>)
  {
    forall i, j :: 0 <= i < j < |cs| ==>
      forall x, y :: x in cs[i] && y in cs[j] ==> !Reaches(r, x, y)
  }

  ghost predicate Listed(cs: seq<seq<Package>>, x: Package)
  {
    exists k :: 0 <= k < |cs| && x in cs[k]
  }

  /** The visited names whose component has been emitted. */
  ghost function Finished(v: Search): set<Package>
  {
    set x | x in v.indices && x !in v.stack
  }

  ghost predicate StackIsNumbered(v: Search)
  {
    && (forall x :: x in v.indices ==> v.indices[x] < v.next)
    && (forall x :: x in v.stack ==> x in v.indices)
    && (forall i, j :: 0 <= i < j < |v.stack| ==> v.indices[v.stack[i]] < v.indices[v.stack[j]])
  }

  /** `x` reaches an active call that is no higher on the stack. */
  ghost predicate Anchored(r: set<(Package, Package)>, v: Search, active: set<Package>, x: Package)
    requires x in v.indices
  {
    exists a :: a in active && a in v.stack && a in v.indices && v.indices[a] <= v.indices[x] && Reaches(r, x, a)
  }

  /** Lower stack entries reach higher ones, and each entry reaches an active call at or below it. */
  ghost predicate StackIsConnected(r: set<(Package, Package)>, v: Search, active: set<Package>)
    requires StackIsNumbered(v)
  {
    && (forall i, j :: 0 <= i <= j < |v.stack| ==> Reaches(r, v.stack[i], v.stack[j]))
    && (forall x {:trigger Anchored(r, v, active, x)} :: x in v.stack ==> Anchored(r, v, active, x))
  }

  ghost predicate Emitted(r: set<(Package, Package)>, v: Search)
  {
    && (forall k :: 0 <= k < |v.sccs| ==> IsComponent(r, v.sccs[k]))
    && ReverseTopological(r, v.sccs)
    && (forall x :: Listed(v.sccs, x) <==> x in Finished(v))
  }

  /** What every call of the search keeps; `active` are the names whose call has not returned. */
  ghost predicate Invariant(r: set<(Package, Package)>, v: Search, active: set<Package>)
  {
    && StackIsNumbered(v)
    && StackIsConnected(r, v, active)
    && (forall a :: a in active ==> a in v.stack)
    && (forall e :: e in r && e.0 in v.indices && e.0 !in active ==> e.1 in v.indices)
    && Closed(r, Finished(v))
    && Emitted(r, v)
  }

  ghost function Pushed(v: Search, node: Package): Search
  {
    Search(v.next + 1, v.indices[node := v.next], v.stack + [node], v.sccs)
  }

  /** A stack entry reaches whatever all active calls reach. */
  lemma StackReaches(r: set<(Package, Package)>, v: Search, active: set<Package>, x: Package, node: Package)
    requires x in v.indices && Anchored(r, v, active, x)
    requires forall a :: a in active ==> Reaches(r, a, node)
    ensures Reaches(r, x, node)
  {
    hide Reaches;
    var a :| a in active && a in v.stack && a in v.indices && v.indices[a] <= v.indices[x] && Reaches(r, x, a);
    ReachesTrans(r, x, a, node);
  }

  lemma AnchorKept(r: set<(Package, Package)>, v: Search, active: set<Package>, node: Package, x: Package)
    requires x in v.indices && Anchored(r, v, active, x) && node !in v.indices
    ensures Anchored(r, Pushed(v, node), active + {node}, x)
  {
    hide Reaches;
    var a :| a in active && a in v.stack && a in v.indices && v.indices[a] <= v.indices[x] && Reaches(r, x, a);
    assert a in active + {node};
  }

  lemma PushKeepsStack(r: set<(Package, Package)>, v: Search, active: set<Package>, node: Package)
    requires StackIsNumbered(v) && StackIsConnected(r, v, active)
    requires node !in v.indices
    requires forall a :: a in active ==> Reaches(r, a, node)
    ensures StackIsNumbered(Pushed(v, node)) && StackIsConnected(r, Pushed(v, node), active + {node})
  {
    ReachesSelf(r, node);
    hide Reaches;
    var w := Pushed(v, node);
    forall x | x in v.stack ensures Reaches(r, x, node) && Anchored(r, w, active + {node}, x) {
      assert Anchored(r, v, active, x);
      StackReaches(r, v, active, x, node);
      AnchorKept(r, v, active, node, x);
    }
    assert node in active + {node} && node in w.stack;
    assert Anchored(r, w, active + {node}, node);
    hide Anchored;
  }

  lemma PushKeepsInvariant(r: set<(Package, Package)>, v: Search, active: set<Package>, node: Package)
    requires Invariant(r, v, active)
    requires node !in v.indices
    requires forall a :: a in active ==> Reaches(r, a, node)
    ensures Invariant(r, Pushed(v, node), active + {node})
  {
    hide Reaches, StackIsConnected;
    PushKeepsStack(r, v, active, node);
    assert Finished(Pushed(v, node)) == Finished(v);
  }

  lemma AnchorElsewhere(r: set<(Package, Package)>, v: Search, active: set<Package>, node: Package, low: Package,
                        x: Package)
    requires node in v.indices && low in v.indices && x in v.indices
    requires v.indices[low] < v.indices[node] && Reaches(r, node, low)
    requires Anchored(r, v, active + {node}, x) && Anchored(r, v, active + {node}, low)
    ensures Anchored(r, v, active, x)
  {
    hide Reaches;
    var a :| a in active + {node} && a in v.stack && a in v.indices && v.indices[a] <= v.indices[x] && Reaches(r, x, a);
    if a == node {
      var b :| b in active + {node} && b in v.stack && b in v.indices && v.indices[b] <= v.indices[low]
          && Reaches(r, low, b);
      ReachesTrans(r, x, node, low);
      ReachesTrans(r, x, low, b);
    }
  }

  /** A returning call whose lowlink points below it leaves its names on the stack. */
  lemma RetireKeepsInvariant(r: set<(Package, Package)>, v: Search, active: set<Package>, node: Package, low: Package)
    requires Invariant(r, v, active + {node})
    requires forall e :: e in r && e.0 == node ==> e.1 in v.indices
    requires low in v.stack && node in v.stack && v.indices[low] < v.indices[node] && Reaches(r, node, low)
    ensures Invariant(r, v, active)
  {
    hide Reaches, Emitted, Finished, Anchored, StackIsNumbered;
    forall x | x in v.stack ensures x in v.indices && Anchored(r, v, active, x) {
      VisitedOnStack(v, x);
      VisitedOnStack(v, low);
      VisitedOnStack(v, node);
      assert Anchored(r, v, active + {node}, x) && Anchored(r, v, active + {node}, low);
      AnchorElsewhere(r, v, active, node, low, x);
    }
  }

  lemma VisitedOnStack(v: Search, x: Package)
    requires StackIsNumbered(v) && x in v.stack
    ensures x in v.indices
  {
  }

  ghost function Popped(v: Search, k: nat, c: seq<Package>): Search
    requires k <= |v.stack|
  {
    Search(v.next, v.indices, v.stack[..k], v.sccs + [c])
  }

  /** The situation in which the stack above `k` is about to be emitted. */
  ghost predicate ReadyToEmit(r: set<(Package, Package)>, v: Search, active: set<Package>, k: nat)
  {
    && k < |v.stack|
    && Invariant(r, v, active + {v.stack[k]})
    && (forall a :: a in active ==> a in v.stack[..k])
    && (forall e :: e in r && e.0 == v.stack[k] ==> e.1 in v.indices)
    && (forall e :: e in r && e.0 in v.stack[k..] ==> e.1 !in v.stack[..k])
  }

  lemma StackSplit(v: Search, k: nat)
    requires StackIsNumbered(v) && k < |v.stack|
    ensures forall x :: x in v.stack <==> x in v.stack[..k] || x in v.stack[k..]
    ensures forall x :: x in v.stack[..k] ==> x !in v.stack[k..] && v.indices[x] < v.indices[v.stack[k]]
    ensures forall x :: x in v.stack[k..] ==> v.indices[v.stack[k]] <= v.indices[x]
  {
    hide Reaches;
    assert v.stack == v.stack[..k] + v.stack[k..];
  }

  /** Everything the top of the stack can reach is the top of the stack and what is finished. */
  lemma TopIsClosed(r: set<(Package, Package)>, v: Search, active: set<Package>, k: nat)
    requires ReadyToEmit(r, v, active, k)
    ensures Closed(r, Finished(v) + set x | x in v.stack[k..])
  {
    hide Reaches, Emitted;
    var top := set x | x in v.stack[k..];
    StackSplit(v, k);
    forall e | e in r && e.0 in Finished(v) + top ensures e.1 in Finished(v) + top {
      if e.0 in top {
        assert e.0 !in active;
        assert e.1 in v.indices;
      }
    }
  }

  lemma TopReachesRoot(r: set<(Package, Package)>, v: Search, active: set<Package>, k: nat, x: Package)
    requires ReadyToEmit(r, v, active, k) && x in v.stack[k..]
    ensures Mutual(r, v.stack[k], x)
  {
    hide Reaches, Emitted, Closed, Finished;
    var node := v.stack[k];
    StackSplit(v, k);
    var i :| k <= i < |v.stack| && v.stack[i] == x;
    assert Reaches(r, v.stack[k], v.stack[i]);
    assert Anchored(r, v, active + {node}, x);
    TopAnchor(r, v, active, k, x);
  }

  lemma TopAnchor(r: set<(Package, Package)>, v: Search, active: set<Package>, k: nat, x: Package)
    requires ReadyToEmit(r, v, active, k) && x in v.stack[k..] && x in v.indices
    requires Anchored(r, v, active + {v.stack[k]}, x)
    ensures Reaches(r, x, v.stack[k])
  {
    hide Reaches, Emitted, Closed, StackIsConnected;
    var node := v.stack[k];
    var a :| a in active + {node} && a in v.stack && a in v.indices && v.indices[a] <= v.indices[x] && Reaches(r, x, a);
    StackSplit(v, k);
    TopIsClosed(r, v, active, k);
    ClosedReaches(r, Finished(v) + (set z | z in v.stack[k..]), x, a);
  }

  lemma TopIsComponent(r: set<(Package, Package)>, v: Search, active: set<Package>, k: nat, c: seq<Package>)
    requires ReadyToEmit(r, v, active, k)
    requires NoDuplicates(c) && forall x :: x in c <==> x in v.stack[k..]
    ensures IsComponent(r, c)
  {
    hide Reaches;
    var node := v.stack[k];
    assert node in v.stack[k..];
    assert node in c;
    StackSplit(v, k);
    forall x, y | x in c ensures y in c <==> Mutual(r, x, y) {
      TopReachesRoot(r, v, active, k, x);
      if y in c {
        TopReachesRoot(r, v, active, k, y);
        ReachesTrans(r, x, node, y);
        ReachesTrans(r, y, node, x);
      } else if Mutual(r, x, y) {
        TopIsClosed(r, v, active, k);
        ClosedReaches(r, Finished(v) + (set z | z in v.stack[k..]), x, y);
        ClosedReaches(r, Finished(v), y, x);
        assert false;
      }
    }
  }

  lemma PopFinishes(r: set<(Package, Package)>, v: Search, active: set<Package>, k: nat, c: seq<Package>)
    requires ReadyToEmit(r, v, active, k)
    requires forall x :: x in c <==> x in v.stack[k..]
    ensures Finished(Popped(v, k, c)) == Finished(v) + set x | x in c
    ensures forall x :: Listed(v.sccs + [c], x) <==> x in Finished(Popped(v, k, c))
  {
    hide Reaches;
    StackSplit(v, k);
    forall x ensures Listed(v.sccs + [c], x) <==> Listed(v.sccs, x) || x in c {
      if Listed(v.sccs, x) {
        var i :| 0 <= i < |v.sccs| && x in v.sccs[i];
        assert x in (v.sccs + [c])[i];
      }
      if x in c {
        assert x in (v.sccs + [c])[|v.sccs|];
      }
    }
  }

  lemma PopKeepsOrder(r: set<(Package, Package)>, v: Search, active: set<Package>, k: nat, c: seq<Package>)
    requires ReadyToEmit(r, v, active, k)
    requires forall x :: x in c <==> x in v.stack[k..]
    ensures ReverseTopological(r, v.sccs + [c])
  {
    hide Reaches;
    var cs := v.sccs + [c];
    forall i, j, x, y | 0 <= i < j < |cs| && x in cs[i] && y in cs[j] ensures !Reaches(r, x, y) {
      if j == |v.sccs| && Reaches(r, x, y) {
        assert Listed(v.sccs, x);
        ClosedReaches(r, Finished(v), x, y);
        StackSplit(v, k);
        assert false;
      }
    }
  }

  lemma PopKeepsAnchors(r: set<(Package, Package)>, v: Search, active: set<Package>, k: nat, c: seq<Package>,
                        x: Package)
    requires StackIsNumbered(v) && k < |v.stack| && x in v.stack[..k] && x in v.indices
    requires forall a :: a in active ==> a in v.stack[..k]
    requires Anchored(r, v, active + {v.stack[k]}, x)
    ensures Anchored(r, Popped(v, k, c), active, x)
  {
    hide Reaches;
    StackSplit(v, k);
    var a :| a in active + {v.stack[k]} && a in v.stack && a in v.indices && v.indices[a] <= v.indices[x]
        && Reaches(r, x, a);
  }

  lemma PopKeepsStack(r: set<(Package, Package)>, v: Search, active: set<Package>, k: nat, c: seq<Package>)
    requires ReadyToEmit(r, v, active, k)
    ensures StackIsNumbered(Popped(v, k, c)) && StackIsConnected(r, Popped(v, k, c), active)
  {
    hide Reaches, Emitted, Closed, Anchored, Finished;
    var w := Popped(v, k, c);
    forall x | x in w.stack ensures x in v.indices && Anchored(r, w, active, x) {
      assert x in v.stack;
      assert Anchored(r, v, active + {v.stack[k]}, x);
      PopKeepsAnchors(r, v, active, k, c, x);
    }
  }

  lemma PopKeepsInvariant(r: set<(Package, Package)>, v: Search, active: set<Package>, k: nat, c: seq<Package>)
    requires ReadyToEmit(r, v, active, k)
    requires NoDuplicates(c) && forall x :: x in c <==> x in v.stack[k..]
    ensures Invariant(r, Popped(v, k, c), active)
  {
    hide Reaches, IsComponent, Listed, StackIsConnected, StackIsNumbered, ReverseTopological;
    PopKeepsStack(r, v, active, k, c);
    TopIsComponent(r, v, active, k, c);
    TopIsClosed(r, v, active, k);
    PopFinishes(r, v, active, k, c);
    PopKeepsOrder(r, v, active, k, c);
    assert (set x | x in c) == (set x | x in v.stack[k..]);
  }

  // ---------------------------------------------------------------------------
  // What one call of the search adds
  // ---------------------------------------------------------------------------

  /** `w` is a later search state: nothing recorded in `v` was changed or popped. */
  ghost predicate Grew(v: Search, w: Search)
  {
    && v.next <= w.next
    && (forall x :: x in v.indices ==> x in w.indices && w.indices[x] == v.indices[x])
    && (forall x :: x in w.indices && x !in v.indices ==> v.next <= w.indices[x])
    && v.stack <= w.stack
    && v.sccs <= w.sccs
  }

  /** `node` reaches an entry of `stack` numbered `low`. */
  ghost predicate LowIsReached(r: set<(Package, Package)>, w: Search, stack: seq<Package>, node: Package, low: nat)
  {
    exists y :: y in stack && y in w.indices && w.indices[y] == low && Reaches(r, node, y)
  }

  /** No edge leads from the stack at or above `k` to an entry of `stack` numbered below `low`. */
  ghost predicate LowIsLeast(r: set<(Package, Package)>, w: Search, k: nat, stack: seq<Package>, low: nat)
  {
    k <= |w.stack| &&
    forall x, y :: x in w.stack[k..] && (x, y) in r && y in stack && y in w.indices ==> low <= w.indices[y]
  }

  /** The result of the call for `node` that took the search from `v` to `w` and left lowlink `low`. */
  ghost predicate Explored(r: set<(Package, Package)>, v: Search, node: Package, w: Search, low: nat)
  {
    && Grew(v, w)
    && node in w.indices && w.indices[node] == v.next && low <= v.next
    && (node in w.stack ==> low < v.next && LowIsReached(r, w, v.stack, node, low))
    && (node !in w.stack ==> low == v.next && w.stack == v.stack)
    && LowIsLeast(r, w, |v.stack|, v.stack, low)
  }

  /** The state of that call between two of its edges. */
  ghost predicate Exploring(r: set<(Package, Package)>, v: Search, node: Package, w: Search, low: nat)
  {
    && Grew(Pushed(v, node), w)
    && low <= v.next
    && LowIsReached(r, w, v.stack + [node], node, low)
    && LowIsLeast(r, w, |v.stack| + 1, v.stack, low)
  }

  lemma ExploringStarts(r: set<(Package, Package)>, v: Search, node: Package)
    requires node !in v.indices
    ensures Exploring(r, v, node, Pushed(v, node), v.next)
  {
    ReachesSelf(r, node);
    hide Reaches;
    var w := Pushed(v, node);
    assert node in v.stack + [node] && w.indices[node] == v.next;
    assert w.stack[|v.stack| + 1..] == [];
  }

  /** A stack entry numbered below `node` is below it. */
  lemma LowerIsBelow(v: Search, node: Package, w: Search, y: Package)
    requires StackIsNumbered(w) && v.stack + [node] <= w.stack
    requires y in w.stack && node in w.stack && w.indices[y] < w.indices[node]
    ensures y in v.stack
  {
    var i :| 0 <= i < |w.stack| && w.stack[i] == y;
    assert w.stack[|v.stack|] == (v.stack + [node])[|v.stack|] == node;
    assert i < |v.stack|;
    assert w.stack[i] == (v.stack + [node])[i] == v.stack[i];
  }

  lemma PrefixMembers<T>(s: seq<T>, t: seq<T>)
    requires s <= t
    ensures forall x :: x in s ==> x in t
  {
    assert forall i :: 0 <= i < |s| ==> s[i] == t[i];
  }

  lemma LowAfterCall(r: set<(Package, Package)>, v: Search, node: Package, w: Search, low: nat,
                     succ: Package, w': Search, low': nat)
    requires StackIsNumbered(w) && node !in v.indices
    requires Exploring(r, v, node, w, low) && Explored(r, w, succ, w', low') && (node, succ) in r
    ensures LowIsReached(r, w', v.stack + [node], node, Min(low, low'))
  {
    ReachesEdge(r, node, succ);
    hide Reaches, LowIsLeast;
    if low <= low' {
      var y :| y in v.stack + [node] && y in w.indices && w.indices[y] == low && Reaches(r, node, y);
      assert y in w'.indices && w'.indices[y] == low;
    } else {
      assert w.indices[node] == v.next < w.next;
      var y :| y in w.stack && y in w'.indices && w'.indices[y] == low' && Reaches(r, succ, y);
      PrefixMembers(v.stack + [node], w.stack);
      assert node in v.stack + [node];
      LowerIsBelow(v, node, w, y);
      ReachesTrans(r, node, succ, y);
      assert y in v.stack + [node];
    }
  }

  lemma LeastAfterCall(r: set<(Package, Package)>, v: Search, node: Package, w: Search, low: nat,
                       succ: Package, w': Search, low': nat)
    requires forall x :: x in v.stack ==> x in v.indices
    requires Exploring(r, v, node, w, low) && Explored(r, w, succ, w', low')
    ensures LowIsLeast(r, w', |v.stack| + 1, v.stack, Min(low, low'))
  {
    hide Reaches, LowIsReached;
    var k := |v.stack| + 1;
    assert w'.stack[k..] == w.stack[k..] + w'.stack[|w.stack|..];
    PrefixMembers(v.stack + [node], w.stack);
    forall x, y | x in w'.stack[k..] && (x, y) in r && y in v.stack && y in w'.indices
      ensures Min(low, low') <= w'.indices[y]
    {
      assert y in v.stack + [node];
      assert y in w.stack && y in w.indices;
    }
  }

  lemma ExploringAfterCall(r: set<(Package, Package)>, v: Search, node: Package, w: Search, low: nat,
                           succ: Package, w': Search, low': nat)
    requires StackIsNumbered(w) && node !in v.indices
    requires forall x :: x in v.stack ==> x in v.indices
    requires Exploring(r, v, node, w, low) && Explored(r, w, succ, w', low') && (node, succ) in r
    ensures Exploring(r, v, node, w', Min(low, low'))
  {
    LowAfterCall(r, v, node, w, low, succ, w', low');
    LeastAfterCall(r, v, node, w, low, succ, w', low');
    hide LowIsReached, LowIsLeast;
  }

  lemma ExploringAfterBackEdge(r: set<(Package, Package)>, v: Search, node: Package, w: Search, low: nat, succ: Package)
    requires StackIsNumbered(w) && node !in v.indices
    requires Exploring(r, v, node, w, low) && (node, succ) in r
    requires succ in w.stack
    ensures Exploring(r, v, node, w, Min(low, w.indices[succ]))
  {
    ReachesEdge(r, node, succ);
    hide Reaches;
    if w.indices[succ] < low {
      PrefixMembers(v.stack + [node], w.stack);
      assert node in v.stack + [node];
      LowerIsBelow(v, node, w, succ);
      assert succ in v.stack + [node];
    }
  }

  /** All edges of `node` have been followed. */
  ghost predicate EdgesFollowed(r: set<(Package, Package)>, v: Search, node: Package, w: Search, low: nat)
  {
    forall e :: e in r && e.0 == node ==>
      e.1 in w.indices && (e.1 in v.stack ==> low <= w.indices[e.1])
  }

  lemma RootIsReady(r: set<(Package, Package)>, v: Search, active: set<Package>, node: Package, w: Search)
    requires Invariant(r, w, active + {node})
    requires Exploring(r, v, node, w, v.next) && EdgesFollowed(r, v, node, w, v.next)
    requires StackIsNumbered(v) && forall a :: a in active ==> a in v.stack
    ensures ReadyToEmit(r, w, active, |v.stack|) && w.stack[|v.stack|] == node && w.stack[..|v.stack|] == v.stack
  {
    hide Reaches, Emitted, Closed, Finished, StackIsConnected;
    var k := |v.stack|;
    assert w.stack[k] == (v.stack + [node])[k] == node;
    assert w.stack[..k] == v.stack;
    forall e | e in r && e.0 in w.stack[k..] ensures e.1 !in w.stack[..k] {
      assert w.stack[k..] == [node] + w.stack[k + 1..];
      assert e == (e.0, e.1);
    }
  }

  lemma ExploredByRetiring(r: set<(Package, Package)>, v: Search, active: set<Package>, node: Package, w: Search,
                           low: nat)
    requires Invariant(r, w, active + {node}) && node !in v.indices
    requires Exploring(r, v, node, w, low) && EdgesFollowed(r, v, node, w, low) && low < v.next
    ensures Invariant(r, w, active) && Explored(r, v, node, w, low)
  {
    hide Reaches, Emitted, Closed, Finished, StackIsConnected;
    var y :| y in v.stack + [node] && y in w.indices && w.indices[y] == low && Reaches(r, node, y);
    assert w.stack[|v.stack|] == (v.stack + [node])[|v.stack|] == node;
    assert y in v.stack;
    var i :| 0 <= i < |v.stack| && v.stack[i] == y;
    assert w.stack[i] == (v.stack + [node])[i] == y;
    assert w.stack[|v.stack|..] == [node] + w.stack[|v.stack| + 1..];
    RetireKeepsInvariant(r, w, active, node, y);
    assert v.stack <= w.stack;
  }

  lemma ExploredByPopping(r: set<(Package, Package)>, v: Search, active: set<Package>, node: Package, w: Search,
                          c: seq<Package>)
    requires Invariant(r, w, active + {node}) && node !in v.indices
    requires Exploring(r, v, node, w, v.next) && EdgesFollowed(r, v, node, w, v.next)
    requires StackIsNumbered(v) && forall a :: a in active ==> a in v.stack
    requires NoDuplicates(c) && forall x :: x in c <==> x in w.stack[|v.stack|..]
    ensures Invariant(r, Popped(w, |v.stack|, c), active)
    ensures Explored(r, v, node, Popped(w, |v.stack|, c), v.next)
  {
    RootIsReady(r, v, active, node, w);
    PopKeepsInvariant(r, w, active, |v.stack|, c);
    hide Reaches, Emitted, Closed, Finished, StackIsConnected, ReadyToEmit, Invariant;
    var w' := Popped(w, |v.stack|, c);
    assert w'.stack == v.stack;
    assert w'.stack[|v.stack|..] == [];
    assert node !in v.stack;
  }

  // ---------------------------------------------------------------------------
  // The algorithm
  // ---------------------------------------------------------------------------

  function Reversed<T>(s: seq<T>): (r: seq<T>)
    ensures |r| == |s|
  {
    if s == [] then [] else Reversed(s[1..]) + [s[0]]
  }

  lemma {:induction false} ReversedMembers<T>(s: seq<T>)
    ensures forall i :: 0 <= i < |s| ==> Reversed(s)[i] == s[|s| - 1 - i]
    ensures forall x :: x in Reversed(s) <==> x in s
  {
    if s != [] {
      ReversedMembers(s[1..]);
      assert s == [s[0]] + s[1..];
    }
  }

  class Finder {
    const graph: Graph
    var indexCounter: nat
    var stack: seq<Package>
    var onStack: map<Package, bool>
    var indices: map<Package, nat>
    var lowlink: map<Package, nat>
    var sccs: seq<seq<Package>>

    ghost function View(): Search
      reads this
    {
      Search(indexCounter, indices, stack, sccs)
    }

    ghost predicate Valid(active: set<Package>)
      reads this
    {
      && Invariant(Imports(graph), View(), active)
      && lowlink.Keys == indices.Keys
      && onStack.Keys == indices.Keys
      && OnStackIsCurrent()
      && (forall x :: x in indices ==> FromNodes(graph, x) && x in Mentioned(graph))
    }

    constructor (graph: Graph)
      ensures this.graph == graph && Valid({})
      ensures indices == map[] && sccs == [] && stack == []
    {
      this.graph := graph;
      indexCounter := 0;
      stack := [];
      onStack := map[];
      indices := map[];
      lowlink := map[];
      sccs := [];
      new;
      hide Reaches;
    }

    ghost predicate OnStackIsCurrent()
      reads this
    {
      forall x :: x in onStack ==> (onStack[x] <==> x in stack)
    }

    /** Pops the stack down to and including `node`, the entry at position `k`. */
    method PopComponent(node: Package, ghost k: nat) returns (component: seq<Package>)
      requires NoDuplicates(stack) && OnStackIsCurrent()
      requires forall x :: x in stack ==> x in onStack
      requires k < |stack| && stack[k] == node
      modifies this`stack, this`onStack
      ensures stack == old(stack)[..k]
      ensures onStack.Keys == old(onStack).Keys && OnStackIsCurrent()
      ensures component == Reversed(old(stack)[k..])
    {
      component := [];
      ghost var was, m := stack, |stack|;
      while true
        invariant k < m <= |was| && stack == was[..m]
        invariant onStack.Keys == old(onStack).Keys && OnStackIsCurrent()
        invariant component == Reversed(was[m..])
        decreases m
      {
        var member := stack[|stack| - 1];
        assert was[..m] == was[..m - 1] + [member];
        assert was[m - 1..] == [member] + was[m..];
        assert member !in was[..m - 1];
        stack := stack[..|stack| - 1];
        onStack := onStack[member := false];
        component := component + [member];
        m := m - 1;
        if member == node {
          assert m == k;
          break;
        }
      }
    }

    /** Every active call reaches a successor of the innermost one. */
    static lemma ActiveReach(r: set<(Package, Package)>, active: set<Package>, node: Package, succ: Package)
      requires (node, succ) in r && forall a :: a in active ==> Reaches(r, a, node)
      ensures forall a :: a in active + {node} ==> Reaches(r, a, succ)
    {
      ReachesEdge(r, node, succ);
      hide Reaches;
      forall a | a in active ensures Reaches(r, a, succ) {
        ReachesTrans(r, a, node, succ);
      }
    }

    static lemma NumberedOf(r: set<(Package, Package)>, v: Search, active: set<Package>)
      requires Invariant(r, v, active)
      ensures StackIsNumbered(v) && NoDuplicates(v.stack)
      ensures forall a :: a in active ==> a in v.stack
    {
    }

    static lemma ExploringFacts(r: set<(Package, Package)>, v: Search, node: Package, w: Search, low: nat)
      requires Exploring(r, v, node, w, low) && node !in v.indices
      ensures node in w.indices && w.indices[node] == v.next && low <= v.next
      ensures forall x :: x in v.stack ==> x in w.stack
      ensures v.indices.Keys < w.indices.Keys
    {
      hide LowIsReached, LowIsLeast;
      PrefixMembers(v.stack + [node], w.stack);
      assert forall x :: x in v.stack ==> x in v.stack + [node];
    }

    /** The first `i` edges have been looked at: those leaving `node` lead to visited names, none below the lowlink. */
    ghost static predicate Followed(edges: seq<ImportEdge>, i: nat, v: Search, node: Package, w: Search, low: nat)
    {
      forall k :: 0 <= k < i && k < |edges| && edges[k].from == node ==>
        edges[k].to in w.indices && (edges[k].to in v.stack ==> low <= w.indices[edges[k].to])
    }

    static lemma FollowedNone(edges: seq<ImportEdge>, v: Search, node: Package, w: Search, low: nat)
      ensures Followed(edges, 0, v, node, w, low)
    {
    }

    static lemma FollowedSkip(edges: seq<ImportEdge>, i: nat, v: Search, node: Package, w: Search, low: nat)
      requires Followed(edges, i, v, node, w, low) && i < |edges| && edges[i].from != node
      ensures Followed(edges, i + 1, v, node, w, low)
    {
    }

    static lemma FollowedAll(g: Graph, v: Search, node: Package, w: Search, low: nat)
      requires Followed(g.edges, |g.edges|, v, node, w, low)
      ensures EdgesFollowed(Imports(g), v, node, w, low)
    {
    }

    static lemma FollowedAfterCall(g: Graph, i: nat, v: Search, node: Package, w: Search, low: nat, w': Search,
                                   low': nat)
      requires Followed(g.edges, i, v, node, w, low) && i < |g.edges|
      requires forall x :: x in v.stack ==> x in w.indices
      requires g.edges[i].to !in w.indices
      requires Explored(Imports(g), w, g.edges[i].to, w', low')
      ensures Followed(g.edges, i + 1, v, node, w', Min(low, low'))
    {
    }

    /** Numbers `node` and pushes it. */
    method Open(node: Package, ghost active: set<Package>)
      requires Valid(active)
      requires node !in indices && FromNodes(graph, node) && node in Mentioned(graph)
      requires forall a :: a in active ==> Reaches(Imports(graph), a, node)
      modifies this
      ensures Valid(active + {node}) && View() == Pushed(old(View()), node)
      ensures lowlink == old(lowlink)[node := old(indexCounter)]
    {
      hide Reaches, Imports, Invariant;
      PushKeepsInvariant(Imports(graph), View(), active, node);
      indices := indices[node := indexCounter];
      lowlink := lowlink[node := indexCounter];
      indexCounter := indexCounter + 1;
      stack := stack + [node];
      onStack := onStack[node := true];
    }

    /** Emits the component of `node` if `node` is its root. */
    method Close(node: Package, ghost start: Search, ghost active: set<Package>)
      requires Valid(active + {node}) && node in lowlink && node !in start.indices
      requires StackIsNumbered(start) && forall a :: a in active ==> a in start.stack
      requires Exploring(Imports(graph), start, node, View(), lowlink[node])
      requires EdgesFollowed(Imports(graph), start, node, View(), lowlink[node])
      modifies this
      ensures Valid(active) && lowlink == old(lowlink)
      ensures Explored(Imports(graph), start, node, View(), lowlink[node])
    {
      hide Reaches, Invariant, Exploring, Explored, Imports, StackIsNumbered, EdgesFollowed;
      ghost var r, done := Imports(graph), View();
      NumberedOf(r, done, active + {node});
      ExploringFacts(r, start, node, done, lowlink[node]);
      if lowlink[node] == indices[node] {
        RootIsReady(r, start, active, node, done);
        var component := PopComponent(node, |start.stack|);
        ReversedMembers(done.stack[|start.stack|..]);
        sccs := sccs + [component];
        ExploredByPopping(r, start, active, node, done, component);
      } else {
        ExploredByRetiring(r, start, active, node, done, lowlink[node]);
      }
    }

    /** Follows the `i`-th edge, one of those leaving `node`. */
    method Follow(node: Package, i: nat, ghost start: Search, ghost active: set<Package>)
      requires i < |graph.edges| && graph.edges[i].from == node
      requires Valid(active + {node}) && node in lowlink && node !in start.indices
      requires forall x :: x in start.stack ==> x in start.indices
      requires forall a :: a in active ==> Reaches(Imports(graph), a, node)
      requires Exploring(Imports(graph), start, node, View(), lowlink[node])
      requires Followed(graph.edges, i, start, node, View(), lowlink[node])
      modifies this
      ensures Valid(active + {node}) && node in lowlink
      ensures forall x :: x in old(lowlink) && x != node ==> x in lowlink && lowlink[x] == old(lowlink[x])
      ensures Exploring(Imports(graph), start, node, View(), lowlink[node])
      ensures Followed(graph.edges, i + 1, start, node, View(), lowlink[node])
      decreases Mentioned(graph) - indices.Keys, 1
    {
      hide Reaches, Invariant, Exploring, Explored, Imports, StackIsNumbered, Mentioned;
      ghost var r, before, low := Imports(graph), View(), lowlink[node];
      var successor := graph.edges[i].to;
      EdgeImports(graph, graph.edges[i]);
      NumberedOf(r, before, active + {node});
      ExploringFacts(r, start, node, before, low);
      if successor !in indices {
        FromNodesStep(graph, node, successor);
        ActiveReach(r, active, node, successor);
        StrongConnect(successor, active + {node});
        ExploringAfterCall(r, start, node, before, low, successor, View(), lowlink[successor]);
        FollowedAfterCall(graph, i, start, node, before, low, View(), lowlink[successor]);
        lowlink := lowlink[node := Min(lowlink[node], lowlink[successor])];
      } else if onStack[successor] {
        ExploringAfterBackEdge(r, start, node, before, low, successor);
        lowlink := lowlink[node := Min(lowlink[node], indices[successor])];
      }
    }

    method StrongConnect(node: Package, ghost active: set<Package>)
      requires Valid(active)
      requires node !in indices && FromNodes(graph, node) && node in Mentioned(graph)
      requires forall a :: a in active ==> Reaches(Imports(graph), a, node)
      modifies this
      ensures Valid(active)
      ensures node in lowlink && Explored(Imports(graph), old(View()), node, View(), lowlink[node])
      ensures forall x :: x in old(lowlink) ==> x in lowlink && lowlink[x] == old(lowlink[x])
      decreases Mentioned(graph) - indices.Keys, 0
    {
      hide Reaches, Invariant, Exploring, Explored, Imports, StackIsNumbered, EdgesFollowed, Followed;
      ghost var r, start := Imports(graph), View();
      NumberedOf(r, start, active);
      ExploringStarts(r, start, node);
      FollowedNone(graph.edges, start, node, Pushed(start, node), start.next);
      Open(node, active);
      for i := 0 to |graph.edges|
        invariant Valid(active + {node})
        invariant node in lowlink && Exploring(r, start, node, View(), lowlink[node])
        invariant forall x :: x in old(lowlink) ==> x in lowlink && lowlink[x] == old(lowlink[x])
        invariant Followed(graph.edges, i, start, node, View(), lowlink[node])
      {
        ExploringFacts(r, start, node, View(), lowlink[node]);
        if graph.edges[i].from == node {
          Follow(node, i, start, active);
        } else {
          FollowedSkip(graph.edges, i, start, node, View(), lowlink[node]);
        }
      }
      FollowedAll(graph, start, node, View(), lowlink[node]);
      Close(node, start, active);
    }

    /** Searches from every declared node. */
    method Run()
      requires Valid({})
      modifies this
      ensures IsDecomposition(graph, sccs)
    {
      hide Reaches, Invariant, Explored, FromNodes;
      for i := 0 to |graph.nodes|
        invariant Valid({})
        invariant forall k :: 0 <= k < i ==> graph.nodes[k] in indices
      {
        var node := graph.nodes[i];
        if node !in indices {
          NodeIsFromNodes(graph, node);
          ghost var v := View();
          StrongConnect(node, {});
          ExploredKeeps(Imports(graph), v, node, View(), lowlink[node]);
        }
      }
      SearchIsComplete(graph, View());
    }

    static lemma ExploredKeeps(r: set<(Package, Package)>, v: Search, node: Package, w: Search, low: nat)
      requires Explored(r, v, node, w, low)
      ensures node in w.indices && v.indices.Keys <= w.indices.Keys
    {
    }
  }

  /** `cs` lists the components of everything the declared nodes reach, each name once, importers last. */
  ghost predicate IsDecomposition(g: Graph, cs: seq<seq<Package>>)
  {
    && (forall k :: 0 <= k < |cs| ==> IsComponent(Imports(g), cs[k]))
    && ReverseTopological(Imports(g), cs)
    && (forall x :: Listed(cs, x) <==> FromNodes(g, x))
  }

  lemma NodeIsFromNodes(g: Graph, n: Package)
    requires n in g.nodes
    ensures FromNodes(g, n) && n in Mentioned(g)
  {
    ReachesSelf(Imports(g), n);
  }

  lemma NoAnchor(r: set<(Package, Package)>, v: Search, x: Package)
    requires x in v.indices
    ensures !Anchored(r, v, {}, x)
  {
  }

  /** With no active call left, nothing can be waiting on the stack. */
  lemma StackIsEmpty(r: set<(Package, Package)>, v: Search)
    requires StackIsNumbered(v) && StackIsConnected(r, v, {})
    ensures v.stack == []
  {
    hide Reaches;
    if v.stack != [] {
      NoAnchor(r, v, v.stack[0]);
    }
  }

  lemma SearchIsComplete(g: Graph, v: Search)
    requires Invariant(Imports(g), v, {})
    requires forall n :: n in g.nodes ==> n in v.indices
    requires forall x :: x in v.indices ==> FromNodes(g, x)
    ensures IsDecomposition(g, v.sccs)
  {
    hide Reaches, IsComponent, Listed, Imports;
    StackIsEmpty(Imports(g), v);
    forall x ensures x in v.indices <==> FromNodes(g, x) {
      if FromNodes(g, x) {
        var n :| n in g.nodes && Reaches(Imports(g), n, x);
        ClosedReaches(Imports(g), Finished(v), n, x);
      }
    }
  }

  // ---------------------------------------------------------------------------
  // Import cycles
  // ---------------------------------------------------------------------------

  predicate HasSelfEdge(g: Graph, x: Package)
  {
    exists e :: e in g.edges && e.from == x && e.to == x
  }

  function KeepCycles(g: Graph, cs: seq<seq<Package>>): (kept: seq<seq<Package>>)
    requires forall k :: 0 <= k < |cs| ==> cs[k] != []
  {
    if cs == [] then []
    else if |cs[0]| > 1 || HasSelfEdge(g, cs[0][0]) then [cs[0]] + KeepCycles(g, cs[1..])
    else KeepCycles(g, cs[1..])
  }

  /** `cycles` lists exactly the components, among those the declared nodes reach, that contain a cycle. */
  ghost predicate IsCycleReport(g: Graph, cycles: seq<seq<Package>>)
  {
    && (forall k :: 0 <= k < |cycles| ==> IsComponent(Imports(g), cycles[k]))
    && ReverseTopological(Imports(g), cycles)
    && (forall x :: Listed(cycles, x) <==> FromNodes(g, x) && OnCycle(Imports(g), x))
  }

  lemma CyclicComponent(g: Graph, c: seq<Package>, x: Package)
    requires IsComponent(Imports(g), c) && x in c
    ensures OnCycle(Imports(g), x) <==> |c| > 1 || HasSelfEdge(g, c[0])
  {
    var r := Imports(g);
    OnCycleMutual(r, x);
    hide Reaches, OnCycle;
    assert HasSelfEdge(g, c[0]) <==> (c[0], c[0]) in r;
    if |c| > 1 {
      var other := if x == c[0] then c[1] else c[0];
      assert other in c && other != x && Mutual(r, x, other);
    } else {
      assert forall y :: y in c <==> y == c[0];
    }
  }

  lemma {:induction false} KeptMembers(g: Graph, cs: seq<seq<Package>>, x: Package)
    requires forall k :: 0 <= k < |cs| ==> cs[k] != [] && IsComponent(Imports(g), cs[k])
    ensures Listed(KeepCycles(g, cs), x) <==> Listed(cs, x) && OnCycle(Imports(g), x)
  {
    hide IsComponent, OnCycle;
    if cs != [] {
      var rest := cs[1..];
      KeptMembers(g, rest, x);
      assert cs == [cs[0]] + rest;
      ListedCons(cs[0], rest, x);
      ListedCons(cs[0], KeepCycles(g, rest), x);
      if x in cs[0] {
        CyclicComponent(g, cs[0], x);
      }
      if |cs[0]| > 1 || HasSelfEdge(g, cs[0][0]) {
        assert KeepCycles(g, cs) == [cs[0]] + KeepCycles(g, rest);
      }
    }
  }

  lemma ComponentNonempty(g: Graph, c: seq<Package>)
    requires IsComponent(Imports(g), c)
    ensures c != []
  {
  }

  lemma ListedCons(c: seq<Package>, cs: seq<seq<Package>>, x: Package)
    ensures Listed([c] + cs, x) <==> x in c || Listed(cs, x)
  {
    var all := [c] + cs;
    if x in c {
      assert x in all[0];
    }
    if Listed(cs, x) {
      var k :| 0 <= k < |cs| && x in cs[k];
      assert x in all[k + 1];
    }
    if Listed(all, x) {
      var k :| 0 <= k < |all| && x in all[k];
      assert k > 0 ==> all[k] == cs[k - 1];
    }
  }

  lemma {:induction false} KeptInOrder(g: Graph, cs: seq<seq<Package>>)
    requires forall k :: 0 <= k < |cs| ==> cs[k] != [] && IsComponent(Imports(g), cs[k])
    requires ReverseTopological(Imports(g), cs)
    ensures forall k :: 0 <= k < |KeepCycles(g, cs)| ==> KeepCycles(g, cs)[k] in cs
    ensures ReverseTopological(Imports(g), KeepCycles(g, cs))
  {
    hide Reaches, IsComponent, Imports;
    if cs != [] {
      var rest := cs[1..];
      KeptInOrder(g, rest);
      var kept := KeepCycles(g, cs);
      var restKept := KeepCycles(g, rest);
      forall i, j, x, y | 0 <= i < j < |kept| && x in kept[i] && y in kept[j] ensures !Reaches(Imports(g), x, y) {
        if kept == [cs[0]] + restKept {
          assert kept[j] == restKept[j - 1];
          assert kept[j] in rest;
          if i == 0 {
            var m :| 0 <= m < |rest| && rest[m] == kept[j];
            assert cs[m + 1] == kept[j];
          } else {
            assert kept[i] == restKept[i - 1];
          }
        }
      }
    }
  }

  method FindCycles(g: Graph) returns (cycles: seq<seq<Package>>)
    ensures IsCycleReport(g, cycles)
  {
    var finder := new Finder(g);
    finder.Run();
    hide IsComponent, OnCycle, Reaches;
    var sccs := finder.sccs;
    forall k | 0 <= k < |sccs| ensures sccs[k] != [] {
      ComponentNonempty(g, sccs[k]);
    }
    KeptInOrder(g, sccs);
    forall x ensures Listed(KeepCycles(g, sccs), x) <==> Listed(sccs, x) && OnCycle(Imports(g), x) {
      KeptMembers(g, sccs, x);
    }
    cycles := KeepCycles(g, sccs);
  }

  /** No name is listed twice: not in two components, and not twice in one. */
  lemma ListedOnce(r: set<(Package, Package)>, cs: seq<seq<Package>>, i: nat, j: nat, a: nat, b: nat)
    requires forall k :: 0 <= k < |cs| ==> IsComponent(r, cs[k])
    requires ReverseTopological(r, cs)
    requires i < |cs| && j < |cs| && a < |cs[i]| && b < |cs[j]| && cs[i][a] == cs[j][b]
    ensures i == j && a == b
  {
    ReachesSelf(r, cs[i][a]);
    hide Reaches;
    assert cs[i][a] in cs[i] && cs[j][b] in cs[j];
    assert IsComponent(r, cs[i]);
  }
}
