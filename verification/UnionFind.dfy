/** Union-find over the indices of an array of parents, with path compression and no ranks. */
module UnionFind {

  /** Ghost description of a forest: the root of each element, and ranks that grow towards the roots. */
  datatype Shape = Shape(rep: seq<nat>, rank: seq<nat>, bound: nat)

  ghost predicate IsForest(parent: seq<nat>, s: Shape)
  {
    && |s.rep| == |s.rank| == |parent|
    && forall i :: 0 <= i < |parent| ==>
      && parent[i] < |parent| && s.rep[i] < |parent| && s.rank[i] < s.bound
      && s.rep[parent[i]] == s.rep[i]
      && parent[s.rep[i]] == s.rep[i]
      && (parent[i] == i ==> s.rep[i] == i)
      && (parent[i] != i ==> s.rank[i] < s.rank[parent[i]])
      && (s.rep[i] != i ==> s.rank[i] < s.rank[s.rep[i]])
  }

  /** The roots after merging the sets of `a` and `b`. */
  function Merged(rep: seq<nat>, a: nat, b: nat): (m: seq<nat>)
    requires a < |rep| && b < |rep|
    ensures |m| == |rep|
  {
    seq(|rep|, i requires 0 <= i < |rep| => if rep[i] == rep[a] then rep[b] else rep[i])
  }

  ghost function Singletons(n: nat): (s: Shape)
  {
    Shape(seq(n, i => i), seq(n, _ => 0), 1)
  }

  method Init(n: nat) returns (parent: array<nat>)
    ensures fresh(parent) && parent.Length == n && IsForest(parent[..], Singletons(n))
  {
    parent := new nat[n](i => i);
  }

  lemma CompressKeepsForest(parent: seq<nat>, s: Shape, x: nat)
    requires IsForest(parent, s) && x < |parent|
    ensures IsForest(parent[x := s.rep[x]], s)
  {
  }

  method Root(parent: array<nat>, x: nat, ghost s: Shape) returns (r: nat)
    requires x < parent.Length && IsForest(parent[..], s)
    modifies parent
    ensures IsForest(parent[..], s) && r == s.rep[x] == parent[x]
    decreases s.bound - s.rank[x]
  {
    if parent[x] != x {
      assert parent[..][x] == parent[x];
      var up := Root(parent, parent[x], s);
      CompressKeepsForest(parent[..], s, x);
      parent[x] := up;
    }
    r := parent[x];
  }

  ghost function Linked(s: Shape, ra: nat, rb: nat): Shape
    requires ra < |s.rep| && rb < |s.rep| && |s.rep| == |s.rank|
  {
    Shape(Merged(s.rep, ra, rb), s.rank[rb := s.rank[rb] + s.rank[ra] + 1], 2 * s.bound + 1)
  }

  lemma LinkKeepsForest(parent: seq<nat>, s: Shape, ra: nat, rb: nat)
    requires IsForest(parent, s) && ra < |parent| && rb < |parent|
    requires s.rep[ra] == ra && s.rep[rb] == rb && ra != rb
    ensures IsForest(parent[ra := rb], Linked(s, ra, rb))
  {
  }

  method Union(parent: array<nat>, a: nat, b: nat, ghost s: Shape) returns (ghost t: Shape)
    requires a < parent.Length && b < parent.Length && IsForest(parent[..], s)
    modifies parent
    ensures IsForest(parent[..], t) && t.rep == Merged(s.rep, a, b)
  {
    var ra := Root(parent, a, s);
    var rb := Root(parent, b, s);
    if ra != rb {
      LinkKeepsForest(parent[..], s, ra, rb);
      t := Linked(s, ra, rb);
      parent[ra] := rb;
    } else {
      t := s;
      assert s.rep == Merged(s.rep, a, b);
    }
  }
}
