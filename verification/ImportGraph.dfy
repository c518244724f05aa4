/** The import graph of a repository, at package granularity. */
module ImportGraph {
  import opened Reachability

  /** A package key: a `/`-separated path. The graph algorithms only compare keys. */
  type Package = string

  datatype ImportEdge = ImportEdge(from: Package, to: Package, file: string, line: nat)

  /** `nodes` lists the ordered node set in its iteration order. */
  datatype Graph = Graph(nodes: seq<Package>, edges: seq<ImportEdge>)

  /** The import relation, forgetting which statement produced each edge. */
  ghost function ImportRelation(edges: seq<ImportEdge>): set<(Package, Package)>
  {
    set e | e in edges :: (e.from, e.to)
  }

  ghost function Imports(g: Graph): set<(Package, Package)>
  {
    ImportRelation(g.edges)
  }

  lemma EdgeImports(g: Graph, e: ImportEdge)
    requires e in g.edges
    ensures (e.from, e.to) in Imports(g) && e.to in Mentioned(g)
  {
  }

  /** Every name the graph mentions, as a node or as an edge target. */
  ghost function Mentioned(g: Graph): set<Package>
  {
    (set n | n in g.nodes) + (set e | e in g.edges :: e.to)
  }

  /** A name some declared node reaches, whether or not it is itself declared. */
  ghost predicate FromNodes(g: Graph, x: Package)
  {
    exists n :: n in g.nodes && Reaches(Imports(g), n, x)
  }

  lemma FromNodesStep(g: Graph, x: Package, y: Package)
    requires FromNodes(g, x) && (x, y) in Imports(g)
    ensures FromNodes(g, y)
  {
    var n :| n in g.nodes && Reaches(Imports(g), n, x);
    ReachesEdge(Imports(g), x, y);
    ReachesTrans(Imports(g), n, x, y);
  }
}
