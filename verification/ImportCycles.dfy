/** The `import-cycles` checker: one finding per cyclic component. */
module ImportCycles {
  import opened Wrappers
  import opened Reachability
  import opened ImportGraph
  import opened Tarjan

  /** `edge` is where the finding points; `path` is the component in pop order, closed by its first member. */
  datatype CycleFinding = CycleFinding(edge: Option<ImportEdge>, path: seq<Package>)

  /** An edge from the first member of `cycle` to some member of it. */
  predicate Closes(e: ImportEdge, cycle: seq<Package>)
    requires cycle != []
  {
    e.from == cycle[0] && e.to in cycle
  }

  function FirstClosing(edges: seq<ImportEdge>, cycle: seq<Package>): (e: Option<ImportEdge>)
    requires cycle != []
    ensures e.None? ==> forall i :: 0 <= i < |edges| ==> !Closes(edges[i], cycle)
    ensures e.Some? ==> exists i :: 0 <= i < |edges| && edges[i] == e.value && Closes(edges[i], cycle)
                                    && forall j :: 0 <= j < i ==> !Closes(edges[j], cycle)
  {
    if edges == [] then None
    else if Closes(edges[0], cycle) then Some(edges[0])
    else
      var rest := FirstClosing(edges[1..], cycle);
      assert forall j :: 0 < j < |edges| ==> edges[j] == edges[1..][j - 1];
      assert rest.Some? ==> exists i :: 0 < i < |edges| && edges[i] == rest.value && Closes(edges[i], cycle)
                                        && forall j :: 0 <= j < i ==> !Closes(edges[j], cycle) by {
        if rest.Some? {
          var i :| 0 <= i < |edges[1..]| && edges[1..][i] == rest.value && Closes(edges[1..][i], cycle)
                   && forall j :: 0 <= j < i ==> !Closes(edges[1..][j], cycle);
          assert edges[i + 1] == rest.value;
        }
      }
      rest
  }

  function FindingFor(g: Graph, cycle: seq<Package>): CycleFinding
    requires cycle != []
  {
    CycleFinding(FirstClosing(g.edges, cycle), cycle + [cycle[0]])
  }

  /** The first member of a cyclic component has an edge to a member, so a finding always has a location. */
  lemma CycleHasClosingEdge(g: Graph, cycle: seq<Package>)
    requires IsComponent(Imports(g), cycle) && OnCycle(Imports(g), cycle[0])
    ensures FirstClosing(g.edges, cycle).Some?
  {
    var r, x := Imports(g), cycle[0];
    var y :| (x, y) in r && Reaches(r, y, x);
    ReachesEdge(r, x, y);
    hide Reaches;
    assert x in cycle && Mutual(r, x, y);
    assert y in cycle;
    var e :| e in g.edges && (e.from, e.to) == (x, y);
    assert Closes(e, cycle);
  }

  /** The `i`-th edge is the first that leads from the first member of `cycle` back into it. */
  ghost predicate LeadsBack(edges: seq<ImportEdge>, cycle: seq<Package>, i: nat)
  {
    && i < |edges| && cycle != [] && edges[i].from == cycle[0] && edges[i].to in cycle
    && forall j :: 0 <= j < i ==> !(edges[j].from == cycle[0] && edges[j].to in cycle)
  }

  lemma FirstLeadsBack(edges: seq<ImportEdge>, cycle: seq<Package>)
    requires cycle != [] && FirstClosing(edges, cycle).Some?
    ensures exists i: nat :: LeadsBack(edges, cycle, i) && FirstClosing(edges, cycle) == Some(edges[i])
  {
    var i :| 0 <= i < |edges| && edges[i] == FirstClosing(edges, cycle).value && Closes(edges[i], cycle)
             && forall j :: 0 <= j < i ==> !Closes(edges[j], cycle);
    assert LeadsBack(edges, cycle, i);
  }

  /** What the findings say about the graph. */
  ghost predicate ReportsCycles(g: Graph, findings: seq<CycleFinding>, cycles: seq<seq<Package>>)
  {
    && IsCycleReport(g, cycles)
    && |findings| == |cycles|
    && forall k :: 0 <= k < |cycles| ==>
      && cycles[k] != []
      && (exists i: nat :: LeadsBack(g.edges, cycles[k], i) && findings[k].edge == Some(g.edges[i]))
      && findings[k].path == cycles[k] + [cycles[k][0]]
  }

  method Check(g: Graph) returns (findings: seq<CycleFinding>, cycles: seq<seq<Package>>)
    ensures ReportsCycles(g, findings, cycles)
    ensures findings == [] <==> !exists x :: FromNodes(g, x) && OnCycle(Imports(g), x)
  {
    cycles := FindCycles(g);
    hide Reaches;
    findings := [];
    for k := 0 to |cycles|
      invariant |findings| == k
      invariant forall i :: 0 <= i < k ==>
        && cycles[i] != []
        && (exists j: nat :: LeadsBack(g.edges, cycles[i], j) && findings[i].edge == Some(g.edges[j]))
        && findings[i].path == cycles[i] + [cycles[i][0]]
    {
      CycleMember(g, cycles, k);
      CycleHasClosingEdge(g, cycles[k]);
      FirstLeadsBack(g.edges, cycles[k]);
      findings := findings + [FindingFor(g, cycles[k])];
    }
    CyclesEmptyIffNone(g, cycles);
  }

  lemma CycleMember(g: Graph, cycles: seq<seq<Package>>, k: nat)
    requires IsCycleReport(g, cycles) && k < |cycles|
    ensures IsComponent(Imports(g), cycles[k]) && OnCycle(Imports(g), cycles[k][0])
  {
    hide Reaches, OnCycle;
    var x := cycles[k][0];
    assert x in cycles[k];
    assert Listed(cycles, x);
  }

  lemma CyclesEmptyIffNone(g: Graph, cycles: seq<seq<Package>>)
    requires IsCycleReport(g, cycles)
    ensures cycles == [] <==> !exists x :: FromNodes(g, x) && OnCycle(Imports(g), x)
  {
    hide Reaches, OnCycle, FromNodes;
    if cycles != [] {
      CycleMember(g, cycles, 0);
      assert cycles[0][0] in cycles[0];
      assert Listed(cycles, cycles[0][0]);
    } else {
      forall x ensures !(FromNodes(g, x) && OnCycle(Imports(g), x)) {
        assert !Listed(cycles, x);
      }
    }
  }

  /** When every importer is a declared node, silence means the whole edge relation is acyclic. */
  lemma SilentIffAcyclic(g: Graph, cycles: seq<seq<Package>>)
    requires IsCycleReport(g, cycles)
    requires forall e :: e in g.edges ==> e.from in g.nodes
    ensures cycles == [] <==> forall x :: !OnCycle(Imports(g), x)
  {
    CyclesEmptyIffNone(g, cycles);
    forall x | OnCycle(Imports(g), x) ensures FromNodes(g, x) {
      var y :| (x, y) in Imports(g) && Reaches(Imports(g), y, x);
      var e :| e in g.edges && (e.from, e.to) == (x, y);
      NodeIsFromNodes(g, x);
    }
  }
}
