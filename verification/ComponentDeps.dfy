/** The `component-deps` and `layering` reports for any config: exactly which edges, and in which order. */
module ComponentDeps {
  import opened Basics
  import opened Wrappers
  import opened ImportGraph
  import opened Glob
  import opened Layering

  // ---------------------------------------------------------------------------
  // What the config says
  // ---------------------------------------------------------------------------

  /** A layer stands for every node with its name as a segment, by the four patterns for that. */
  predicate InLayer(node: string, layer: string)
  {
    MatchesScope(node, [layer, layer + "/**", "**/" + layer, "**/" + layer + "/**"])
  }

  /** The `k`-th component is the first to include the node. */
  ghost predicate FirstComponent(components: seq<Component>, node: string, k: nat)
  {
    && k < |components| && MatchesScope(node, components[k].paths)
    && forall j :: 0 <= j < k ==> !MatchesScope(node, components[j].paths)
  }

  ghost predicate FirstLayer(layers: seq<string>, node: string, i: nat)
  {
    i < |layers| && InLayer(node, layers[i]) && forall j :: 0 <= j < i ==> !InLayer(node, layers[j])
  }

  /** `x` is the component of `node`: declared components come before layers. */
  ghost predicate BelongsTo(config: Config, node: string, x: string)
  {
    || (exists k: nat :: FirstComponent(config.components, node, k) && config.components[k].name == x)
    || ((forall j :: 0 <= j < |config.components| ==> !MatchesScope(node, config.components[j].paths))
        && exists i: nat :: FirstLayer(config.layers, node, i) && config.layers[i] == x)
  }

  /** The `k`-th rule is the first to name `x`. */
  ghost predicate FirstRule(rules: seq<DependencyRule>, x: string, k: nat)
  {
    k < |rules| && rules[k].component == x && forall j :: 0 <= j < k ==> rules[j].component != x
  }

  /**
   * Declared rules come before layers, which allow themselves and what follows them; without a rule nothing is allowed.
   */
  ghost predicate Forbids(config: Config, x: string, y: string)
  {
    if exists k: nat :: FirstRule(config.dependencyRules, x, k) then
      exists k: nat :: FirstRule(config.dependencyRules, x, k)
        && (y in config.dependencyRules[k].denyDependOn
            || (config.dependencyRules[k].mayDependOn.Some? && y !in config.dependencyRules[k].mayDependOn.value))
    else
      forall i: nat :: FirstAt(config.layers, i) && config.layers[i] == x ==> y !in config.layers[i..]
  }

  /** An edge between declared nodes, from one component to another that the first may not depend on. */
  ghost predicate Offends(g: Graph, config: Config, e: ImportEdge)
  {
    && e.from in g.nodes && e.to in g.nodes
    && exists x, y :: BelongsTo(config, e.from, x) && BelongsTo(config, e.to, y) && x != y && Forbids(config, x, y)
  }

  /** One finding for each of these edges, in the order of `edges`. */
  ghost function FindingsOn(edges: seq<ImportEdge>, bad: set<ImportEdge>): seq<ArchFinding>
  {
    if edges == [] then []
    else (if edges[0] in bad then [ArchFinding(Some(edges[0]), None)] else []) + FindingsOn(edges[1..], bad)
  }

  // ---------------------------------------------------------------------------
  // Components
  // ---------------------------------------------------------------------------

  lemma {:induction false} ComponentIsFirst(components: seq<Component>, node: string)
    ensures var x := ComponentOf(node, components);
            && (x.Some? ==> exists k: nat :: FirstComponent(components, node, k) && components[k].name == x.value)
            && (x.None? ==> forall j :: 0 <= j < |components| ==> !MatchesScope(node, components[j].paths))
  {
    hide MatchesScope;
    if components != [] {
      var rest := components[1..];
      ComponentIsFirst(rest, node);
      assert forall j :: 0 < j < |components| ==> components[j] == rest[j - 1];
      if MatchesScope(node, components[0].paths) {
        assert FirstComponent(components, node, 0);
      } else if ComponentOf(node, rest).Some? {
        var k: nat :| FirstComponent(rest, node, k) && rest[k].name == ComponentOf(node, rest).value;
        assert FirstComponent(components, node, k + 1);
      }
    }
  }

  lemma {:induction false} ComponentOfBoth(a: seq<Component>, b: seq<Component>, node: string)
    ensures ComponentOf(node, a + b)
            == if ComponentOf(node, a).Some? then ComponentOf(node, a) else ComponentOf(node, b)
  {
    hide MatchesScope;
    if a == [] {
      assert a + b == b;
    } else {
      ComponentOfBoth(a[1..], b, node);
      assert (a + b)[1..] == a[1..] + b;
    }
  }

  lemma FirstOfLayers(layers: seq<string>, node: string, k: nat)
    ensures FirstComponent(DesugarLayersToComponents(layers), node, k) <==> FirstLayer(layers, node, k)
  {
    LayerScopes(layers, node);
    hide MatchesScope, InLayer, DesugarLayersToComponents;
  }

  lemma LayerScopes(layers: seq<string>, node: string)
    ensures forall i :: 0 <= i < |layers| ==>
              (MatchesScope(node, DesugarLayersToComponents(layers)[i].paths) <==> InLayer(node, layers[i]))
  {
    hide MatchesScope;
    forall i | 0 <= i < |layers| ensures DesugarLayersToComponents(layers)[i].paths
      == [layers[i], layers[i] + "/**", "**/" + layers[i], "**/" + layers[i] + "/**"]
    {
    }
  }

  lemma OneFirst(components: seq<Component>, node: string, j: nat, k: nat)
    requires FirstComponent(components, node, j) && FirstComponent(components, node, k)
    ensures j == k
  {
    hide MatchesScope;
  }

  /** The component that the checker resolves a node to is the one it belongs to. */
  lemma ResolvedIffBelongs(config: Config, node: string, x: string)
    ensures ComponentOf(node, EffectiveComponents(config)) == Some(x) <==> BelongsTo(config, node, x)
  {
    var declared, layered := config.components, DesugarLayersToComponents(config.layers);
    hide MatchesScope, DesugarLayersToComponents, ComponentOf, FirstComponent, FirstLayer;
    ComponentOfBoth(declared, layered, node);
    ComponentIsFirst(declared, node);
    ComponentIsFirst(layered, node);
    forall k: nat ensures FirstComponent(layered, node, k) <==> FirstLayer(config.layers, node, k) {
      FirstOfLayers(config.layers, node, k);
    }
    FirstIsInside(declared, node);
    FirstIsInside(layered, node);
    LayerNames(config.layers);
    forall j: nat, k: nat | FirstComponent(declared, node, j) && FirstComponent(declared, node, k) ensures j == k {
      OneFirst(declared, node, j, k);
    }
    forall j: nat, k: nat | FirstComponent(layered, node, j) && FirstComponent(layered, node, k) ensures j == k {
      OneFirst(layered, node, j, k);
    }
  }

  lemma FirstIsInside(components: seq<Component>, node: string)
    ensures forall k: nat :: FirstComponent(components, node, k) ==>
              k < |components| && MatchesScope(node, components[k].paths)
  {
    hide MatchesScope;
  }

  lemma LayerNames(layers: seq<string>)
    ensures forall k: nat :: k < |layers| ==> DesugarLayersToComponents(layers)[k].name == layers[k]
  {
  }

  // ---------------------------------------------------------------------------
  // Rules
  // ---------------------------------------------------------------------------

  lemma {:induction false} RuleIsFirst(rules: seq<DependencyRule>, x: string)
    ensures var r := RuleFor(x, rules);
            && (r.Some? ==> exists k: nat :: FirstRule(rules, x, k) && rules[k] == r.value)
            && (r.None? ==> forall k: nat :: !FirstRule(rules, x, k))
  {
    if rules != [] {
      var rest := rules[1..];
      RuleIsFirst(rest, x);
      assert forall j :: 0 < j < |rules| ==> rules[j] == rest[j - 1];
      if rules[0].component == x {
        assert FirstRule(rules, x, 0);
      } else {
        forall k: nat ensures FirstRule(rules, x, k) <==> k > 0 && FirstRule(rest, x, k - 1) {
          assert k > 0 && k < |rules| ==> rules[k] == rest[k - 1];
        }
        if r: nat :| FirstRule(rest, x, r) {
          assert FirstRule(rules, x, r + 1);
        }
      }
    }
  }

  lemma {:induction false} RuleOfBoth(a: seq<DependencyRule>, b: seq<DependencyRule>, x: string)
    ensures RuleFor(x, a + b) == if RuleFor(x, a).Some? then RuleFor(x, a) else RuleFor(x, b)
  {
    if a == [] {
      assert a + b == b;
    } else {
      RuleOfBoth(a[1..], b, x);
      assert (a + b)[1..] == a[1..] + b;
    }
  }

  lemma FirstRuleOfLayers(layers: seq<string>, x: string, i: nat)
    ensures FirstRule(DesugarLayersToRules(layers), x, i) <==> FirstAt(layers, i) && layers[i] == x
    ensures i < |layers| ==> DesugarLayersToRules(layers)[i] == DependencyRule(layers[i], Some(layers[i..]), [])
  {
    var rules := DesugarLayersToRules(layers);
    assert forall j: nat :: j < |layers| ==> rules[j].component == layers[j];
  }

  lemma OneFirstRule(rules: seq<DependencyRule>, x: string, j: nat, k: nat)
    requires FirstRule(rules, x, j) && FirstRule(rules, x, k)
    ensures j == k
  {
  }

  /** What the checker decides about two components is what the config says. */
  lemma ViolatesIffForbids(config: Config, x: string, y: string)
    ensures Violates(y, RuleFor(x, EffectiveDependencyRules(config))) <==> Forbids(config, x, y)
  {
    var declared, layered := config.dependencyRules, DesugarLayersToRules(config.layers);
    RuleOfBoth(declared, layered, x);
    RuleIsFirst(declared, x);
    RuleIsFirst(layered, x);
    hide RuleFor, DesugarLayersToRules;
    if RuleFor(x, declared).Some? {
      forall j: nat, k: nat | FirstRule(declared, x, j) && FirstRule(declared, x, k) ensures j == k {
        OneFirstRule(declared, x, j, k);
      }
      hide FirstRule;
    } else {
      forall i: nat
        ensures FirstRule(layered, x, i) <==> FirstAt(config.layers, i) && config.layers[i] == x
        ensures i < |config.layers| ==> layered[i] == DependencyRule(config.layers[i], Some(config.layers[i..]), [])
      {
        FirstRuleOfLayers(config.layers, x, i);
      }
      forall j: nat, k: nat | FirstRule(layered, x, j) && FirstRule(layered, x, k) ensures j == k {
        OneFirstRule(layered, x, j, k);
      }
      hide FirstRule;
    }
  }

  // ---------------------------------------------------------------------------
  // Reports
  // ---------------------------------------------------------------------------

  lemma FlaggedIffOffends(g: Graph, config: Config, e: ImportEdge)
    ensures e.from in g.nodes && e.to in g.nodes
            && ComponentFlags(EffectiveComponents(config), EffectiveDependencyRules(config), e.from, e.to)
            <==> Offends(g, config, e)
  {
    hide ComponentOf, EffectiveComponents, EffectiveDependencyRules, RuleFor, Violates, BelongsTo, Forbids;
    forall node, x ensures ComponentOf(node, EffectiveComponents(config)) == Some(x) <==> BelongsTo(config, node, x) {
      ResolvedIffBelongs(config, node, x);
    }
    forall x, y ensures Violates(y, RuleFor(x, EffectiveDependencyRules(config))) <==> Forbids(config, x, y) {
      ViolatesIffForbids(config, x, y);
    }
  }

  lemma {:induction false} ViolationsAreOffences(g: Graph, config: Config, edges: seq<ImportEdge>, bad: set<ImportEdge>)
    requires forall e :: e in edges ==> (e in bad <==> Offends(g, config, e))
    ensures ComponentViolations(edges, g.nodes, EffectiveComponents(config), EffectiveDependencyRules(config))
            == FindingsOn(edges, bad)
  {
    hide ComponentFlags, EffectiveComponents, EffectiveDependencyRules, Offends;
    if edges != [] {
      assert edges == [edges[0]] + edges[1..];
      FlaggedIffOffends(g, config, edges[0]);
      ViolationsAreOffences(g, config, edges[1..], bad);
    }
  }

  /** The declared components, and then the layers, by position, that no node belongs in. */
  ghost function Unmatched(config: Config, nodes: seq<string>): set<nat>
  {
    set k: nat | k < |config.components| + |config.layers| &&
      forall n :: n in nodes ==>
        !(if k < |config.components| then MatchesScope(n, config.components[k].paths)
          else InLayer(n, config.layers[k - |config.components|]))
  }

  ghost function UnmatchedFrom(components: seq<Component>, nodes: seq<string>, i: nat): set<nat>
  {
    set k: nat | i <= k < |components| && forall n :: n in nodes ==> !MatchesScope(n, components[k].paths)
  }

  lemma {:induction false} AdvisoriesCount(components: seq<Component>, nodes: seq<string>, i: nat)
    requires i <= |components|
    ensures |UnmatchedComponents(components[i..], nodes)| == |UnmatchedFrom(components, nodes, i)|
    decreases |components| - i
  {
    hide MatchesScope;
    if i == |components| {
      assert UnmatchedFrom(components, nodes, i) == {};
    } else {
      AdvisoriesCount(components, nodes, i + 1);
      assert components[i..][1..] == components[i + 1..];
      if forall n :: n in nodes ==> !MatchesScope(n, components[i].paths) {
        assert UnmatchedFrom(components, nodes, i) == {i} + UnmatchedFrom(components, nodes, i + 1);
      } else {
        assert UnmatchedFrom(components, nodes, i) == UnmatchedFrom(components, nodes, i + 1);
      }
    }
  }

  lemma UnmatchedAre(config: Config, nodes: seq<string>)
    ensures UnmatchedFrom(EffectiveComponents(config), nodes, 0) == Unmatched(config, nodes)
  {
    hide MatchesScope, InLayer, DesugarLayersToComponents;
    var all, n := EffectiveComponents(config), |config.components|;
    forall k: nat ensures k in UnmatchedFrom(all, nodes, 0) <==> k in Unmatched(config, nodes) {
      if n <= k < |all| {
        assert all[k] == DesugarLayersToComponents(config.layers)[k - n];
        forall node | node in nodes
          ensures MatchesScope(node, all[k].paths) <==> InLayer(node, config.layers[k - n])
        {
          LayerScopes(config.layers, node);
        }
      }
    }
  }

  /**
   * The whole `component-deps` report, for any config: the offending edges in edge order, and after them one
   * advisory for each declared component or layer that no node belongs in.
   */
  lemma ComponentReport(g: Graph, config: Config)
    ensures ComponentCheck(g, config)
            == FindingsOn(g.edges, set e | e in g.edges && Offends(g, config, e))
               + seq(|Unmatched(config, g.nodes)|, _ => ArchFinding(None, Some(Advisory)))
  {
    hide MatchesScope, Offends, EffectiveDependencyRules, ComponentViolations, UnmatchedFrom, Unmatched;
    ViolationsAreOffences(g, config, g.edges, set e | e in g.edges && Offends(g, config, e));
    var all := EffectiveComponents(config);
    AdvisoriesCount(all, g.nodes, 0);
    assert all[0..] == all;
    UnmatchedAre(config, g.nodes);
    hide EffectiveComponents;
    assert forall k :: 0 <= k < |UnmatchedComponents(all, g.nodes)| ==>
      UnmatchedComponents(all, g.nodes)[k] in UnmatchedComponents(all, g.nodes);
  }

  lemma {:induction false} FoundIffBad(edges: seq<ImportEdge>, bad: set<ImportEdge>, e: ImportEdge)
    ensures ArchFinding(Some(e), None) in FindingsOn(edges, bad) <==> e in edges && e in bad
  {
    if edges != [] {
      FoundIffBad(edges[1..], bad, e);
      assert edges == [edges[0]] + edges[1..];
    }
  }

  /**
   * An edge is reported if and only if it joins declared nodes of different components, and no rule names the first, or
   * the first rule that names it denies the second or has an allow-list without it.
   */
  lemma ReportedIff(g: Graph, config: Config, e: ImportEdge)
    ensures ArchFinding(Some(e), None) in ComponentCheck(g, config) <==> e in g.edges && Offends(g, config, e)
  {
    hide Offends, ComponentCheck;
    ComponentReport(g, config);
    FoundIffBad(g.edges, (set x | x in g.edges && Offends(g, config, x)), e);
  }

  // ---------------------------------------------------------------------------
  // Layering
  // ---------------------------------------------------------------------------

  /** The layer of the node: the first whose name is one of its segments. */
  ghost predicate OnLayer(layers: seq<string>, node: string, i: nat)
  {
    i < |layers| && layers[i] in Split(node) && forall j :: 0 <= j < i ==> layers[j] !in Split(node)
  }

  /** The edge goes from a later layer to an earlier one. */
  ghost predicate GoesBack(layers: seq<string>, e: ImportEdge)
  {
    exists f: nat, t: nat :: OnLayer(layers, e.from, f) && OnLayer(layers, e.to, t) && t < f
  }

  lemma {:induction false} LayeringIsBack(edges: seq<ImportEdge>, layers: seq<string>, bad: set<ImportEdge>)
    requires forall e :: e in edges ==> (e in bad <==> GoesBack(layers, e))
    ensures LayeringFindings(edges, layers) == FindingsOn(edges, bad)
  {
    hide Split;
    if edges != [] {
      assert edges == [edges[0]] + edges[1..];
      var f, t := LayerOf(edges[0].from, layers), LayerOf(edges[0].to, layers);
      if f.Some? && t.Some? {
        assert OnLayer(layers, edges[0].from, f.value) && OnLayer(layers, edges[0].to, t.value);
      }
      LayeringIsBack(edges[1..], layers, bad);
    }
  }

  /** The whole `layering` report: the edges that go back, in edge order. */
  lemma LayeringReport(g: Graph, config: Config)
    ensures LayeringCheck(g, config) == FindingsOn(g.edges, set e | e in g.edges && GoesBack(config.layers, e))
  {
    hide GoesBack;
    LayeringIsBack(g.edges, config.layers, set e | e in g.edges && GoesBack(config.layers, e));
    if config.layers == [] {
      NoLayersNoFindings(g.edges);
    }
  }
}
