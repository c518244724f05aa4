/** The `layering` and `component-deps` checkers, and the desugaring of layers that should make them agree. */
module Layering {
  import opened Basics
  import opened Wrappers
  import opened ImportGraph
  import opened Glob

  datatype Component = Component(name: string, paths: seq<string>)

  datatype DependencyRule = DependencyRule(component: string, mayDependOn: Option<seq<string>>,
                                           denyDependOn: seq<string>)

  datatype Config = Config(layers: seq<string>, components: seq<Component>, dependencyRules: seq<DependencyRule>)

  /** A finding without its message text. */
  datatype ArchFinding = ArchFinding(edge: Option<ImportEdge>, severityOverride: Option<Severity>)

  // ---------------------------------------------------------------------------
  // Layers
  // ---------------------------------------------------------------------------

  /** The first layer whose name is a segment of `node`. */
  function LayerOf(node: string, layers: seq<string>): (i: Option<nat>)
    ensures i.Some? ==> i.value < |layers| && layers[i.value] in Split(node)
                        && forall k :: 0 <= k < i.value ==> layers[k] !in Split(node)
    ensures i.None? ==> forall k :: 0 <= k < |layers| ==> layers[k] !in Split(node)
  {
    if layers == [] then None
    else if layers[0] in Split(node) then Some(0)
    else
      var rest := LayerOf(node, layers[1..]);
      assert forall k :: 0 < k < |layers| ==> layers[k] == layers[1..][k - 1];
      if rest.Some? then Some(rest.value + 1) else None
  }

  /** A later layer reaches back into an earlier one. */
  predicate LayeringFlags(layers: seq<string>, from: string, to: string)
  {
    var f, t := LayerOf(from, layers), LayerOf(to, layers);
    f.Some? && t.Some? && t.value < f.value
  }

  function LayeringCheck(g: Graph, config: Config): seq<ArchFinding>
  {
    if config.layers == [] then [] else LayeringFindings(g.edges, config.layers)
  }

  function LayeringFindings(edges: seq<ImportEdge>, layers: seq<string>): seq<ArchFinding>
  {
    if edges == [] then []
    else
      (if LayeringFlags(layers, edges[0].from, edges[0].to) then [ArchFinding(Some(edges[0]), None)] else [])
      + LayeringFindings(edges[1..], layers)
  }

  // ---------------------------------------------------------------------------
  // Components
  // ---------------------------------------------------------------------------

  function DesugarLayersToComponents(layers: seq<string>): (components: seq<Component>)
    ensures |components| == |layers|
  {
    seq(|layers|, i requires 0 <= i < |layers| => Component(layers[i], SegmentPatterns(layers[i])))
  }

  /** A layer may depend on itself and on every layer after it. */
  function DesugarLayersToRules(layers: seq<string>): (rules: seq<DependencyRule>)
    ensures |rules| == |layers|
  {
    seq(|layers|, i requires 0 <= i < |layers| => DependencyRule(layers[i], Some(layers[i..]), []))
  }

  function EffectiveComponents(config: Config): seq<Component>
  {
    config.components + DesugarLayersToComponents(config.layers)
  }

  function EffectiveDependencyRules(config: Config): seq<DependencyRule>
  {
    config.dependencyRules + DesugarLayersToRules(config.layers)
  }

  /** The first component whose patterns include `node`. */
  function ComponentOf(node: string, components: seq<Component>): Option<string>
  {
    if components == [] then None
    else if MatchesScope(node, components[0].paths) then Some(components[0].name)
    else ComponentOf(node, components[1..])
  }

  function RuleFor(component: string, rules: seq<DependencyRule>): Option<DependencyRule>
  {
    if rules == [] then None
    else if rules[0].component == component then Some(rules[0])
    else RuleFor(component, rules[1..])
  }

  /** Deny wins; an allow-list is closed; no allow-list allows; no rule at all denies. */
  predicate Violates(to: string, rule: Option<DependencyRule>)
  {
    match rule
    case None => true
    case Some(r) => to in r.denyDependOn || (r.mayDependOn.Some? && to !in r.mayDependOn.value)
  }

  predicate ComponentFlags(components: seq<Component>, rules: seq<DependencyRule>, from: string, to: string)
  {
    var f, t := ComponentOf(from, components), ComponentOf(to, components);
    f.Some? && t.Some? && f.value != t.value && Violates(t.value, RuleFor(f.value, rules))
  }

  function ComponentViolations(edges: seq<ImportEdge>, nodes: seq<string>, components: seq<Component>,
                               rules: seq<DependencyRule>): seq<ArchFinding>
  {
    if edges == [] then []
    else
      var e := edges[0];
      (if e.from in nodes && e.to in nodes && ComponentFlags(components, rules, e.from, e.to)
       then [ArchFinding(Some(e), None)] else [])
      + ComponentViolations(edges[1..], nodes, components, rules)
  }

  /** One advisory per component whose patterns match nothing. */
  function UnmatchedComponents(components: seq<Component>, nodes: seq<string>): (a: seq<ArchFinding>)
    ensures forall f :: f in a ==> f == ArchFinding(None, Some(Advisory))
  {
    if components == [] then []
    else
      (if exists n :: n in nodes && MatchesScope(n, components[0].paths) then []
       else [ArchFinding(None, Some(Advisory))])
      + UnmatchedComponents(components[1..], nodes)
  }

  function ComponentCheck(g: Graph, config: Config): seq<ArchFinding>
  {
    ComponentViolations(g.edges, g.nodes, EffectiveComponents(config), EffectiveDependencyRules(config))
    + UnmatchedComponents(EffectiveComponents(config), g.nodes)
  }

  // ---------------------------------------------------------------------------
  // Resolution agrees
  // ---------------------------------------------------------------------------

  /** Layer names that are plain segment names. */
  predicate PlainLayers(layers: seq<string>)
  {
    forall l :: l in layers ==> IsPlain(l)
  }

  /** The first layer whose name is a clear segment of `node`: the one that the patterns find. */
  ghost function ClearLayerOf(node: string, layers: seq<string>): (i: Option<nat>)
    ensures i.Some? ==> i.value < |layers| && ClearSegment(node, layers[i.value])
    ensures i.Some? ==> forall k :: 0 <= k < i.value ==> !ClearSegment(node, layers[k])
    ensures i.None? ==> forall k :: 0 <= k < |layers| ==> !ClearSegment(node, layers[k])
  {
    if layers == [] then None
    else if ClearSegment(node, layers[0]) then Some(0)
    else
      var rest := ClearLayerOf(node, layers[1..]);
      assert forall k :: 0 < k < |layers| ==> layers[k] == layers[1..][k - 1];
      if rest.Some? then Some(rest.value + 1) else None
  }

  function NameAt(layers: seq<string>, i: Option<nat>): Option<string>
    requires i.Some? ==> i.value < |layers|
  {
    if i.Some? then Some(layers[i.value]) else None
  }

  /** The component of a node, whatever the node. */
  lemma {:induction false} ComponentIsClearLayer(layers: seq<string>, node: string)
    requires PlainLayers(layers)
    ensures ComponentOf(node, DesugarLayersToComponents(layers)) == NameAt(layers, ClearLayerOf(node, layers))
  {
    if layers != [] {
      hide IsPlain, ClearSegment, MatchesScope, SegmentPatterns;
      var rest := layers[1..];
      assert DesugarLayersToComponents(layers)[1..] == DesugarLayersToComponents(rest);
      assert DesugarLayersToComponents(layers)[0] == Component(layers[0], SegmentPatterns(layers[0]));
      ScopeFindsSegment(node, layers[0]);
      assert forall l :: l in rest ==> l in layers;
      ComponentIsClearLayer(rest, node);
    }
  }

  /** No line break around the layer that a segment search finds, if it finds one. */
  ghost predicate Seen(layers: seq<string>, node: string)
  {
    var i := LayerOf(node, layers);
    i.Some? ==> ClearSegment(node, layers[i.value])
  }

  lemma ClearLayersAreLayers(layers: seq<string>, node: string)
    requires PlainLayers(layers)
    ensures forall k :: 0 <= k < |layers| && ClearSegment(node, layers[k]) ==> layers[k] in Split(node)
  {
    hide ClearSegment, Split;
    forall k | 0 <= k < |layers| && ClearSegment(node, layers[k]) ensures layers[k] in Split(node) {
      assert layers[k] in layers;
      ClearIsSegment(node, layers[k]);
    }
  }

  lemma SeenIsClear(layers: seq<string>, node: string)
    requires PlainLayers(layers)
    ensures Seen(layers, node) ==> ClearLayerOf(node, layers) == LayerOf(node, layers)
  {
    hide ClearSegment, Split;
    ClearLayersAreLayers(layers, node);
  }

  /** The component of a node is the layer of that node exactly when that layer is clear to see. */
  lemma ResolutionAgrees(layers: seq<string>, node: string)
    requires PlainLayers(layers)
    ensures ComponentOf(node, DesugarLayersToComponents(layers)) == NameAt(layers, LayerOf(node, layers))
            <==> Seen(layers, node)
  {
    hide ClearSegment, Split, PlainLayers, ComponentOf;
    ComponentIsClearLayer(layers, node);
    SeenIsClear(layers, node);
  }

  lemma NodeWithoutLineBreakIsSeen(layers: seq<string>, node: string)
    requires PlainLayers(layers) && '\n' !in node
    ensures Seen(layers, node)
  {
    hide ClearSegment, Split;
    var i := LayerOf(node, layers);
    if i.Some? {
      assert layers[i.value] in layers;
      ClearIffSegment(node, layers[i.value]);
    }
  }

  lemma LayerNodeIsSeen(layers: seq<string>, name: string)
    requires '/' !in name
    ensures Split(name) == [name] && Seen(layers, name)
  {
    SplitOne(name);
    assert Around("", "") && name == "" + name + "";
  }

  lemma {:induction false} SplitOne(name: string)
    requires '/' !in name
    ensures Split(name) == [name]
  {
    if name != "" {
      SplitOne(name[1..]);
      assert name == [name[0]] + name[1..];
    }
  }

  /** The first position of a name. */
  ghost predicate FirstAt(layers: seq<string>, i: nat)
  {
    i < |layers| && forall k :: 0 <= k < i ==> layers[k] != layers[i]
  }

  lemma {:induction false} RuleOfLayer(layers: seq<string>, i: nat, suffix: nat)
    requires FirstAt(layers, i) && suffix <= i
    ensures RuleFor(layers[i], DesugarLayersToRules(layers)[suffix..])
            == Some(DependencyRule(layers[i], Some(layers[i..]), []))
    decreases i - suffix
  {
    var rules := DesugarLayersToRules(layers)[suffix..];
    assert rules[0] == DependencyRule(layers[suffix], Some(layers[suffix..]), []);
    if suffix < i {
      assert rules[1..] == DesugarLayersToRules(layers)[suffix + 1..];
      RuleOfLayer(layers, i, suffix + 1);
    }
  }

  lemma LayerIsFirst(layers: seq<string>, node: string)
    ensures LayerOf(node, layers).Some? ==> FirstAt(layers, LayerOf(node, layers).value)
    ensures ClearLayerOf(node, layers).Some? ==> FirstAt(layers, ClearLayerOf(node, layers).value)
  {
    hide ClearSegment, Split;
  }

  /** What `component-deps` decides about any edge, in terms of layer positions. */
  lemma VerdictByPositions(layers: seq<string>, from: string, to: string)
    requires PlainLayers(layers)
    ensures var f, t := ClearLayerOf(from, layers), ClearLayerOf(to, layers);
            ComponentFlags(DesugarLayersToComponents(layers), DesugarLayersToRules(layers), from, to)
            <==> f.Some? && t.Some? && layers[t.value] !in layers[f.value..]
  {
    hide PlainLayers, ClearLayerOf;
    ComponentIsClearLayer(layers, from);
    ComponentIsClearLayer(layers, to);
    LayerIsFirst(layers, from);
    var f := ClearLayerOf(from, layers);
    if f.Some? {
      RuleOfLayer(layers, f.value, 0);
      assert DesugarLayersToRules(layers)[0..] == DesugarLayersToRules(layers);
      assert layers[f.value..][0] == layers[f.value];
    }
  }

  // ---------------------------------------------------------------------------
  // Verdicts agree exactly when repeated layer names stand together
  // ---------------------------------------------------------------------------

  /** A name that is repeated has no other name between its occurrences. */
  predicate RepeatsTogether(layers: seq<string>)
  {
    forall a, b, c :: 0 <= a < b < c < |layers| && layers[a] == layers[c] ==> layers[b] == layers[a]
  }

  ghost predicate Agree(layers: seq<string>, from: string, to: string)
  {
    LayeringFlags(layers, from, to)
    <==> ComponentFlags(DesugarLayersToComponents(layers), DesugarLayersToRules(layers), from, to)
  }

  lemma TogetherAgrees(layers: seq<string>, from: string, to: string)
    requires PlainLayers(layers) && Seen(layers, from) && Seen(layers, to) && RepeatsTogether(layers)
    ensures Agree(layers, from, to)
  {
    hide PlainLayers, Seen, Split;
    VerdictByPositions(layers, from, to);
    SeenIsClear(layers, from);
    SeenIsClear(layers, to);
    LayerIsFirst(layers, from);
    LayerIsFirst(layers, to);
    var f, t := LayerOf(from, layers), LayerOf(to, layers);
    hide LayerOf, ClearLayerOf, ComponentFlags;
    if f.Some? && t.Some? {
      var i, j := f.value, t.value;
      if j >= i {
        assert layers[i..][j - i] == layers[j];
      }
    }
  }

  lemma FirstPosition(layers: seq<string>, name: string) returns (i: nat)
    requires name in layers && '/' !in name
    ensures FirstAt(layers, i) && layers[i] == name && LayerOf(name, layers) == Some(i)
    ensures forall k :: 0 <= k < |layers| && layers[k] == name ==> i <= k
  {
    SplitOne(name);
    i := LayerOf(name, layers).value;
  }

  /** A name that comes back after another one makes the two checkers disagree on an edge between those names. */
  lemma ApartDisagrees(layers: seq<string>, a: nat, b: nat, c: nat) returns (from: string, to: string)
    requires PlainLayers(layers) && a < b < c < |layers| && layers[a] == layers[c] && layers[b] != layers[a]
    ensures Seen(layers, from) && Seen(layers, to) && !Agree(layers, from, to)
  {
    var x, y := layers[a], layers[b];
    assert IsPlain(x) && IsPlain(y);
    LayerNodeIsSeen(layers, x);
    LayerNodeIsSeen(layers, y);
    var i := FirstPosition(layers, x);
    var j := FirstPosition(layers, y);
    hide PlainLayers, Seen, Split, IsPlain;
    if i < j {
      from, to := y, x;
      assert layers[j..][c - j] == x;
    } else {
      from, to := x, y;
      assert layers[i..][b - i] == y;
    }
    SeenIsClear(layers, from);
    SeenIsClear(layers, to);
    VerdictByPositions(layers, from, to);
    hide ComponentFlags;
  }

  /** The two checkers agree on all edges between nodes they see if and only if repeated layer names stand together. */
  lemma AgreeIffTogether(layers: seq<string>)
    requires PlainLayers(layers)
    ensures RepeatsTogether(layers)
            <==> forall from, to :: Seen(layers, from) && Seen(layers, to) ==> Agree(layers, from, to)
  {
    hide PlainLayers, Seen, Agree;
    if RepeatsTogether(layers) {
      forall from, to | Seen(layers, from) && Seen(layers, to) ensures Agree(layers, from, to) {
        TogetherAgrees(layers, from, to);
      }
    } else {
      var a: nat, b: nat, c: nat :| a < b < c < |layers| && layers[a] == layers[c] && layers[b] != layers[a];
      var from, to := ApartDisagrees(layers, a, b, c);
    }
  }

  function Breaks(n: nat): (s: string)
    ensures |s| == n && forall c :: c in s ==> c == '\n'
  {
    seq(n, _ => '\n')
  }

  function Longest(layers: seq<string>): (n: nat)
    ensures forall l :: l in layers ==> |l| <= n
  {
    if layers == [] then 0
    else
      var rest := Longest(layers[1..]);
      assert layers == [layers[0]] + layers[1..];
      if |layers[0]| > rest then |layers[0]| else rest
  }

  /** A node in which a segment search finds `name`, but the patterns find no layer at all. */
  function HiddenNode(layers: seq<string>, name: string): string
  {
    Breaks(Longest(layers) + 1) + "/" + name
  }

  lemma {:induction false} SplitTwo(x: string, y: string)
    requires '/' !in x && '/' !in y
    ensures Split(x + "/" + y) == [x, y]
  {
    if x == "" {
      SplitOne(y);
      assert (x + "/" + y)[1..] == y;
    } else {
      SplitTwo(x[1..], y);
      assert (x + "/" + y)[1..] == x[1..] + "/" + y;
      assert x == [x[0]] + x[1..];
    }
  }

  lemma HiddenIsNotClear(layers: seq<string>, name: string, l: string)
    requires l in layers && '/' !in name && '/' !in l
    ensures !ClearSegment(HiddenNode(layers, name), l)
  {
    var x := Breaks(Longest(layers) + 1);
    var node := HiddenNode(layers, name);
    assert |l| < |x|;
    forall pre, post | node == pre + l + post ensures '\n' in pre || '\n' in post {
      if pre != "" {
        assert pre[0] == node[0] == x[0];
      } else {
        assert post[0] == node[|l|] == x[|l|];
      }
    }
  }

  lemma HiddenNodeIsHidden(layers: seq<string>, i: nat)
    requires PlainLayers(layers) && FirstAt(layers, i)
    ensures LayerOf(HiddenNode(layers, layers[i]), layers) == Some(i)
    ensures ClearLayerOf(HiddenNode(layers, layers[i]), layers) == None
  {
    var x, name := Breaks(Longest(layers) + 1), layers[i];
    assert name in layers && IsPlain(name);
    SplitTwo(x, name);
    forall k | 0 <= k < |layers| ensures !ClearSegment(HiddenNode(layers, name), layers[k]) && layers[k] != x {
      assert layers[k] in layers;
      HiddenIsNotClear(layers, name, layers[k]);
    }
    hide ClearSegment, Split;
    assert name in [x, name];
  }

  /**
   * On all edges between any nodes they agree only if there is just one layer name, so that nothing is ever flagged.
   */
  lemma AgreeEverywhereIff(layers: seq<string>)
    requires PlainLayers(layers)
    ensures (forall from, to :: Agree(layers, from, to))
            <==> forall i, j :: 0 <= i < |layers| && 0 <= j < |layers| ==> layers[i] == layers[j]
  {
    hide PlainLayers, Agree, Split, ClearSegment;
    if forall i, j :: 0 <= i < |layers| && 0 <= j < |layers| ==> layers[i] == layers[j] {
      forall from, to ensures Agree(layers, from, to) {
        OneNameAgrees(layers, from, to);
      }
    } else {
      var i, j := TwoNames(layers);
      TwoNamesDisagree(layers, i, j);
    }
  }

  lemma OneNameAgrees(layers: seq<string>, from: string, to: string)
    requires PlainLayers(layers) && forall i, j :: 0 <= i < |layers| && 0 <= j < |layers| ==> layers[i] == layers[j]
    ensures Agree(layers, from, to)
  {
    hide PlainLayers, Split, ClearSegment;
    VerdictByPositions(layers, from, to);
    LayerIsFirst(layers, from);
    LayerIsFirst(layers, to);
    hide LayerOf, ClearLayerOf, ComponentFlags;
    var f := ClearLayerOf(from, layers);
    if f.Some? {
      assert layers[f.value..][0] == layers[f.value];
    }
  }

  /** Two different names, each at its first position. */
  lemma TwoNames(layers: seq<string>) returns (i: nat, j: nat)
    requires exists i, j :: 0 <= i < |layers| && 0 <= j < |layers| && layers[i] != layers[j]
    ensures FirstAt(layers, i) && FirstAt(layers, j) && i < j
  {
    i := 0;
    var k: nat :| k < |layers| && layers[k] != layers[0];
    j := FirstPlace(layers, k);
  }

  lemma {:induction false} FirstPlace(layers: seq<string>, k: nat) returns (j: nat)
    requires k < |layers|
    ensures FirstAt(layers, j) && layers[j] == layers[k]
    decreases k
  {
    if FirstAt(layers, k) {
      j := k;
    } else {
      var m: nat :| m < k && layers[m] == layers[k];
      j := FirstPlace(layers, m);
    }
  }

  lemma TwoNamesDisagree(layers: seq<string>, i: nat, j: nat)
    requires PlainLayers(layers) && FirstAt(layers, i) && FirstAt(layers, j) && i < j
    ensures !Agree(layers, HiddenNode(layers, layers[j]), layers[i])
  {
    var from, to := HiddenNode(layers, layers[j]), layers[i];
    HiddenNodeIsHidden(layers, j);
    assert to in layers && IsPlain(to);
    var k := FirstPosition(layers, to);
    hide PlainLayers, Split, ClearSegment;
    VerdictByPositions(layers, from, to);
    hide ComponentFlags;
  }

  // ---------------------------------------------------------------------------
  // Whole reports
  // ---------------------------------------------------------------------------

  /** The findings on edges between declared nodes. */
  function BetweenNodes(findings: seq<ArchFinding>, nodes: seq<string>): seq<ArchFinding>
  {
    if findings == [] then []
    else
      (if findings[0].edge.Some? && findings[0].edge.value.from in nodes && findings[0].edge.value.to in nodes
       then [findings[0]] else [])
      + BetweenNodes(findings[1..], nodes)
  }

  /** The edges between declared nodes are judged alike. */
  ghost predicate AgreeOn(edges: seq<ImportEdge>, nodes: seq<string>, layers: seq<string>)
  {
    forall e :: e in edges && e.from in nodes && e.to in nodes ==> Agree(layers, e.from, e.to)
  }

  lemma {:induction false} ViolationsHold(edges: seq<ImportEdge>, nodes: seq<string>, layers: seq<string>,
                                          e: ImportEdge)
    ensures ArchFinding(Some(e), None) in ComponentViolations(edges, nodes, DesugarLayersToComponents(layers),
                                                              DesugarLayersToRules(layers))
            <==> e in edges && e.from in nodes && e.to in nodes
                 && ComponentFlags(DesugarLayersToComponents(layers), DesugarLayersToRules(layers), e.from, e.to)
    ensures ArchFinding(Some(e), None) in BetweenNodes(LayeringFindings(edges, layers), nodes)
            <==> e in edges && e.from in nodes && e.to in nodes && LayeringFlags(layers, e.from, e.to)
  {
    hide ComponentFlags, LayeringFlags;
    if edges != [] {
      ViolationsHold(edges[1..], nodes, layers, e);
      NextFinding(edges, nodes, layers);
      assert edges == [edges[0]] + edges[1..];
    }
  }

  lemma NextFinding(edges: seq<ImportEdge>, nodes: seq<string>, layers: seq<string>)
    requires edges != []
    ensures var e := edges[0];
            BetweenNodes(LayeringFindings(edges, layers), nodes)
            == (if LayeringFlags(layers, e.from, e.to) && e.from in nodes && e.to in nodes
                then [ArchFinding(Some(e), None)] else [])
               + BetweenNodes(LayeringFindings(edges[1..], layers), nodes)
  {
    hide LayeringFlags;
    var findings := LayeringFindings(edges, layers);
    if LayeringFlags(layers, edges[0].from, edges[0].to) {
      assert findings[1..] == LayeringFindings(edges[1..], layers);
    } else {
      assert findings == LayeringFindings(edges[1..], layers);
    }
  }

  lemma {:induction false} ViolationsFollow(edges: seq<ImportEdge>, nodes: seq<string>, layers: seq<string>)
    requires AgreeOn(edges, nodes, layers)
    ensures ComponentViolations(edges, nodes, DesugarLayersToComponents(layers), DesugarLayersToRules(layers))
            == BetweenNodes(LayeringFindings(edges, layers), nodes)
  {
    hide ComponentFlags, LayeringFlags;
    if edges != [] {
      ViolationsFollow(edges[1..], nodes, layers);
      NextFinding(edges, nodes, layers);
    }
  }

  /**
   * The violations are the layering findings between declared nodes, in order, exactly
   * when every such edge is judged alike.
   */
  lemma ViolationsAgree(edges: seq<ImportEdge>, nodes: seq<string>, layers: seq<string>)
    ensures ComponentViolations(edges, nodes, DesugarLayersToComponents(layers), DesugarLayersToRules(layers))
            == BetweenNodes(LayeringFindings(edges, layers), nodes)
            <==> AgreeOn(edges, nodes, layers)
  {
    hide ComponentFlags, LayeringFlags, ComponentViolations, BetweenNodes, LayeringFindings;
    if AgreeOn(edges, nodes, layers) {
      ViolationsFollow(edges, nodes, layers);
    } else {
      var e :| e in edges && e.from in nodes && e.to in nodes && !Agree(layers, e.from, e.to);
      ViolationsHold(edges, nodes, layers, e);
    }
  }

  /**
   * A config of layers alone: `component-deps` reports what `layering` reports on edges between declared nodes, in the
   * same order, and after that only advisories, exactly when every such edge is judged alike.
   */
  lemma ReportsAgree(g: Graph, config: Config)
    requires config.components == [] && config.dependencyRules == []
    ensures ComponentCheck(g, config)
            == BetweenNodes(LayeringCheck(g, config), g.nodes)
               + UnmatchedComponents(EffectiveComponents(config), g.nodes)
            <==> AgreeOn(g.edges, g.nodes, config.layers)
  {
    hide ComponentFlags, LayeringFlags;
    assert EffectiveComponents(config) == DesugarLayersToComponents(config.layers);
    assert EffectiveDependencyRules(config) == DesugarLayersToRules(config.layers);
    ViolationsAgree(g.edges, g.nodes, config.layers);
    if config.layers == [] {
      NoLayersNoFindings(g.edges);
    }
    var violations := ComponentViolations(g.edges, g.nodes, EffectiveComponents(config),
                                          EffectiveDependencyRules(config));
    SameEnd(violations, BetweenNodes(LayeringCheck(g, config), g.nodes),
            UnmatchedComponents(EffectiveComponents(config), g.nodes));
  }

  lemma SameEnd(a: seq<ArchFinding>, b: seq<ArchFinding>, end: seq<ArchFinding>)
    ensures a + end == b + end <==> a == b
  {
    if a + end == b + end {
      assert |a| == |b|;
      assert a == (a + end)[..|a|] && b == (b + end)[..|a|];
    }
  }

  /** In particular for nodes that are seen, when repeated layer names stand together. */
  lemma SeenAgreeOn(edges: seq<ImportEdge>, nodes: seq<string>, layers: seq<string>)
    requires PlainLayers(layers) && RepeatsTogether(layers)
    requires forall n :: n in nodes ==> Seen(layers, n)
    ensures AgreeOn(edges, nodes, layers)
  {
    hide PlainLayers, Seen, RepeatsTogether, Agree;
    forall e | e in edges && e.from in nodes && e.to in nodes ensures Agree(layers, e.from, e.to) {
      TogetherAgrees(layers, e.from, e.to);
    }
  }

  lemma {:induction false} NoLayersNoFindings(edges: seq<ImportEdge>)
    ensures LayeringFindings(edges, []) == []
  {
    if edges != [] {
      NoLayersNoFindings(edges[1..]);
    }
  }

  /** With every edge between declared nodes nothing is left out. */
  lemma {:induction false} NothingLeftOut(edges: seq<ImportEdge>, nodes: seq<string>, layers: seq<string>)
    requires forall e :: e in edges ==> e.from in nodes && e.to in nodes
    ensures BetweenNodes(LayeringFindings(edges, layers), nodes) == LayeringFindings(edges, layers)
  {
    hide LayeringFlags;
    if edges != [] {
      NothingLeftOut(edges[1..], nodes, layers);
      var findings := LayeringFindings(edges, layers);
      if LayeringFlags(layers, edges[0].from, edges[0].to) {
        assert findings[1..] == LayeringFindings(edges[1..], layers);
      } else {
        assert findings == LayeringFindings(edges[1..], layers);
      }
    }
  }
}
