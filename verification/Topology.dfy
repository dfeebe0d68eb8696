/** The bounded topology of an application: nodes from the live tree, edges projected from what it reports. */
module Topology {
  import opened Basics
  import opened Lists
  import opened EdgeIds

  const MAX_NODES: nat := 500
  const MAX_EDGES: nat := 1000

  datatype Networking = Networking(
    targetRefs: seq<Ref>, targetLabels: map<string, string>, labels: map<string, string>, ingress: seq<string>,
    externalUrls: seq<string>)

  datatype Info = Info(name: string, value: string)

  datatype Resource = Resource(
    ref: Ref, parentRefs: seq<Ref>, info: seq<Info>, networking: Networking, images: seq<string>,
    healthStatus: string, healthMessage: string, createdAt: Option<int>, orphaned: bool)

  datatype RuntimeTree = RuntimeTree(resources: seq<Resource>, observedAt: int)

  datatype Edge = Edge(id: string, source: string, target: string, kind: string)

  datatype View = ResourceView | NetworkView

  datatype RuntimeTopology = RuntimeTopology(
    applicationId: Uuid, view: View, observedAt: int, nodes: seq<Resource>, edges: seq<Edge>, warnings: seq<string>,
    partial: bool)

  /** The white space of Unicode, taken as a function. */
  type Space = char -> bool

  predicate Blank(space: Space, s: string) {
    forall c <- s :: space(c)
  }

  function MakeEdge(kind: string, source: string, target: string): Edge {
    Edge(EdgeId(kind, source, target), source, target, kind)
  }

  // ---------------------------------------------------------------------------------------------
  // Matching
  // ---------------------------------------------------------------------------------------------

  predicate OptionalMatch(expected: string, actual: string) {
    expected == "" || expected == actual
  }

  predicate ReferenceMatches(reference: Ref, candidate: Ref) {
    && OptionalMatch(reference.group, candidate.group) && OptionalMatch(reference.version, candidate.version)
    && OptionalMatch(reference.kind, candidate.kind) && OptionalMatch(reference.namespace, candidate.namespace)
    && OptionalMatch(reference.name, candidate.name) && OptionalMatch(reference.uid, candidate.uid)
  }

  /** A missing label reads as the empty text. */
  function LabelOf(labels: map<string, string>, key: string): string {
    if key in labels then labels[key] else ""
  }

  predicate LabelsMatch(selector: map<string, string>, labels: map<string, string>) {
    |selector| > 0 && |labels| > 0 && forall key <- selector :: LabelOf(labels, key) == selector[key]
  }

  function Nameless(): Ref -> bool {
    (r: Ref) => r.name == ""
  }

  predicate SelectorReferenceMatches(references: seq<Ref>, candidate: Ref) {
    var restrictions := Filter(Nameless(), references);
    restrictions == [] || exists r <- restrictions :: ReferenceMatches(r, candidate)
  }

  function ReferenceTest(reference: Ref): Resource -> bool {
    (r: Resource) => ReferenceMatches(reference, r.ref)
  }

  function SelectorTest(source: Resource): Resource -> bool {
    (c: Resource) =>
      && c.ref.Key() != source.ref.Key() && LabelsMatch(source.networking.targetLabels, c.networking.labels)
      && SelectorReferenceMatches(source.networking.targetRefs, c.ref)
  }

  predicate HasEvidence(n: Networking) {
    |n.targetRefs| > 0 || |n.targetLabels| > 0 || |n.ingress| > 0 || |n.externalUrls| > 0
  }

  // ---------------------------------------------------------------------------------------------
  // Projection
  // ---------------------------------------------------------------------------------------------

  predicate HasId(edges: seq<Edge>, id: string) {
    exists e <- edges :: e.id == id
  }

  function AddEdge(edges: seq<Edge>, e: Edge): seq<Edge> {
    if HasId(edges, e.id) then edges else edges + [e]
  }

  function AddAll(edges: seq<Edge>, more: seq<Edge>): seq<Edge> {
    if more == [] then edges else AddEdge(AddAll(edges, more[..|more| - 1]), more[|more| - 1])
  }

  lemma AddAllNext(edges: seq<Edge>, more: seq<Edge>, e: Edge)
    ensures AddAll(edges, more + [e]) == AddEdge(AddAll(edges, more), e)
  {
    assert (more + [e])[..|more|] == more;
  }

  lemma {:induction false} AddAllJoins(edges: seq<Edge>, a: seq<Edge>, b: seq<Edge>)
    ensures AddAll(edges, a + b) == AddAll(AddAll(edges, a), b)
  {
    if b == [] {
      assert a + b == a;
    } else {
      AddAllJoins(edges, a, b[..|b| - 1]);
      assert (a + b)[..|a + b| - 1] == a + b[..|b| - 1];
    }
  }

  function Keys(nodes: seq<Resource>): set<string> {
    set r | r in nodes :: r.ref.Key()
  }

  /** The edges of a resource's first n parents that are shown. */
  function ParentEdges(r: Resource, visible: set<string>, n: nat): seq<Edge>
    requires n <= |r.parentRefs|
  {
    if n == 0 then []
    else if r.parentRefs[n - 1].Key() in visible
    then ParentEdges(r, visible, n - 1) + [MakeEdge("resource", r.parentRefs[n - 1].Key(), r.ref.Key())]
    else ParentEdges(r, visible, n - 1)
  }

  function ResourceEdges(nodes: seq<Resource>, visible: set<string>, n: nat): seq<Edge>
    requires n <= |nodes|
  {
    if n == 0 then []
    else ResourceEdges(nodes, visible, n - 1) + ParentEdges(nodes[n - 1], visible, |nodes[n - 1].parentRefs|)
  }

  /** The edge of a reference that resolves to exactly one node. */
  function ReferenceEdge(space: Space, source: Resource, nodes: seq<Resource>, reference: Ref): seq<Edge> {
    var matches := Filter(ReferenceTest(reference), nodes);
    if !Blank(space, reference.name) && |matches| == 1
    then [MakeEdge("network", source.ref.Key(), matches[0].ref.Key())]
    else []
  }

  function ReferenceEdges(space: Space, source: Resource, nodes: seq<Resource>, n: nat): seq<Edge>
    requires n <= |source.networking.targetRefs|
  {
    if n == 0 then []
    else
      var prior := ReferenceEdges(space, source, nodes, n - 1);
      prior + ReferenceEdge(space, source, nodes, source.networking.targetRefs[n - 1])
  }

  lemma AddAllReferences(edges: seq<Edge>, space: Space, source: Resource, nodes: seq<Resource>, i: nat)
    requires i < |source.networking.targetRefs|
    ensures AddAll(edges, ReferenceEdges(space, source, nodes, i + 1))
         == AddAll(AddAll(edges, ReferenceEdges(space, source, nodes, i)),
                   ReferenceEdge(space, source, nodes, source.networking.targetRefs[i]))
  {
    AddAllJoins(edges, ReferenceEdges(space, source, nodes, i),
                ReferenceEdge(space, source, nodes, source.networking.targetRefs[i]));
  }

  predicate ReferenceUnresolved(space: Space, source: Resource, nodes: seq<Resource>, reference: Ref) {
    if Blank(space, reference.name) then |source.networking.targetLabels| == 0
    else |Filter(ReferenceTest(reference), nodes)| != 1
  }

  predicate AnyUnresolved(space: Space, source: Resource, nodes: seq<Resource>, references: seq<Ref>) {
    exists reference <- references :: ReferenceUnresolved(space, source, nodes, reference)
  }

  lemma AnyUnresolvedNext(space: Space, source: Resource, nodes: seq<Resource>, references: seq<Ref>, i: nat)
    requires i < |references|
    ensures AnyUnresolved(space, source, nodes, references[..i + 1])
            <==> || AnyUnresolved(space, source, nodes, references[..i])
                 || ReferenceUnresolved(space, source, nodes, references[i])
  {
    assert references[..i + 1] == references[..i] + [references[i]];
  }

  function SelectorMatches(source: Resource, nodes: seq<Resource>): seq<Resource> {
    if |source.networking.targetLabels| == 0 then [] else Filter(SelectorTest(source), nodes)
  }

  function EdgesTo(source: Resource, targets: seq<Resource>): seq<Edge> {
    if targets == [] then []
    else
      var earlier := EdgesTo(source, targets[..|targets| - 1]);
      earlier + [MakeEdge("network", source.ref.Key(), targets[|targets| - 1].ref.Key())]
  }

  lemma EdgesToNext(source: Resource, targets: seq<Resource>, i: nat)
    requires i < |targets|
    ensures EdgesTo(source, targets[..i + 1]) == EdgesTo(source, targets[..i])
            + [MakeEdge("network", source.ref.Key(), targets[i].ref.Key())]
  {
    assert targets[..i + 1][..i] == targets[..i];
  }

  function SourceEdges(space: Space, source: Resource, nodes: seq<Resource>): seq<Edge> {
    ReferenceEdges(space, source, nodes, |source.networking.targetRefs|)
        + EdgesTo(source, SelectorMatches(source, nodes))
  }

  function Flatten(lists: seq<seq<Edge>>): seq<Edge> {
    if lists == [] then [] else Flatten(lists[..|lists| - 1]) + lists[|lists| - 1]
  }

  /** The edges of each of the first n sources. */
  function SourceLists(space: Space, nodes: seq<Resource>, n: nat): seq<seq<Edge>>
    requires n <= |nodes|
  {
    seq(n, i requires 0 <= i < n => SourceEdges(space, nodes[i], nodes))
  }

  function NetworkEdges(space: Space, nodes: seq<Resource>, n: nat): seq<Edge>
    requires n <= |nodes|
  {
    Flatten(SourceLists(space, nodes, n))
  }

  lemma NetworkEdgesNext(space: Space, nodes: seq<Resource>, n: nat)
    requires n < |nodes|
    ensures NetworkEdges(space, nodes, n + 1) == NetworkEdges(space, nodes, n) + SourceEdges(space, nodes[n], nodes)
  {
    assert SourceLists(space, nodes, n + 1)[..n] == SourceLists(space, nodes, n);
  }

  predicate SourceUnresolved(space: Space, source: Resource, nodes: seq<Resource>) {
    || AnyUnresolved(space, source, nodes, source.networking.targetRefs)
    || (|source.networking.targetLabels| > 0 && SelectorMatches(source, nodes) == [])
  }

  class Projection {
    var edges: seq<Edge>
    var evidence: bool
    var unresolved: bool

    constructor ()
      ensures edges == [] && !evidence && !unresolved
    {
      edges, evidence, unresolved := [], false, false;
    }

    method Add(kind: string, source: string, target: string)
      modifies this`edges
      ensures edges == AddEdge(old(edges), MakeEdge(kind, source, target))
    {
      var id := EdgeId(kind, source, target);
      for i := 0 to |edges|
        invariant edges == old(edges) && !HasId(edges[..i], id)
      {
        assert edges[..i + 1] == edges[..i] + [edges[i]];
        if edges[i].id == id {
          assert edges[i] in edges;
          return;
        }
      }
      assert edges[..|edges|] == edges;
      edges := edges + [Edge(id, source, target, kind)];
    }

    method AddParents(r: Resource, visible: set<string>)
      modifies this`edges
      ensures edges == AddAll(old(edges), ParentEdges(r, visible, |r.parentRefs|))
    {
      for i := 0 to |r.parentRefs|
        invariant edges == AddAll(old(edges), ParentEdges(r, visible, i))
      {
        if r.parentRefs[i].Key() in visible {
          AddAllNext(old(edges), ParentEdges(r, visible, i), MakeEdge("resource", r.parentRefs[i].Key(), r.ref.Key()));
          Add("resource", r.parentRefs[i].Key(), r.ref.Key());
        }
      }
    }

    method AddReferenceEdges(space: Space, source: Resource, nodes: seq<Resource>)
      modifies this`edges, this`unresolved
      ensures edges == AddAll(old(edges), ReferenceEdges(space, source, nodes, |source.networking.targetRefs|))
      ensures unresolved == (old(unresolved) || AnyUnresolved(space, source, nodes, source.networking.targetRefs))
    {
      var references := source.networking.targetRefs;
      for i := 0 to |references|
        invariant edges == AddAll(old(edges), ReferenceEdges(space, source, nodes, i))
        invariant unresolved == (old(unresolved) || AnyUnresolved(space, source, nodes, references[..i]))
      {
        AnyUnresolvedNext(space, source, nodes, references, i);
        AddAllReferences(old(edges), space, source, nodes, i);
        AddReferenceEdge(space, source, nodes, references[i]);
      }
      assert references[..|references|] == references;
    }

    /** One reference: an edge to its only match, or evidence that stays unresolved. */
    method AddReferenceEdge(space: Space, source: Resource, nodes: seq<Resource>, reference: Ref)
      modifies this`edges, this`unresolved
      ensures edges == AddAll(old(edges), ReferenceEdge(space, source, nodes, reference))
      ensures unresolved == (old(unresolved) || ReferenceUnresolved(space, source, nodes, reference))
    {
      if Blank(space, reference.name) {
        unresolved := unresolved || |source.networking.targetLabels| == 0;
        return;
      }
      var matches := Keep(ReferenceTest(reference), nodes);
      if |matches| != 1 {
        unresolved := true;
        return;
      }
      AddAllNext(edges, [], MakeEdge("network", source.ref.Key(), matches[0].ref.Key()));
      assert [] + [MakeEdge("network", source.ref.Key(), matches[0].ref.Key())]
          == [MakeEdge("network", source.ref.Key(), matches[0].ref.Key())];
      Add("network", source.ref.Key(), matches[0].ref.Key());
    }

    method AddSelectorEdges(source: Resource, nodes: seq<Resource>)
      modifies this`edges, this`unresolved
      ensures edges == AddAll(old(edges), EdgesTo(source, SelectorMatches(source, nodes)))
      ensures unresolved ==
              (old(unresolved) || (|source.networking.targetLabels| > 0 && SelectorMatches(source, nodes) == []))
    {
      if |source.networking.targetLabels| == 0 {
        return;
      }
      var matches := Keep(SelectorTest(source), nodes);
      unresolved := unresolved || |matches| == 0;
      AddEdgesTo(source, matches);
    }

    method AddEdgesTo(source: Resource, targets: seq<Resource>)
      modifies this`edges
      ensures edges == AddAll(old(edges), EdgesTo(source, targets))
    {
      for i := 0 to |targets|
        invariant edges == AddAll(old(edges), EdgesTo(source, targets[..i]))
      {
        EdgesToNext(source, targets, i);
        AddAllNext(old(edges), EdgesTo(source, targets[..i]),
                   MakeEdge("network", source.ref.Key(), targets[i].ref.Key()));
        Add("network", source.ref.Key(), targets[i].ref.Key());
      }
      assert targets[..|targets|] == targets;
    }

    method AddSource(space: Space, source: Resource, nodes: seq<Resource>)
      modifies this
      ensures edges == AddAll(old(edges), SourceEdges(space, source, nodes))
      ensures evidence == (old(evidence) || HasEvidence(source.networking))
      ensures unresolved == (old(unresolved) || SourceUnresolved(space, source, nodes))
    {
      AddAllJoins(edges, ReferenceEdges(space, source, nodes, |source.networking.targetRefs|),
          EdgesTo(source, SelectorMatches(source, nodes)));
      evidence := evidence || HasEvidence(source.networking);
      AddReferenceEdges(space, source, nodes);
      AddSelectorEdges(source, nodes);
    }

    /** Sorts by identifier: the library's comparison sort. */
    method Sort()
      modifies this`edges
      ensures edges == Sorted(old(edges))
    {
      var done: seq<Edge> := [];
      for i := 0 to |edges|
        invariant edges == old(edges) && done == Sorted(edges[..i])
      {
        assert edges[..i + 1][..i] == edges[..i];
        done := InsertById(done, edges[i]);
      }
      assert edges[..|edges|] == edges;
      edges := done;
    }
  }

  // ---------------------------------------------------------------------------------------------
  // Sorting
  // ---------------------------------------------------------------------------------------------

  function InsertById(edges: seq<Edge>, e: Edge): seq<Edge> {
    if edges == [] || Less(e.id, edges[0].id) then [e] + edges else [edges[0]] + InsertById(edges[1..], e)
  }

  function Sorted(edges: seq<Edge>): seq<Edge> {
    if edges == [] then [] else InsertById(Sorted(edges[..|edges| - 1]), edges[|edges| - 1])
  }

  ghost predicate StrictlySorted(edges: seq<Edge>) {
    forall i, j | 0 <= i < j < |edges| :: Less(edges[i].id, edges[j].id)
  }

  ghost predicate DistinctIds(edges: seq<Edge>) {
    forall i, j | 0 <= i < j < |edges| :: edges[i].id != edges[j].id
  }

  lemma {:induction false} InsertKeepsOrder(edges: seq<Edge>, e: Edge)
    requires StrictlySorted(edges) && !HasId(edges, e.id)
    ensures StrictlySorted(InsertById(edges, e)) && multiset(InsertById(edges, e)) == multiset(edges) + multiset{e}
    ensures |InsertById(edges, e)| == |edges| + 1
  {
    if edges == [] {
    } else if Less(e.id, edges[0].id) {
      forall j | 0 <= j < |edges|
        ensures Less(e.id, edges[j].id)
      {
        if j > 0 {
          LessIsTransitive(e.id, edges[0].id, edges[j].id);
        }
      }
    } else {
      assert edges == [edges[0]] + edges[1..];
      assert edges[0] in edges;
      LessIsTotal(e.id, edges[0].id);
      InsertKeepsOrder(edges[1..], e);
      var rest := InsertById(edges[1..], e);
      forall j | 0 <= j < |rest|
        ensures Less(edges[0].id, rest[j].id)
      {
        assert rest[j] in multiset(rest);
        assert rest[j] in edges[1..] || rest[j] == e;
      }
    }
  }

  lemma {:induction false} SortedIsSorted(edges: seq<Edge>)
    requires DistinctIds(edges)
    ensures StrictlySorted(Sorted(edges)) && multiset(Sorted(edges)) == multiset(edges)
    ensures |Sorted(edges)| == |edges|
  {
    if edges != [] {
      var init, last := edges[..|edges| - 1], edges[|edges| - 1];
      SortedIsSorted(init);
      assert edges == init + [last];
      forall e | e in Sorted(init)
        ensures e.id != last.id
      {
        assert e in multiset(init);
      }
      InsertKeepsOrder(Sorted(init), last);
    }
  }

  // ---------------------------------------------------------------------------------------------
  // Building the topology
  // ---------------------------------------------------------------------------------------------

  function Shown(resources: seq<Resource>): seq<Resource> {
    if |resources| <= MAX_NODES then resources else resources[..MAX_NODES]
  }

  /** Every edge the view projects, before duplicates are dropped. */
  function Candidates(space: Space, view: View, nodes: seq<Resource>): seq<Edge> {
    if view.NetworkView? then NetworkEdges(space, nodes, |nodes|) else ResourceEdges(nodes, Keys(nodes), |nodes|)
  }

  predicate AnyEvidence(nodes: seq<Resource>) {
    exists r <- nodes :: HasEvidence(r.networking)
  }

  predicate Unresolved(space: Space, nodes: seq<Resource>, n: nat)
    requires n <= |nodes|
  {
    n > 0 && (Unresolved(space, nodes, n - 1) || SourceUnresolved(space, nodes[n - 1], nodes))
  }

  /** The network view's warnings; unresolved evidence makes the view partial. */
  function NetworkWarnings(view: View, evidence: bool, unresolved: bool, partial: bool, warnings: seq<string>): (bool,
      seq<string>) {
    if view.ResourceView? then (partial, warnings)
    else
      var noted := if evidence then warnings else warnings + ["network_evidence_unavailable"];
      if unresolved then (true, noted + ["network_evidence_unresolved"]) else (partial, noted)
  }

  function EdgesOf(space: Space, view: View, nodes: seq<Resource>): seq<Edge> {
    Sorted(AddAll([], Candidates(space, view, nodes)))
  }

  function TopologyOf(space: Space, applicationId: Uuid, view: View, tree: RuntimeTree): RuntimeTopology {
    var resources := tree.resources;
    var nodes := Shown(resources);
    var edges := EdgesOf(space, view, nodes);
    var limits := (if |resources| > MAX_NODES then ["node_limit"] else []) + (if |edges| > MAX_EDGES then ["edge_limit"]
        else []);
    var (partial, warnings) := NetworkWarnings(
      view, AnyEvidence(nodes), Unresolved(space, nodes, |nodes|), |resources| > MAX_NODES || |edges| > MAX_EDGES,
          limits);
    RuntimeTopology(applicationId, view, tree.observedAt, nodes, if |edges| <= MAX_EDGES then edges
        else edges[..MAX_EDGES], warnings, partial)
  }

  method ResourceTopologyEdges(nodes: seq<Resource>, visible: set<string>) returns (p: Projection)
    ensures fresh(p) && p.edges == Sorted(AddAll([], ResourceEdges(nodes, visible, |nodes|))) && !p.evidence
            && !p.unresolved
  {
    p := new Projection();
    for i := 0 to |nodes|
      invariant fresh(p) && p.edges == AddAll([], ResourceEdges(nodes, visible, i)) && !p.evidence && !p.unresolved
    {
      AddAllJoins([], ResourceEdges(nodes, visible, i), ParentEdges(nodes[i], visible, |nodes[i].parentRefs|));
      p.AddParents(nodes[i], visible);
    }
    p.Sort();
  }

  method NetworkTopologyEdges(space: Space, nodes: seq<Resource>) returns (p: Projection)
    ensures fresh(p) && p.edges == Sorted(AddAll([], NetworkEdges(space, nodes, |nodes|)))
    ensures p.evidence == AnyEvidence(nodes) && p.unresolved == Unresolved(space, nodes, |nodes|)
  {
    p := new Projection();
    for i := 0 to |nodes|
      invariant fresh(p) && p.edges == AddAll([], NetworkEdges(space, nodes, i))
      invariant p.evidence == AnyEvidence(nodes[..i]) && p.unresolved == Unresolved(space, nodes, i)
    {
      assert nodes[..i + 1] == nodes[..i] + [nodes[i]];
      NetworkEdgesNext(space, nodes, i);
      AddAllJoins([], NetworkEdges(space, nodes, i), SourceEdges(space, nodes[i], nodes));
      p.AddSource(space, nodes[i], nodes);
    }
    assert nodes[..|nodes|] == nodes;
    p.Sort();
  }

  method ApplyNetworkWarnings(view: View, p: Projection, partial: bool, warnings: seq<string>)
    returns (r: (bool, seq<string>))
    ensures r == NetworkWarnings(view, p.evidence, p.unresolved, partial, warnings)
  {
    if !view.NetworkView? {
      return (partial, warnings);
    }
    var noted := warnings;
    if !p.evidence {
      noted := noted + ["network_evidence_unavailable"];
    }
    if p.unresolved {
      return (true, noted + ["network_evidence_unresolved"]);
    }
    return (partial, noted);
  }

  method TopologyEdges(space: Space, view: View, nodes: seq<Resource>) returns (p: Projection)
    ensures fresh(p) && p.edges == EdgesOf(space, view, nodes)
    ensures view.NetworkView? ==> p.evidence == AnyEvidence(nodes) && p.unresolved == Unresolved(space, nodes, |nodes|)
  {
    if view.NetworkView? {
      p := NetworkTopologyEdges(space, nodes);
    } else {
      p := ResourceTopologyEdges(nodes, Keys(nodes));
    }
  }

  method BuildRuntimeTopology(space: Space, applicationId: Uuid, view: View, tree: RuntimeTree)
    returns (t: RuntimeTopology)
    ensures t == TopologyOf(space, applicationId, view, tree)
  {
    var resources := tree.resources;
    var nodes, partial, warnings := resources, false, [];
    if |resources| > MAX_NODES {
      nodes, partial, warnings := resources[..MAX_NODES], true, ["node_limit"];
    }
    var p := TopologyEdges(space, view, nodes);
    var edges, cut := p.edges, [];
    if |p.edges| > MAX_EDGES {
      edges, partial, cut := p.edges[..MAX_EDGES], true, ["edge_limit"];
    }
    var noted := ApplyNetworkWarnings(view, p, partial, warnings + cut);
    t := RuntimeTopology(applicationId, view, tree.observedAt, nodes, edges, noted.1, noted.0);
  }
}
