/** What the edges of a topology are: sorted, bounded, justified, and all of them when nothing was cut. */
module TopologyLaws {
  import opened Basics
  import opened Lists
  import opened EdgeIds
  import opened Topology

  // ---------------------------------------------------------------------------------------------
  // Justification
  // ---------------------------------------------------------------------------------------------

  /** A shown parent. */
  ghost predicate ParentOf(nodes: seq<Resource>, source: string, target: string) {
    exists r, p :: r in nodes && p in r.parentRefs && p.Key() == source && r.ref.Key() == target
        && source in Keys(nodes)
  }

  /** The reference names something and exactly one node matches it. */
  ghost predicate ResolvesTo(space: Space, reference: Ref, nodes: seq<Resource>, target: string) {
    && !Blank(space, reference.name)
    && exists i :: 0 <= i < |nodes| && ReferenceMatches(reference, nodes[i].ref) && nodes[i].ref.Key() == target
                   && forall j | 0 <= j < |nodes| && ReferenceMatches(reference, nodes[j].ref) :: j == i
  }

  ghost predicate Selects(source: Resource, nodes: seq<Resource>, target: string) {
    exists c :: c in nodes && c.ref.Key() == target && target != source.ref.Key()
                && LabelsMatch(source.networking.targetLabels, c.networking.labels)
                && SelectorReferenceMatches(source.networking.targetRefs, c.ref)
  }

  ghost predicate Reaches(space: Space, source: Resource, nodes: seq<Resource>, target: string) {
    || (exists reference :: reference in source.networking.targetRefs && ResolvesTo(space, reference, nodes, target))
    || Selects(source, nodes, target)
  }

  ghost predicate Justified(space: Space, view: View, nodes: seq<Resource>, source: string, target: string) {
    if view.ResourceView? then ParentOf(nodes, source, target)
    else exists s :: s in nodes && s.ref.Key() == source && Reaches(space, s, nodes, target)
  }

  function KindOf(view: View): string {
    if view.ResourceView? then "resource" else "network"
  }

  lemma {:induction false} FilterOfNone<T>(p: T -> bool, s: seq<T>)
    requires forall i | 0 <= i < |s| :: !p(s[i])
    ensures Filter(p, s) == []
  {
    if s != [] {
      FilterOfNone(p, s[..|s| - 1]);
    }
  }

  lemma {:induction false} FilterOfUnique<T>(p: T -> bool, s: seq<T>, i: nat)
    requires i < |s| && p(s[i]) && forall j | 0 <= j < |s| && p(s[j]) :: j == i
    ensures Filter(p, s) == [s[i]]
  {
    var init := s[..|s| - 1];
    if i == |s| - 1 {
      forall j | 0 <= j < |init|
        ensures !p(init[j])
      {
        assert init[j] == s[j];
      }
      FilterOfNone(p, init);
    } else {
      FilterOfUnique(p, init, i);
    }
  }

  lemma {:induction false} UniqueOfFilter<T>(p: T -> bool, s: seq<T>) returns (i: nat)
    requires |Filter(p, s)| == 1
    ensures i < |s| && p(s[i]) && s[i] == Filter(p, s)[0] && forall j | 0 <= j < |s| && p(s[j]) :: j == i
  {
    var init := s[..|s| - 1];
    if p(s[|s| - 1]) {
      FilterMembers(p, init);
      i := |s| - 1;
      forall j | 0 <= j < |init|
        ensures !p(s[j])
      {
        assert init[j] in init && init[j] !in Filter(p, init);
      }
    } else {
      i := UniqueOfFilter(p, init);
    }
  }

  /** A reference resolves exactly when filtering by it leaves one node. */
  lemma ResolvesIffOneMatch(space: Space, reference: Ref, nodes: seq<Resource>, target: string)
    ensures ResolvesTo(space, reference, nodes, target)
            <==> var matches := Filter(ReferenceTest(reference), nodes);
                 !Blank(space, reference.name) && |matches| == 1 && matches[0].ref.Key() == target
  {
    var test := ReferenceTest(reference);
    if |Filter(test, nodes)| == 1 {
      var i := UniqueOfFilter(test, nodes);
    }
    if ResolvesTo(space, reference, nodes, target) {
      var i: nat :| i < |nodes| && ReferenceMatches(reference, nodes[i].ref) && nodes[i].ref.Key() == target
                    && forall j | 0 <= j < |nodes| && ReferenceMatches(reference, nodes[j].ref) :: j == i;
      FilterOfUnique(test, nodes, i);
    }
  }

  ghost predicate FromParents(nodes: seq<Resource>, visible: set<string>, i: nat, e: Edge)
    requires i < |nodes|
  {
    e in ParentEdges(nodes[i], visible, |nodes[i].parentRefs|)
  }

  ghost predicate FromParent(r: Resource, visible: set<string>, i: nat, e: Edge)
    requires i < |r.parentRefs|
  {
    r.parentRefs[i].Key() in visible && e == MakeEdge("resource", r.parentRefs[i].Key(), r.ref.Key())
  }

  lemma {:induction false} ParentEdgesAre(r: Resource, visible: set<string>, n: nat, e: Edge)
    requires n <= |r.parentRefs|
    ensures e in ParentEdges(r, visible, n)
            <==> exists i: nat :: i < n && FromParent(r, visible, i, e)
  {
    if n > 0 {
      ParentEdgesAre(r, visible, n - 1, e);
      assert e in ParentEdges(r, visible, n) <==>
             (e in ParentEdges(r, visible, n - 1) || FromParent(r, visible, n - 1, e));
    }
  }

  lemma {:induction false} ResourceEdgesAre(nodes: seq<Resource>, visible: set<string>, n: nat, e: Edge)
    requires n <= |nodes|
    ensures e in ResourceEdges(nodes, visible, n) <==> exists i: nat :: i < n && FromParents(nodes, visible, i, e)
  {
    if n > 0 {
      ResourceEdgesAre(nodes, visible, n - 1, e);
      assert e in ResourceEdges(nodes, visible, n) <==>
             (e in ResourceEdges(nodes, visible, n - 1) || FromParents(nodes, visible, n - 1, e));
    }
  }

  lemma {:induction false} ReferenceEdgesAre(space: Space, source: Resource, nodes: seq<Resource>, n: nat, e: Edge)
    requires n <= |source.networking.targetRefs|
    ensures e in ReferenceEdges(space, source, nodes, n)
            <==> e == MakeEdge("network", source.ref.Key(), e.target)
                 && exists i :: 0 <= i < n && ResolvesTo(space, source.networking.targetRefs[i], nodes, e.target)
  {
    if n > 0 {
      ReferenceEdgesAre(space, source, nodes, n - 1, e);
      ResolvesIffOneMatch(space, source.networking.targetRefs[n - 1], nodes, e.target);
    }
  }

  lemma {:induction false} EdgesToAre(source: Resource, targets: seq<Resource>, e: Edge)
    ensures e in EdgesTo(source, targets) <==>
            (e == MakeEdge("network", source.ref.Key(), e.target) && exists c <- targets :: c.ref.Key() == e.target)
  {
    if targets != [] {
      EdgesToAre(source, targets[..|targets| - 1], e);
      assert targets == targets[..|targets| - 1] + [targets[|targets| - 1]];
    }
  }

  lemma SourceEdgesAre(space: Space, source: Resource, nodes: seq<Resource>, e: Edge)
    ensures e in SourceEdges(space, source, nodes)
            <==> e == MakeEdge("network", source.ref.Key(), e.target) && Reaches(space, source, nodes, e.target)
  {
    var references := source.networking.targetRefs;
    ReferenceEdgesAre(space, source, nodes, |references|, e);
    EdgesToAre(source, SelectorMatches(source, nodes), e);
    FilterMembers(SelectorTest(source), nodes);
    if reference :| reference in references && ResolvesTo(space, reference, nodes, e.target) {
      var i :| 0 <= i < |references| && references[i] == reference;
    }
  }

  lemma {:induction false} FlattenMembers(lists: seq<seq<Edge>>, e: Edge)
    ensures e in Flatten(lists) <==> exists i :: 0 <= i < |lists| && e in lists[i]
  {
    if lists != [] {
      FlattenMembers(lists[..|lists| - 1], e);
      assert e in Flatten(lists) <==> e in Flatten(lists[..|lists| - 1]) || e in lists[|lists| - 1];
    }
  }

  /** The projected edges are exactly the justified ones. */
  lemma CandidatesAreJustified(space: Space, view: View, nodes: seq<Resource>, e: Edge)
    ensures e in Candidates(space, view, nodes)
            <==> e == MakeEdge(KindOf(view), e.source, e.target) && Justified(space, view, nodes, e.source, e.target)
  {
    if view.ResourceView? {
      ResourceCandidatesAreJustified(nodes, e);
    } else {
      NetworkCandidatesAreJustified(space, nodes, e);
    }
  }

  lemma NetworkCandidatesAreJustified(space: Space, nodes: seq<Resource>, e: Edge)
    ensures e in NetworkEdges(space, nodes, |nodes|)
            <==> && e == MakeEdge("network", e.source, e.target)
                 && Justified(space, NetworkView, nodes, e.source, e.target)
  {
    var lists := SourceLists(space, nodes, |nodes|);
    FlattenMembers(lists, e);
    if e in Flatten(lists) {
      var i :| 0 <= i < |lists| && e in lists[i];
      SourceEdgesAre(space, nodes[i], nodes, e);
      assert nodes[i] in nodes;
    }
    if e == MakeEdge("network", e.source, e.target) && Justified(space, NetworkView, nodes, e.source, e.target) {
      var s :| s in nodes && s.ref.Key() == e.source && Reaches(space, s, nodes, e.target);
      var i: nat :| i < |nodes| && nodes[i] == s;
      SourceEdgesAre(space, s, nodes, e);
      assert e in lists[i];
    }
  }

  lemma ResourceCandidatesAreJustified(nodes: seq<Resource>, e: Edge)
    ensures e in ResourceEdges(nodes, Keys(nodes), |nodes|)
            <==> e == MakeEdge("resource", e.source, e.target) && ParentOf(nodes, e.source, e.target)
  {
    ResourceEdgesAre(nodes, Keys(nodes), |nodes|, e);
    if e in ResourceEdges(nodes, Keys(nodes), |nodes|) {
      var i: nat :| i < |nodes| && FromParents(nodes, Keys(nodes), i, e);
      ParentEdgeIsJustified(nodes, i, e);
    }
    if e == MakeEdge("resource", e.source, e.target) && ParentOf(nodes, e.source, e.target) {
      JustifiedIsParentEdge(nodes, e);
    }
  }

  lemma ParentEdgeIsJustified(nodes: seq<Resource>, i: nat, e: Edge)
    requires i < |nodes| && FromParents(nodes, Keys(nodes), i, e)
    ensures e == MakeEdge("resource", e.source, e.target) && ParentOf(nodes, e.source, e.target)
  {
    var r := nodes[i];
    ParentEdgesAre(r, Keys(nodes), |r.parentRefs|, e);
    var j: nat :| j < |r.parentRefs| && FromParent(r, Keys(nodes), j, e);
    assert r in nodes && r.parentRefs[j] in r.parentRefs;
  }

  lemma JustifiedIsParentEdge(nodes: seq<Resource>, e: Edge)
    requires e == MakeEdge("resource", e.source, e.target) && ParentOf(nodes, e.source, e.target)
    ensures exists i: nat :: i < |nodes| && FromParents(nodes, Keys(nodes), i, e)
  {
    var r, p :| r in nodes && p in r.parentRefs && p.Key() == e.source && r.ref.Key() == e.target
        && e.source in Keys(nodes);
    var i: nat :| i < |nodes| && nodes[i] == r;
    var j: nat :| j < |r.parentRefs| && r.parentRefs[j] == p;
    assert FromParent(r, Keys(nodes), j, e);
    ParentEdgesAre(r, Keys(nodes), |r.parentRefs|, e);
    assert FromParents(nodes, Keys(nodes), i, e);
  }

  // ---------------------------------------------------------------------------------------------
  // Dropping duplicates
  // ---------------------------------------------------------------------------------------------

  lemma {:induction false} AddAllDrops(more: seq<Edge>)
    ensures DistinctIds(AddAll([], more))
    ensures forall e <- AddAll([], more) :: e in more
    ensures forall e <- more :: HasId(AddAll([], more), e.id)
  {
    if more != [] {
      var init, last := more[..|more| - 1], more[|more| - 1];
      AddAllDrops(init);
      assert more == init + [last];
      var prior := AddAll([], init);
      forall e | e in more
        ensures HasId(AddEdge(prior, last), e.id)
      {
        if e == last && !HasId(prior, last.id) {
          assert last in AddEdge(prior, last);
        } else {
          assert HasId(prior, e.id);
          var f :| f in prior && f.id == e.id;
          assert f in AddEdge(prior, last);
        }
      }
    }
  }

  // ---------------------------------------------------------------------------------------------
  // The topology
  // ---------------------------------------------------------------------------------------------

  ghost predicate EndsShown(nodes: seq<Resource>, e: Edge) {
    e.source in Keys(nodes) && e.target in Keys(nodes)
  }

  lemma JustifiedEndsAreShown(space: Space, view: View, nodes: seq<Resource>, source: string, target: string)
    requires Justified(space, view, nodes, source, target)
    ensures source in Keys(nodes) && target in Keys(nodes)
  {
    if view.NetworkView? {
      var s :| s in nodes && s.ref.Key() == source && Reaches(space, s, nodes, target);
    }
  }

  lemma SortedEdges(space: Space, view: View, nodes: seq<Resource>) returns (edges: seq<Edge>)
    ensures edges == EdgesOf(space, view, nodes)
    ensures StrictlySorted(edges)
    ensures forall e <- edges :: e in Candidates(space, view, nodes)
    ensures forall e <- Candidates(space, view, nodes) :: HasId(edges, e.id)
  {
    var kept := AddAll([], Candidates(space, view, nodes));
    AddAllDrops(Candidates(space, view, nodes));
    SortedIsSorted(kept);
    edges := Sorted(kept);
    forall e | e in edges
      ensures e in kept
    {
      assert e in multiset(edges);
    }
    forall e | e in Candidates(space, view, nodes)
      ensures HasId(edges, e.id)
    {
      assert HasId(kept, e.id);
      var f :| f in kept && f.id == e.id;
      assert f in multiset(kept);
      assert f in edges;
    }
  }

  ghost predicate Sound(space: Space, view: View, nodes: seq<Resource>, e: Edge) {
    && e == MakeEdge(KindOf(view), e.source, e.target)
    && EndsShown(nodes, e) && Justified(space, view, nodes, e.source, e.target)
  }

  lemma CandidateIsSound(space: Space, view: View, nodes: seq<Resource>, e: Edge)
    requires e in Candidates(space, view, nodes)
    ensures Sound(space, view, nodes, e)
  {
    CandidatesAreJustified(space, view, nodes, e);
    JustifiedEndsAreShown(space, view, nodes, e.source, e.target);
  }

  /** Edges are strictly sorted, bounded, justified by what the nodes report, and end at shown nodes. */
  lemma EdgesAreSound(space: Space, applicationId: Uuid, view: View, tree: RuntimeTree)
    ensures var t := TopologyOf(space, applicationId, view, tree);
            && |t.nodes| <= MAX_NODES && t.nodes <= tree.resources && |t.edges| <= MAX_EDGES && StrictlySorted(t.edges)
            && forall e <- t.edges :: Sound(space, view, t.nodes, e)
  {
    var t := TopologyOf(space, applicationId, view, tree);
    var edges := SortedEdges(space, view, t.nodes);
    FirstEdges(edges, t.edges);
    forall e | e in t.edges
      ensures Sound(space, view, t.nodes, e)
    {
      CandidateIsSound(space, view, t.nodes, e);
    }
  }

  /** The first edges of a sorted list. */
  lemma FirstEdges(edges: seq<Edge>, shown: seq<Edge>)
    requires StrictlySorted(edges) && shown == if |edges| <= MAX_EDGES then edges else edges[..MAX_EDGES]
    ensures |shown| <= MAX_EDGES && StrictlySorted(shown) && forall e <- shown :: e in edges
  {
  }

  /** A view that is not partial shows every resource and every justified edge. */
  lemma UnpartialIsComplete(space: Space, applicationId: Uuid, view: View, tree: RuntimeTree, source: string,
      target: string)
    requires forall r <- tree.resources :: r.ref.Plain()
    requires !TopologyOf(space, applicationId, view, tree).partial
    ensures TopologyOf(space, applicationId, view, tree).nodes == tree.resources
    ensures MakeEdge(KindOf(view), source, target) in TopologyOf(space, applicationId, view, tree).edges
            <==> Justified(space, view, tree.resources, source, target)
  {
    var e := MakeEdge(KindOf(view), source, target);
    var edges := SortedEdges(space, view, tree.resources);
    assert edges == TopologyOf(space, applicationId, view, tree).edges;
    CandidatesAreJustified(space, view, tree.resources, e);
    if Justified(space, view, tree.resources, source, target) {
      assert HasId(edges, e.id);
      var f :| f in edges && f.id == e.id;
      CandidatesAreJustified(space, view, tree.resources, f);
      JustifiedEndsAreShown(space, view, tree.resources, source, target);
      JustifiedEndsAreShown(space, view, tree.resources, f.source, f.target);
      var a :| a in tree.resources && a.ref.Key() == source;
      var b :| b in tree.resources && b.ref.Key() == target;
      var c :| c in tree.resources && c.ref.Key() == f.source;
      var d :| d in tree.resources && d.ref.Key() == f.target;
      EdgeIdInjective(KindOf(view), a.ref, b.ref, c.ref, d.ref);
    }
  }

  /** A view is partial exactly when a warning says what was cut or left unresolved. */
  lemma WarningsExplainPartial(space: Space, applicationId: Uuid, view: View, tree: RuntimeTree)
    ensures var t := TopologyOf(space, applicationId, view, tree);
            && (t.partial <==>
                ("node_limit" in t.warnings || "edge_limit" in t.warnings
                 || "network_evidence_unresolved" in t.warnings))
            && ("node_limit" in t.warnings <==> |tree.resources| > MAX_NODES)
            && ("edge_limit" in t.warnings <==> |EdgesOf(space, view, t.nodes)| > MAX_EDGES)
            && ("network_evidence_unresolved" in t.warnings <==>
                (view.NetworkView? && exists r <- t.nodes :: SourceUnresolved(space, r, t.nodes)))
            && ("network_evidence_unavailable" in t.warnings <==>
                (view.NetworkView? && forall r <- t.nodes :: !HasEvidence(r.networking)))
  {
    var nodes := Shown(tree.resources);
    UnresolvedSources(space, nodes, |nodes|);
    WarningsOf(view, AnyEvidence(nodes), Unresolved(space, nodes, |nodes|), |tree.resources| > MAX_NODES,
        |EdgesOf(space, view, nodes)| > MAX_EDGES);
    assert nodes[..|nodes|] == nodes;
  }

  lemma WarningsOf(view: View, evidence: bool, unresolved: bool, nodesCut: bool, edgesCut: bool)
    ensures var limits := (if nodesCut then ["node_limit"] else []) + (if edgesCut then ["edge_limit"] else []);
            var (partial, warnings) := NetworkWarnings(view, evidence, unresolved, nodesCut || edgesCut, limits);
            && (partial <==> nodesCut || edgesCut || (view.NetworkView? && unresolved))
            && ("node_limit" in warnings <==> nodesCut) && ("edge_limit" in warnings <==> edgesCut)
            && ("network_evidence_unresolved" in warnings <==> view.NetworkView? && unresolved)
            && ("network_evidence_unavailable" in warnings <==> view.NetworkView? && !evidence)
  {
    WarningTexts();
  }

  lemma {:induction false} UnresolvedSources(space: Space, nodes: seq<Resource>, n: nat)
    requires n <= |nodes|
    ensures Unresolved(space, nodes, n) <==> exists r :: r in nodes[..n] && SourceUnresolved(space, r, nodes)
  {
    if n > 0 {
      UnresolvedSources(space, nodes, n - 1);
      assert nodes[..n] == nodes[..n - 1] + [nodes[n - 1]];
      if r :| r in nodes[..n] && SourceUnresolved(space, r, nodes) && r != nodes[n - 1] {
        assert r in nodes[..n - 1];
      }
    }
  }

  lemma WarningTexts()
    ensures |"node_limit"| == 10 && "node_limit" != "edge_limit"
    ensures |"network_evidence_unresolved"| == 27 && |"network_evidence_unavailable"| == 28
  {
    assert "node_limit"[0] != "edge_limit"[0];
  }
}
