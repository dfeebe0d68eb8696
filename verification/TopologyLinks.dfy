/** What a topology shows, in terms of what the resources report, column by column. */
module TopologyLinks {
  import opened Basics
  import opened Lists
  import opened EdgeIds
  import opened Topology
  import opened TopologyLaws

  /** A reference fits a resource: every column it gives is the resource's; an empty one fits any. */
  ghost predicate Fits(reference: Ref, r: Ref) {
    && reference.group in ["", r.group] && reference.version in ["", r.version] && reference.kind in ["", r.kind]
    && reference.namespace in ["", r.namespace] && reference.name in ["", r.name] && reference.uid in ["", r.uid]
  }

  /** A named reference that fits this node and no other. */
  ghost predicate Points(space: Space, reference: Ref, nodes: seq<Resource>, target: string) {
    && (exists c <- reference.name :: !space(c))
    && exists i :: 0 <= i < |nodes| && Fits(reference, nodes[i].ref) && nodes[i].ref.Key() == target
                   && forall j | 0 <= j < |nodes| && j != i :: !Fits(reference, nodes[j].ref)
  }

  /** Every label asked for is there with its value; one asked for with the empty text may be missing. */
  ghost predicate HasLabels(asked: map<string, string>, labels: map<string, string>) {
    && asked != map[] && labels != map[]
    && forall key <- asked :: if key in labels then labels[key] == asked[key] else asked[key] == ""
  }

  /** Another resource with the labels asked for, which the nameless references, if any, allow. */
  ghost predicate Picks(source: Resource, c: Resource) {
    && c.ref.Key() != source.ref.Key() && HasLabels(source.networking.targetLabels, c.networking.labels)
    && ((forall r <- source.networking.targetRefs :: r.name != "")
        || exists r <- source.networking.targetRefs :: r.name == "" && Fits(r, c.ref))
  }

  ghost predicate LinksFrom(space: Space, source: Resource, nodes: seq<Resource>, target: string) {
    || (exists reference <- source.networking.targetRefs :: Points(space, reference, nodes, target))
    || (exists c <- nodes :: c.ref.Key() == target && Picks(source, c))
  }

  /** Two resources are linked: a shown parent of a child, or traffic that one directs to the other. */
  ghost predicate Linked(space: Space, view: View, nodes: seq<Resource>, source: string, target: string) {
    match view
    case ResourceView =>
      && (exists a <- nodes :: a.ref.Key() == source)
      && exists r <- nodes :: r.ref.Key() == target && exists p <- r.parentRefs :: p.Key() == source
    case NetworkView =>
      exists s <- nodes :: s.ref.Key() == source && LinksFrom(space, s, nodes, target)
  }

  lemma MatchingIsFitting(reference: Ref, r: Ref)
    ensures ReferenceMatches(reference, r) <==> Fits(reference, r)
  {
  }

  lemma ResolvingIsPointing(space: Space, reference: Ref, nodes: seq<Resource>, target: string)
    ensures ResolvesTo(space, reference, nodes, target) <==> Points(space, reference, nodes, target)
  {
    forall r: Ref
      ensures ReferenceMatches(reference, r) <==> Fits(reference, r)
    {
      MatchingIsFitting(reference, r);
    }
  }

  lemma LabelsMatchMeans(asked: map<string, string>, labels: map<string, string>)
    ensures LabelsMatch(asked, labels) <==> HasLabels(asked, labels)
  {
    assert |asked| == 0 <==> asked == map[];
    assert |labels| == 0 <==> labels == map[];
  }

  lemma RestrictionsMean(references: seq<Ref>, r: Ref)
    ensures SelectorReferenceMatches(references, r)
            <==> ((forall x <- references :: x.name != "") || exists x <- references :: x.name == "" && Fits(x, r))
  {
    FilterMembers(Nameless(), references);
    forall x: Ref
      ensures ReferenceMatches(x, r) <==> Fits(x, r)
    {
      MatchingIsFitting(x, r);
    }
    var restrictions := Filter(Nameless(), references);
    if restrictions != [] {
      assert restrictions[0] in restrictions;
    }
  }

  lemma SelectingIsPicking(source: Resource, c: Resource)
    ensures SelectorTest(source)(c) <==> Picks(source, c)
  {
    LabelsMatchMeans(source.networking.targetLabels, c.networking.labels);
    RestrictionsMean(source.networking.targetRefs, c.ref);
  }

  lemma ReachingIsLinking(space: Space, source: Resource, nodes: seq<Resource>, target: string)
    ensures Reaches(space, source, nodes, target) <==> LinksFrom(space, source, nodes, target)
  {
    forall reference: Ref
      ensures ResolvesTo(space, reference, nodes, target) <==> Points(space, reference, nodes, target)
    {
      ResolvingIsPointing(space, reference, nodes, target);
    }
    forall c: Resource
      ensures SelectorTest(source)(c) <==> Picks(source, c)
    {
      SelectingIsPicking(source, c);
    }
    if Selects(source, nodes, target) {
      var c :| c in nodes && c.ref.Key() == target && SelectorTest(source)(c);
    }
    if c :| c in nodes && c.ref.Key() == target && Picks(source, c) {
      assert SelectorTest(source)(c);
    }
  }

  lemma JustifiedIsLinked(space: Space, view: View, nodes: seq<Resource>, source: string, target: string)
    ensures Justified(space, view, nodes, source, target) <==> Linked(space, view, nodes, source, target)
  {
    forall s: Resource
      ensures Reaches(space, s, nodes, target) <==> LinksFrom(space, s, nodes, target)
    {
      ReachingIsLinking(space, s, nodes, target);
    }
  }

  // ---------------------------------------------------------------------------------------------
  // Evidence
  // ---------------------------------------------------------------------------------------------

  /** Nothing a reference or a selector says about traffic is left open. */
  ghost predicate IsClear(space: Space, source: Resource, nodes: seq<Resource>) {
    && (forall reference <- source.networking.targetRefs ::
          if forall c <- reference.name :: space(c) then source.networking.targetLabels != map[]
          else exists target :: Points(space, reference, nodes, target))
    && (source.networking.targetLabels != map[] ==> exists c <- nodes :: Picks(source, c))
  }

  lemma UnresolvedReferenceMeans(space: Space, source: Resource, nodes: seq<Resource>, reference: Ref)
    ensures ReferenceUnresolved(space, source, nodes, reference)
            <==> if forall c <- reference.name :: space(c) then source.networking.targetLabels == map[]
                 else forall target :: !Points(space, reference, nodes, target)
  {
    var matches := Filter(ReferenceTest(reference), nodes);
    assert |source.networking.targetLabels| == 0 <==> source.networking.targetLabels == map[];
    forall target
      ensures Points(space, reference, nodes, target)
              <==> !Blank(space, reference.name) && |matches| == 1 && matches[0].ref.Key() == target
    {
      ResolvesIffOneMatch(space, reference, nodes, target);
      ResolvingIsPointing(space, reference, nodes, target);
    }
    if !Blank(space, reference.name) && |matches| == 1 {
      assert Points(space, reference, nodes, matches[0].ref.Key());
    }
  }

  lemma UnresolvedSourceMeans(space: Space, source: Resource, nodes: seq<Resource>)
    ensures SourceUnresolved(space, source, nodes) <==> !IsClear(space, source, nodes)
  {
    forall reference: Ref
      ensures ReferenceUnresolved(space, source, nodes, reference)
              <==> if forall c <- reference.name :: space(c) then source.networking.targetLabels == map[]
                   else forall target :: !Points(space, reference, nodes, target)
    {
      UnresolvedReferenceMeans(space, source, nodes, reference);
    }
    assert |source.networking.targetLabels| == 0 <==> source.networking.targetLabels == map[];
    if source.networking.targetLabels != map[] {
      NothingPickedMeans(source, nodes);
    }
  }

  lemma NothingPickedMeans(source: Resource, nodes: seq<Resource>)
    requires source.networking.targetLabels != map[]
    ensures SelectorMatches(source, nodes) == [] <==> forall c <- nodes :: !Picks(source, c)
  {
    FilterMembers(SelectorTest(source), nodes);
    forall c: Resource
      ensures SelectorTest(source)(c) <==> Picks(source, c)
    {
      SelectingIsPicking(source, c);
    }
    var matches := Filter(SelectorTest(source), nodes);
    if matches != [] {
      assert matches[0] in matches;
    }
  }

  // ---------------------------------------------------------------------------------------------
  // The view
  // ---------------------------------------------------------------------------------------------

  ghost predicate IsEdge(view: View, e: Edge) {
    var kind := if view == ResourceView then "resource" else "network";
    e.kind == kind && e.id == kind + ":" + e.source + ":" + e.target
  }

  /** The edges say only what the resources report, at most 1000 of them in the order of their identifiers. */
  lemma EdgesAreLinks(space: Space, applicationId: Uuid, view: View, tree: RuntimeTree)
    ensures var t := TopologyOf(space, applicationId, view, tree);
            && t.applicationId == applicationId && t.view == view && t.observedAt == tree.observedAt
            && t.nodes == (if |tree.resources| <= 500 then tree.resources else tree.resources[..500])
            && |t.edges| <= 1000 && StrictlySorted(t.edges)
            && forall e <- t.edges :: IsEdge(view, e) && Linked(space, view, t.nodes, e.source, e.target)
  {
    EdgesAreSound(space, applicationId, view, tree);
    var t := TopologyOf(space, applicationId, view, tree);
    forall e | e in t.edges
      ensures IsEdge(view, e) && Linked(space, view, t.nodes, e.source, e.target)
    {
      assert Sound(space, view, t.nodes, e);
      JustifiedIsLinked(space, view, t.nodes, e.source, e.target);
    }
  }

  /** A link whose edge identifier no edge of a list has. */
  ghost predicate Omits(space: Space, view: View, nodes: seq<Resource>, edges: seq<Edge>, source: string,
                        target: string) {
    Linked(space, view, nodes, source, target) && !HasId(edges, EdgeId(KindOf(view), source, target))
  }

  lemma LinkHasEdge(space: Space, view: View, nodes: seq<Resource>, source: string, target: string)
    requires Linked(space, view, nodes, source, target)
    ensures HasId(EdgesOf(space, view, nodes), EdgeId(KindOf(view), source, target))
  {
    JustifiedIsLinked(space, view, nodes, source, target);
    CandidatesAreJustified(space, view, nodes, MakeEdge(KindOf(view), source, target));
    var edges := SortedEdges(space, view, nodes);
  }

  /** An edge beyond the limit stands for a link that is not shown. */
  lemma EdgeBeyondLimit(space: Space, view: View, nodes: seq<Resource>)
    requires |EdgesOf(space, view, nodes)| > MAX_EDGES
    ensures exists source, target :: Omits(space, view, nodes, EdgesOf(space, view, nodes)[..MAX_EDGES], source, target)
  {
    var edges := SortedEdges(space, view, nodes);
    var e := edges[MAX_EDGES];
    CandidateIsSound(space, view, nodes, e);
    JustifiedIsLinked(space, view, nodes, e.source, e.target);
    forall f | f in edges[..MAX_EDGES]
      ensures f.id != e.id
    {
      var k :| 0 <= k < MAX_EDGES && edges[k] == f;
      assert Less(edges[k].id, e.id);
      LessIsTotal(f.id, e.id);
    }
    assert Omits(space, view, nodes, edges[..MAX_EDGES], e.source, e.target);
  }

  /** Edges are cut exactly when there is a link that is not shown. */
  lemma EdgeLimitMeans(space: Space, applicationId: Uuid, view: View, tree: RuntimeTree)
    ensures var t := TopologyOf(space, applicationId, view, tree);
            "edge_limit" in t.warnings <==>
            exists source, target :: Omits(space, view, t.nodes, t.edges, source, target)
  {
    var t := TopologyOf(space, applicationId, view, tree);
    WarningsExplainPartial(space, applicationId, view, tree);
    if |EdgesOf(space, view, t.nodes)| > MAX_EDGES {
      EdgeBeyondLimit(space, view, t.nodes);
    } else {
      forall source, target | Linked(space, view, t.nodes, source, target)
        ensures HasId(t.edges, EdgeId(KindOf(view), source, target))
      {
        LinkHasEdge(space, view, t.nodes, source, target);
      }
    }
  }

  /** The other warnings, and what makes a view partial. */
  lemma WarningsAreInTheResources(space: Space, applicationId: Uuid, view: View, tree: RuntimeTree)
    ensures var t := TopologyOf(space, applicationId, view, tree);
            && ("node_limit" in t.warnings <==> |tree.resources| > 500)
            && ("network_evidence_unresolved" in t.warnings <==>
                (view == NetworkView && exists r <- t.nodes :: !IsClear(space, r, t.nodes)))
            && ("network_evidence_unavailable" in t.warnings <==>
                (view == NetworkView && forall r <- t.nodes ::
                   r.networking.targetRefs == [] && r.networking.targetLabels == map[] && r.networking.ingress == []
                   && r.networking.externalUrls == []))
            && (t.partial <==>
                ("node_limit" in t.warnings || "edge_limit" in t.warnings
                 || "network_evidence_unresolved" in t.warnings))
  {
    var t := TopologyOf(space, applicationId, view, tree);
    WarningsExplainPartial(space, applicationId, view, tree);
    forall r: Resource
      ensures SourceUnresolved(space, r, t.nodes) <==> !IsClear(space, r, t.nodes)
    {
      UnresolvedSourceMeans(space, r, t.nodes);
    }
    forall r: Resource
      ensures |r.networking.targetLabels| == 0 <==> r.networking.targetLabels == map[]
    {
    }
  }
}
