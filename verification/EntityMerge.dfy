// Entities and relations of a knowledge graph under corrections. Merging entities rewrites the
// relations in place; the rows afterwards are the quotient graph.

module EntityMerge {
  import opened Options

  type EntityId = nat
  type EdgeId = nat
  type Label = string

  datatype Entity = Entity(name: Label, aliases: set<Label>, tombstoned: bool)

  datatype Edge = Edge(source: EntityId, target: EntityId, sourceLabel: Label, targetLabel: Label, tombstoned: bool)

  // `labels` is the table of entity aliases, `links` the table of edge aliases.
  datatype Graph = Graph(
    entities: map<EntityId, Entity>, edges: map<EdgeId, Edge>,
    labels: map<Label, EntityId>, links: map<EdgeId, EdgeId>)

  // ---- what the rows promise ----

  predicate EdgeOk(g: Graph, e: Edge) {
    && e.source in g.entities && e.target in g.entities
    && e.sourceLabel == g.entities[e.source].name && e.targetLabel == g.entities[e.target].name
  }

  predicate Parallel(x: Edge, y: Edge) {
    x.source == y.source && x.target == y.target
  }

  predicate UniqueEndpoints(edges: map<EdgeId, Edge>) {
    forall x, y :: x in edges && y in edges && Parallel(edges[x], edges[y]) ==> x == y
  }

  predicate OwnLinks(edges: map<EdgeId, Edge>, links: map<EdgeId, EdgeId>) {
    && (forall e :: e in edges ==> e in links && links[e] == e)
    && (forall a :: a in links ==> links[a] in edges)
  }

  function Owned(g: Graph, x: EntityId): set<Label> {
    set l | l in g.labels && g.labels[l] == x
  }

  // A live entity's label and aliases are the labels that resolve to it.
  predicate EntityOk(g: Graph, x: EntityId)
    requires x in g.entities
  {
    && g.entities[x].name in g.labels
    && (!g.entities[x].tombstoned ==> g.entities[x].aliases + {g.entities[x].name} == Owned(g, x))
  }

  predicate EdgesOk(g: Graph) {
    forall e :: e in g.edges ==> EdgeOk(g, g.edges[e])
  }

  predicate EntitiesOk(g: Graph) {
    forall x :: x in g.entities ==> EntityOk(g, x)
  }

  predicate LabelsKnown(g: Graph) {
    forall l :: l in g.labels ==> g.labels[l] in g.entities
  }

  predicate NamesUnique(entities: map<EntityId, Entity>) {
    forall x, y :: x in entities && y in entities && entities[x].name == entities[y].name ==> x == y
  }

  predicate Valid(g: Graph) {
    && EdgesOk(g) && UniqueEndpoints(g.edges) && OwnLinks(g.edges, g.links)
    && EntitiesOk(g) && LabelsKnown(g) && NamesUnique(g.entities)
  }

  // ---- the quotient ----

  datatype Merge = Merge(sources: set<EntityId>, target: EntityId) {
    function Image(x: EntityId): EntityId {
      if x in sources then target else x
    }

    predicate Touches(e: Edge) {
      e.source in sources || e.target in sources
    }

    predicate Onto(e: Edge, image: Edge) {
      image.source == Image(e.source) && image.target == Image(e.target)
    }
  }

  predicate CanMerge(g: Graph, m: Merge) {
    && m.target !in m.sources && m.sources != {}
    && (forall x :: x in m.sources + {m.target} ==> x in g.entities && !g.entities[x].tombstoned)
  }

  // Some edge mapped onto this one was tombstoned.
  predicate Tombstoned(g: Graph, m: Merge, image: Edge) {
    exists e :: e in g.edges && m.Onto(g.edges[e], image) && g.edges[e].tombstoned
  }

  // An edge the merge does not touch keeps its id; among touched edges the smallest id survives.
  predicate Survives(before: map<EdgeId, Edge>, m: Merge, e: EdgeId, other: EdgeId)
    requires e in before && other in before
  {
    !m.Touches(before[e]) || (m.Touches(before[other]) && e <= other)
  }

  // The edges of the quotient graph.
  predicate QuotientEdges(g: Graph, m: Merge, edges: map<EdgeId, Edge>) {
    && (forall e :: e in edges ==> e in g.edges && m.Onto(g.edges[e], edges[e]) && !m.Touches(edges[e]))
    && (forall e :: e in edges ==> (edges[e].tombstoned <==> Tombstoned(g, m, edges[e])))
    && (forall e :: e in edges ==> EdgeOk(g, edges[e]))
    && UniqueEndpoints(edges)
    && (forall e, o :: e in edges && o in g.edges && m.Onto(g.edges[o], edges[e]) ==> Survives(g.edges, m, e, o))
  }

  // Every edge id that resolved to an edge resolves to the image of that edge.
  predicate QuotientLinks(g: Graph, m: Merge, edges: map<EdgeId, Edge>, links: map<EdgeId, EdgeId>)
    requires forall a :: a in g.links ==> g.links[a] in g.edges
  {
    && links.Keys == g.links.Keys
    && (forall a :: a in links ==> links[a] in edges && m.Onto(g.edges[g.links[a]], edges[links[a]]))
  }

  function MergedEntities(g: Graph, m: Merge): map<EntityId, Entity>
    requires CanMerge(g, m)
  {
    map x | x in g.entities ::
      if x == m.target then
        g.entities[x].(aliases := (set l | l in g.labels && g.labels[l] in m.sources + {m.target}) - {g.entities[x].name})
      else if x in m.sources then g.entities[x].(tombstoned := true)
      else g.entities[x]
  }

  function MergedLabels(g: Graph, m: Merge): map<Label, EntityId> {
    map l | l in g.labels :: m.Image(g.labels[l])
  }

  predicate IsQuotient(g: Graph, m: Merge, after: Graph)
    requires Valid(g) && CanMerge(g, m)
  {
    && after.entities == MergedEntities(g, m)
    && after.labels == MergedLabels(g, m)
    && QuotientEdges(g, m, after.edges)
    && QuotientLinks(g, m, after.edges, after.links)
  }

  // ---- the edge rewrite, part way ----

  function Affected(before: map<EdgeId, Edge>, m: Merge): set<EdgeId> {
    set e | e in before && m.Touches(before[e])
  }

  // The affected edges still to rewrite are untouched, and later than those rewritten.
  predicate Waiting(before: map<EdgeId, Edge>, m: Merge, todo: set<EdgeId>, edges: map<EdgeId, Edge>) {
    && (forall e :: e in todo ==> e in Affected(before, m) && e in edges && edges[e] == before[e])
    && (forall e, t :: e in Affected(before, m) && e !in todo && t in todo ==> e < t)
  }

  predicate Rewritten(before: map<EdgeId, Edge>, m: Merge, todo: set<EdgeId>, edges: map<EdgeId, Edge>) {
    forall e :: e in edges && e !in todo ==> e in before && m.Onto(before[e], edges[e]) && !m.Touches(edges[e])
  }

  // `rep` says where each edge went.
  predicate Represented(before: map<EdgeId, Edge>, m: Merge, todo: set<EdgeId>, edges: map<EdgeId, Edge>, rep: map<EdgeId, EdgeId>) {
    && rep.Keys == before.Keys
    && (forall e :: e in rep ==> rep[e] in edges)
    && (forall e :: e in rep && e in todo ==> rep[e] == e)
    && (forall e :: e in rep && e !in todo ==> rep[e] !in todo && m.Onto(before[e], edges[rep[e]]))
    && (forall e :: e in edges ==> e in rep && rep[e] == e)
  }

  predicate Preferred(before: map<EdgeId, Edge>, m: Merge, todo: set<EdgeId>, rep: map<EdgeId, EdgeId>) {
    forall e :: e in rep && e !in todo ==> rep[e] in before && e in before && Survives(before, m, rep[e], e)
  }

  predicate TombstonesKept(before: map<EdgeId, Edge>, edges: map<EdgeId, Edge>, rep: map<EdgeId, EdgeId>) {
    forall e :: e in edges ==> (edges[e].tombstoned <==> Collected(before, rep, e))
  }

  // Some edge that went to e was tombstoned.
  predicate Collected(before: map<EdgeId, Edge>, rep: map<EdgeId, EdgeId>, e: EdgeId) {
    exists o :: o in rep && o in before && rep[o] == e && before[o].tombstoned
  }

  predicate LinksFollow(earlier: map<EdgeId, EdgeId>, links: map<EdgeId, EdgeId>, rep: map<EdgeId, EdgeId>) {
    && links.Keys == earlier.Keys
    && (forall a :: a in links ==> earlier[a] in rep && links[a] == rep[earlier[a]])
  }

  predicate Partial(before: map<EdgeId, Edge>, m: Merge, todo: set<EdgeId>, edges: map<EdgeId, Edge>, rep: map<EdgeId, EdgeId>) {
    && Waiting(before, m, todo, edges)
    && Rewritten(before, m, todo, edges)
    && Represented(before, m, todo, edges, rep)
    && Preferred(before, m, todo, rep)
    && TombstonesKept(before, edges, rep)
    && UniqueEndpoints(edges)
  }

  function Redirect(links: map<EdgeId, EdgeId>, from: EdgeId, to: EdgeId): map<EdgeId, EdgeId> {
    map a | a in links :: if links[a] == from then to else links[a]
  }

  lemma StartPartial(before: map<EdgeId, Edge>, m: Merge)
    requires UniqueEndpoints(before)
    ensures Partial(before, m, Affected(before, m), before, map e | e in before :: e)
  {
    var rep := map e | e in before :: e;
    forall e | e in before ensures before[e].tombstoned <==> Collected(before, rep, e) {
      assert rep[e] == e;
    }
  }

  lemma WaitingStep(before: map<EdgeId, Edge>, m: Merge, todo: set<EdgeId>, edges: map<EdgeId, Edge>, after: map<EdgeId, Edge>, e: EdgeId)
    requires Waiting(before, m, todo, edges) && e in todo && forall t :: t in todo ==> e <= t
    requires forall t :: t in todo && t != e ==> t in after && after[t] == edges[t]
    ensures Waiting(before, m, todo - {e}, after)
  {
    forall o, t | o in Affected(before, m) && o !in todo - {e} && t in todo - {e} ensures o < t {
      if o != e {
        assert o !in todo;
      }
    }
  }

  // The edge moves to its new endpoints, where there is none.
  lemma MoveStep(before: map<EdgeId, Edge>, m: Merge, todo: set<EdgeId>, edges: map<EdgeId, Edge>, rep: map<EdgeId, EdgeId>, e: EdgeId, moved: Edge)
    requires Partial(before, m, todo, edges, rep) && m.target !in m.sources
    requires e in todo && (forall t :: t in todo ==> e <= t)
    requires m.Onto(before[e], moved) && moved.tombstoned == before[e].tombstoned
    requires forall x :: x in edges ==> !Parallel(edges[x], moved)
    ensures Partial(before, m, todo - {e}, edges[e := moved], rep)
  {
    hide Collected;
    WaitingStep(before, m, todo, edges, edges[e := moved], e);
    assert Represented(before, m, todo - {e}, edges[e := moved], rep);
  }

  // The edge gives way to the edge that has its new endpoints already.
  lemma AbsorbStep(before: map<EdgeId, Edge>, m: Merge, todo: set<EdgeId>, edges: map<EdgeId, Edge>, rep: map<EdgeId, EdgeId>,
                   e: EdgeId, survivor: EdgeId, absorbed: Edge)
    requires Partial(before, m, todo, edges, rep) && m.target !in m.sources
    requires e in todo && (forall t :: t in todo ==> e <= t)
    requires survivor in edges && m.Onto(before[e], edges[survivor])
    requires Parallel(absorbed, edges[survivor]) && absorbed.tombstoned == (edges[survivor].tombstoned || before[e].tombstoned)
    ensures survivor != e && survivor !in todo
    ensures Partial(before, m, todo - {e}, edges[survivor := absorbed] - {e}, Redirect(rep, e, survivor))
  {
    hide Collected, Survives, Waiting, Represented, Preferred, TombstonesKept, Redirect;
    var after := edges[survivor := absorbed] - {e};
    NotWaiting(before, m, todo, edges, e, survivor);
    WaitingStep(before, m, todo, edges, after, e);
    AbsorbRepresents(before, m, todo, edges, rep, e, survivor, absorbed);
    AbsorbPrefers(before, m, todo, edges, rep, e, survivor);
    AbsorbCollects(before, m, todo, edges, rep, e, survivor);
    assert TombstonesKept(before, after, Redirect(rep, e, survivor)) by {
      TombstonesStep(before, edges, rep, e, survivor, absorbed);
    }
  }

  lemma NotWaiting(before: map<EdgeId, Edge>, m: Merge, todo: set<EdgeId>, edges: map<EdgeId, Edge>, e: EdgeId, survivor: EdgeId)
    requires Waiting(before, m, todo, edges) && m.target !in m.sources && e in todo
    requires survivor in edges && m.Onto(before[e], edges[survivor])
    ensures survivor !in todo && survivor != e && e in before && e in edges && forall t :: t in todo && t != e ==> t in (edges - {e}) && t != survivor
  {
  }

  lemma AbsorbRepresents(before: map<EdgeId, Edge>, m: Merge, todo: set<EdgeId>, edges: map<EdgeId, Edge>, rep: map<EdgeId, EdgeId>,
                         e: EdgeId, survivor: EdgeId, absorbed: Edge)
    requires Represented(before, m, todo, edges, rep) && e in todo && e in edges && survivor in edges && survivor !in todo
    requires m.Onto(before[e], edges[survivor]) && Parallel(absorbed, edges[survivor])
    ensures Represented(before, m, todo - {e}, edges[survivor := absorbed] - {e}, Redirect(rep, e, survivor))
  {
  }

  lemma TombstonesStep(before: map<EdgeId, Edge>, edges: map<EdgeId, Edge>, rep: map<EdgeId, EdgeId>, e: EdgeId, survivor: EdgeId, absorbed: Edge)
    requires TombstonesKept(before, edges, rep) && e in before && survivor in edges && survivor != e
    requires absorbed.tombstoned == (edges[survivor].tombstoned || before[e].tombstoned)
    requires var rep' := Redirect(rep, e, survivor);
             && (Collected(before, rep', survivor) <==> Collected(before, rep, survivor) || before[e].tombstoned)
             && forall x :: x != survivor && x != e ==> (Collected(before, rep', x) <==> Collected(before, rep, x))
    ensures TombstonesKept(before, edges[survivor := absorbed] - {e}, Redirect(rep, e, survivor))
  {
    hide Collected, Redirect;
  }

  lemma AbsorbPrefers(before: map<EdgeId, Edge>, m: Merge, todo: set<EdgeId>, edges: map<EdgeId, Edge>, rep: map<EdgeId, EdgeId>, e: EdgeId, survivor: EdgeId)
    requires Partial(before, m, todo, edges, rep) && e in todo && survivor in edges && survivor !in todo
    ensures Preferred(before, m, todo - {e}, Redirect(rep, e, survivor))
  {
    hide Collected;
    assert forall o :: o in rep && rep[o] == e ==> o == e;
    assert survivor in before && (m.Touches(before[survivor]) ==> survivor in Affected(before, m) - todo);
    assert Survives(before, m, survivor, e);
  }

  lemma AbsorbCollects(before: map<EdgeId, Edge>, m: Merge, todo: set<EdgeId>, edges: map<EdgeId, Edge>, rep: map<EdgeId, EdgeId>, e: EdgeId, survivor: EdgeId)
    requires Partial(before, m, todo, edges, rep) && e in todo && survivor in edges && survivor !in todo
    ensures var rep' := Redirect(rep, e, survivor);
            && (Collected(before, rep', survivor) <==> Collected(before, rep, survivor) || before[e].tombstoned)
            && forall x :: x != survivor && x != e ==> (Collected(before, rep', x) <==> Collected(before, rep, x))
  {
    var rep' := Redirect(rep, e, survivor);
    assert rep[e] == e && rep'[e] == survivor;
    assert forall o :: o in rep && rep[o] == e ==> o == e;
    forall x, o | o in rep && o in before && rep[o] == x && x != e && before[o].tombstoned ensures Collected(before, rep', x) {
      assert rep'[o] == x;
    }
    if o :| o in rep' && o in before && rep'[o] == survivor && before[o].tombstoned && o != e {
      assert rep[o] == survivor;
    }
    forall x, o | o in rep' && o in before && rep'[o] == x && x != survivor && before[o].tombstoned ensures Collected(before, rep, x) {
      assert rep[o] == x;
    }
  }

  // ---- the finished rewrite ----

  lemma RewriteIsQuotient(g: Graph, m: Merge, edges: map<EdgeId, Edge>, links: map<EdgeId, EdgeId>, rep: map<EdgeId, EdgeId>)
    requires Partial(g.edges, m, {}, edges, rep) && LinksFollow(g.links, links, rep)
    requires forall a :: a in g.links ==> g.links[a] in g.edges
    requires forall e :: e in edges ==> EdgeOk(g, edges[e])
    ensures QuotientEdges(g, m, edges) && QuotientLinks(g, m, edges, links)
  {
    hide Collected, Survives;
    forall e, o | e in edges && o in g.edges && m.Onto(g.edges[o], edges[e]) ensures rep[o] == e && Survives(g.edges, m, e, o) {
      assert Parallel(edges[rep[o]], edges[e]);
    }
    forall e | e in edges ensures Collected(g.edges, rep, e) <==> Tombstoned(g, m, edges[e]) {
      CollectedIsFiber(g, m, edges, rep, e);
    }
  }

  lemma CollectedIsFiber(g: Graph, m: Merge, edges: map<EdgeId, Edge>, rep: map<EdgeId, EdgeId>, e: EdgeId)
    requires Represented(g.edges, m, {}, edges, rep) && UniqueEndpoints(edges) && e in edges
    ensures Collected(g.edges, rep, e) <==> Tombstoned(g, m, edges[e])
  {
    if Collected(g.edges, rep, e) {
      var o :| o in rep && o in g.edges && rep[o] == e && g.edges[o].tombstoned;
      assert m.Onto(g.edges[o], edges[e]);
    }
    if Tombstoned(g, m, edges[e]) {
      var o :| o in g.edges && m.Onto(g.edges[o], edges[e]) && g.edges[o].tombstoned;
      assert Parallel(edges[rep[o]], edges[e]);
    }
  }

  // The quotient graph keeps every promise of the rows.
  lemma QuotientIsValid(g: Graph, m: Merge, after: Graph)
    requires Valid(g) && CanMerge(g, m) && IsQuotient(g, m, after)
    ensures Valid(after)
  {
    hide Survives, UniqueEndpoints, OwnLinks, EntityOk, EdgesOk, LabelsKnown, NamesUnique, EdgeOk, MergedEntities, MergedLabels, Tombstoned, QuotientLinks;
    QuotientOwnsLinks(g, m, after);
    SameNames(g, m, after);
    forall x | x in after.entities ensures EntityOk(after, x) {
      QuotientEntityOk(g, m, after, x);
    }
    forall e | e in after.edges ensures EdgeOk(after, after.edges[e]) {
      SameNamesEdge(g, after, after.edges[e]);
    }
    assert EdgesOk(after) by {
      EdgesOkFrom(after);
    }
  }

  lemma EdgesOkFrom(g: Graph)
    requires forall e :: e in g.edges ==> EdgeOk(g, g.edges[e])
    ensures EdgesOk(g)
  {
  }

  lemma SameNames(g: Graph, m: Merge, after: Graph)
    requires CanMerge(g, m) && LabelsKnown(g) && NamesUnique(g.entities)
    requires after.entities == MergedEntities(g, m) && after.labels == MergedLabels(g, m)
    ensures after.entities.Keys == g.entities.Keys && forall x :: x in g.entities ==> after.entities[x].name == g.entities[x].name
    ensures LabelsKnown(after) && NamesUnique(after.entities)
  {
  }

  lemma SameNamesEdge(g: Graph, after: Graph, e: Edge)
    requires EdgeOk(g, e)
    requires after.entities.Keys == g.entities.Keys && forall x :: x in g.entities ==> after.entities[x].name == g.entities[x].name
    ensures EdgeOk(after, e)
  {
  }

  lemma QuotientOwnsLinks(g: Graph, m: Merge, after: Graph)
    requires OwnLinks(g.edges, g.links)
    requires UniqueEndpoints(after.edges) && QuotientLinks(g, m, after.edges, after.links)
    requires forall e :: e in after.edges ==> e in g.edges && m.Onto(g.edges[e], after.edges[e])
    ensures OwnLinks(after.edges, after.links)
  {
    forall e | e in after.edges ensures e in after.links && after.links[e] == e {
      assert g.links[e] == e;
      assert Parallel(after.edges[after.links[e]], after.edges[e]);
    }
  }

  lemma QuotientEntityOk(g: Graph, m: Merge, after: Graph, x: EntityId)
    requires EntitiesOk(g) && CanMerge(g, m) && x in g.entities
    requires after.entities == MergedEntities(g, m) && after.labels == MergedLabels(g, m)
    ensures x in after.entities && EntityOk(after, x)
  {
    hide EntitiesOk, Owned;
    assert EntityOk(g, x) && EntityOk(g, m.target) by {
      OneEntityOk(g, x);
      OneEntityOk(g, m.target);
    }
    if x == m.target || x !in m.sources {
      MergedOwned(g, m, after, x);
    }
  }

  lemma OneEntityOk(g: Graph, x: EntityId)
    requires EntitiesOk(g) && x in g.entities
    ensures EntityOk(g, x)
  {
  }

  lemma MergedOwned(g: Graph, m: Merge, after: Graph, x: EntityId)
    requires after.labels == MergedLabels(g, m) && m.target !in m.sources && x !in m.sources
    ensures Owned(after, x) == if x == m.target then set l | l in g.labels && g.labels[l] in m.sources + {m.target} else Owned(g, x)
    ensures x in g.entities && g.entities[x].name in Owned(g, x) ==> g.entities[x].name in Owned(after, x)
  {
  }

  // ---- the other corrections, and what reading the graph inserts ----

  function Relabelled(edges: map<EdgeId, Edge>, x: EntityId, name: Label): map<EdgeId, Edge> {
    map e | e in edges ::
      edges[e].(sourceLabel := if edges[e].source == x then name else edges[e].sourceLabel,
                targetLabel := if edges[e].target == x then name else edges[e].targetLabel)
  }

  predicate Live(g: Graph, x: EntityId) {
    x in g.entities && !g.entities[x].tombstoned
  }

  // The label must be free or the entity's own, and no other row may hold it as its name.
  predicate CanRename(g: Graph, x: EntityId, name: Label) {
    && Live(g, x) && name != g.entities[x].name
    && (name in g.labels ==> g.labels[name] == x)
    && (forall y :: y in g.entities ==> g.entities[y].name != name)
  }

  function Renamed(g: Graph, x: EntityId, name: Label): Graph
    requires x in g.entities
  {
    Graph(g.entities[x := Entity(name, g.entities[x].aliases + {g.entities[x].name}, g.entities[x].tombstoned)],
          Relabelled(g.edges, x, name),
          if name in g.labels then g.labels else g.labels[name := x],
          g.links)
  }

  function EntityDeleted(g: Graph, x: EntityId): Graph
    requires x in g.entities
  {
    g.(entities := g.entities[x := g.entities[x].(tombstoned := true)])
  }

  function RelationDeleted(g: Graph, a: EdgeId): Graph
    requires a in g.links && g.links[a] in g.edges
  {
    g.(edges := g.edges[g.links[a] := g.edges[g.links[a]].(tombstoned := true)])
  }

  predicate CanAddNode(g: Graph, x: EntityId, name: Label) {
    x !in g.entities && name !in g.labels
  }

  function NodeAdded(g: Graph, x: EntityId, name: Label): Graph {
    g.(entities := g.entities[x := Entity(name, {}, false)], labels := g.labels[name := x])
  }

  predicate CanAddEdge(g: Graph, e: EdgeId, source: EntityId, target: EntityId) {
    && e !in g.edges && e !in g.links && Live(g, source) && Live(g, target)
    && forall o :: o in g.edges ==> !(g.edges[o].source == source && g.edges[o].target == target)
  }

  function EdgeAdded(g: Graph, e: EdgeId, source: EntityId, target: EntityId): Graph
    requires source in g.entities && target in g.entities
  {
    g.(edges := g.edges[e := Edge(source, target, g.entities[source].name, g.entities[target].name, false)],
       links := g.links[e := e])
  }

  // ---- what each correction does to the rows, row by row ----

  // Every entity but these is as it was, and none comes or goes.
  predicate EntitiesApart(before: map<EntityId, Entity>, after: map<EntityId, Entity>, apart: set<EntityId>) {
    after.Keys == before.Keys && forall x :: x in before && x !in apart ==> after[x] == before[x]
  }

  // The entity keeps name and aliases and is live no more.
  predicate Entombed(before: map<EntityId, Entity>, after: map<EntityId, Entity>, x: EntityId) {
    x in before && x in after && after[x].tombstoned && after[x].name == before[x].name && after[x].aliases == before[x].aliases
  }

  // The relation keeps its ends and is shown no more; every other is as it was.
  predicate RelationEntombed(before: map<EdgeId, Edge>, after: map<EdgeId, Edge>, e: EdgeId) {
    && after.Keys == before.Keys && (forall o :: o in before && o != e ==> after[o] == before[o])
    && e in before && after[e].tombstoned && Parallel(after[e], before[e])
    && after[e].sourceLabel == before[e].sourceLabel && after[e].targetLabel == before[e].targetLabel
  }

  // The entity has a new name and keeps its old one as an alias; relations show the new name at its ends.
  predicate NamedAnew(before: Graph, after: Graph, x: EntityId, name: Label) {
    && x in before.entities && EntitiesApart(before.entities, after.entities, {x})
    && after.entities[x].name == name && after.entities[x].aliases == before.entities[x].aliases + {before.entities[x].name}
    && after.entities[x].tombstoned == before.entities[x].tombstoned
    && after.links == before.links && after.labels.Keys == before.labels.Keys + {name}
    && (forall l :: l in before.labels ==> after.labels[l] == before.labels[l]) && after.labels[name] == x
    && after.edges.Keys == before.edges.Keys
    && forall e :: e in before.edges ==>
         var old', new' := before.edges[e], after.edges[e];
         && Parallel(old', new') && new'.tombstoned == old'.tombstoned
         && new'.sourceLabel == (if old'.source == x then name else old'.sourceLabel)
         && new'.targetLabel == (if old'.target == x then name else old'.targetLabel)
  }

  // What a merge makes of the entities and labels.
  ghost predicate Fused(before: Graph, after: Graph, m: Merge) {
    && EntitiesApart(before.entities, after.entities, m.sources + {m.target})
    && (forall x :: x in m.sources ==> Entombed(before.entities, after.entities, x))
    && m.target in before.entities && m.target in after.entities
    && after.entities[m.target].name == before.entities[m.target].name
    && after.entities[m.target].tombstoned == before.entities[m.target].tombstoned
    && (forall l :: l in after.entities[m.target].aliases <==>
          l != before.entities[m.target].name && l in before.labels && before.labels[l] in m.sources + {m.target})
    && after.labels.Keys == before.labels.Keys
    && forall l :: l in before.labels ==> after.labels[l] == if before.labels[l] in m.sources then m.target else before.labels[l]
  }

  // The label resolves to this entity, a new one of that name if the label was unknown; nothing else changes.
  predicate Resolves(before: Graph, after: Graph, name: Label, x: EntityId) {
    && name in after.labels && after.labels[name] == x && x in after.entities
    && after.labels.Keys == before.labels.Keys + {name} && (forall l :: l in before.labels ==> after.labels[l] == before.labels[l])
    && after.entities.Keys == before.entities.Keys + {x} && (forall y :: y in before.entities ==> after.entities[y] == before.entities[y])
    && (name !in before.labels ==> x !in before.entities && after.entities[x] == Entity(name, {}, false))
  }

  // This relation is the one between the two entities, live under its own id; nothing else changes.
  predicate Related(before: Graph, after: Graph, source: EntityId, target: EntityId, e: EdgeId) {
    && source in after.entities && target in after.entities
    && e in after.edges && after.edges[e] == Edge(source, target, after.entities[source].name, after.entities[target].name, false)
    && after.edges.Keys == before.edges.Keys + {e} && (forall o :: o in before.edges ==> after.edges[o] == before.edges[o])
    && e in after.links && after.links[e] == e
    && after.links.Keys == before.links.Keys + {e} && (forall a :: a in before.links ==> after.links[a] == before.links[a])
  }

  lemma MergingFuses(g: Graph, m: Merge, after: Graph)
    requires CanMerge(g, m) && after.entities == MergedEntities(g, m) && after.labels == MergedLabels(g, m)
    ensures Fused(g, after, m)
  {
  }

  lemma RenamingNames(g: Graph, x: EntityId, name: Label)
    requires CanRename(g, x, name)
    ensures NamedAnew(g, Renamed(g, x, name), x, name)
  {
  }

  // ---- the rows themselves ----

  // `Taken` is the unique constraint on names.
  datatype CorrectionError = Conflict | Missing | Taken

  class GraphRows {
    var entities: map<EntityId, Entity>
    var edges: map<EdgeId, Edge>
    var labels: map<Label, EntityId>
    var links: map<EdgeId, EdgeId>

    constructor ()
      ensures Rows() == Graph(map[], map[], map[], map[]) && Valid(Rows())
    {
      entities, edges, labels, links := map[], map[], map[], map[];
    }

    function Rows(): Graph
      reads this
    {
      Graph(entities, edges, labels, links)
    }

    method Least(todo: set<EdgeId>) returns (e: EdgeId)
      requires todo != {}
      ensures e in todo && forall t :: t in todo ==> e <= t
    {
      e :| e in todo;
      var rest := todo - {e};
      while rest != {}
        invariant rest <= todo && e in todo
        invariant forall t :: t in todo && t !in rest ==> e <= t
        decreases |rest|
      {
        var t :| t in rest;
        rest := rest - {t};
        if t < e {
          e := t;
        }
      }
    }

    // The edge with these endpoints, if any.
    method Find(source: EntityId, target: EntityId) returns (found: Option<EdgeId>)
      ensures found.Some? ==> found.value in edges && edges[found.value].source == source && edges[found.value].target == target
      ensures found.None? ==> forall e :: e in edges ==> !(edges[e].source == source && edges[e].target == target)
    {
      var rest := edges.Keys;
      while rest != {}
        invariant rest <= edges.Keys
        invariant forall e :: e in edges && e !in rest ==> !(edges[e].source == source && edges[e].target == target)
        decreases |rest|
      {
        var e :| e in rest;
        if edges[e].source == source && edges[e].target == target {
          return Some(e);
        }
        rest := rest - {e};
      }
      return None;
    }

    // The loop over the affected edges, in order of their ids.
    method RewriteEdges(m: Merge, ghost g: Graph)
      requires Valid(g) && CanMerge(g, m) && edges == g.edges && links == g.links
      requires entities.Keys == g.entities.Keys && forall x :: x in entities ==> entities[x].name == g.entities[x].name
      modifies this`edges, this`links
      ensures QuotientEdges(g, m, edges) && QuotientLinks(g, m, edges, links)
    {
      hide Partial, LinksFollow, Affected, Valid, CanMerge, UniqueEndpoints;
      var todo := Affected(edges, m);
      ghost var rep := map e | e in edges :: e;
      Begin(g, m);
      while todo != {}
        invariant Partial(g.edges, m, todo, edges, rep) && LinksFollow(g.links, links, rep)
        invariant forall e :: e in edges ==> EdgeOk(g, edges[e])
        decreases |todo|
      {
        var e := Least(todo);
        OpenEdge(g.edges, m, todo, edges, rep, e);
        var row := edges[e];
        var source, target := m.Image(row.source), m.Image(row.target);
        ImageKnown(g, m, row);
        var survivor := Find(source, target);
        if survivor.Some? && survivor.value != e {
          var kept := edges[survivor.value];
          var absorbed := kept.(tombstoned := kept.tombstoned || row.tombstoned,
                                sourceLabel := entities[source].name, targetLabel := entities[target].name);
          AbsorbStep(g.edges, m, todo, edges, rep, e, survivor.value, absorbed);
          RedirectFollows(g.links, links, rep, e, survivor.value);
          rep := Redirect(rep, e, survivor.value);
          edges := edges[survivor.value := absorbed];
          links := Redirect(links, e, survivor.value);
          edges := edges - {e};
        } else {
          var moved := row.(source := source, target := target, sourceLabel := entities[source].name, targetLabel := entities[target].name);
          MovedApart(g.edges, m, todo, edges, rep, e, moved);
          MoveStep(g.edges, m, todo, edges, rep, e, moved);
          edges := edges[e := moved];
        }
        todo := todo - {e};
      }
      RewriteIsQuotient(g, m, edges, links, rep);
    }

    // create_correction, kind merge_entities; the labels are what the engine is told.
    method MergeEntities(sources: seq<EntityId>, target: EntityId) returns (r: Result<(seq<Label>, Label), CorrectionError>)
      requires Valid(Rows())
      modifies this
      ensures r == Err(Conflict) <==> sources == [] || target in sources || exists i, j :: 0 <= i < j < |sources| && sources[i] == sources[j]
      ensures r.Ok? ==> CanMerge(old(Rows()), Merge(Elements(sources), target))
      ensures r == Err(Missing) ==> !CanMerge(old(Rows()), Merge(Elements(sources), target))
      ensures r.Err? ==> Rows() == old(Rows())
      ensures r.Ok? ==> Valid(Rows()) && IsQuotient(old(Rows()), Merge(Elements(sources), target), Rows())
      ensures r.Ok? ==> |r.value.0| == |sources| && r.value.1 == old(entities)[target].name
      ensures r.Ok? ==> forall i :: 0 <= i < |sources| ==> r.value.0[i] == old(entities)[sources[i]].name
      ensures r.Ok? ==> Fused(old(Rows()), Rows(), Merge(Elements(sources), target))
    {
      hide Valid, QuotientEdges, QuotientLinks, Fused;
      var m := Merge(Elements(sources), target);
      if sources == [] || target in sources || exists i, j :: 0 <= i < j < |sources| && sources[i] == sources[j] {
        return Err(Conflict);
      }
      assert sources[0] in m.sources;
      if !CanMerge(Rows(), m) {
        return Err(Missing);
      }
      ghost var g := Rows();
      var names := seq(|sources|, i requires 0 <= i < |sources| reads this requires sources[i] in entities => entities[sources[i]].name);
      var owned := set l | l in labels && labels[l] in m.sources + {target};
      entities := entities[target := entities[target].(aliases := owned - {entities[target].name})];
      entities := map x | x in entities :: if x in m.sources then entities[x].(tombstoned := true) else entities[x];
      labels := map l | l in labels :: if labels[l] in m.sources then target else labels[l];
      assert entities == MergedEntities(g, m) && labels == MergedLabels(g, m);
      RewriteEdges(m, g);
      assert IsQuotient(g, m, Rows());
      QuotientIsValid(g, m, Rows());
      MergingFuses(g, m, Rows());
      return Ok((names, entities[target].name));
    }

    // create_correction, kind rename_entity; `inEngine` says the engine knows an entity of this name.
    method RenameEntity(x: EntityId, name: Label, inEngine: bool) returns (r: Result<Label, CorrectionError>)
      requires Valid(Rows())
      modifies this
      ensures r.Err? ==> Rows() == old(Rows())
      ensures r.Ok? <==> CanRename(old(Rows()), x, name) && (inEngine ==> name in old(labels))
      ensures r.Ok? ==> Rows() == Renamed(old(Rows()), x, name) && r.value == old(entities)[x].name
      ensures r.Ok? ==> NamedAnew(old(Rows()), Rows(), x, name)
      ensures r == Err(Taken) ==> name in old(labels) && old(labels)[name] == x && exists y :: y in old(entities) && y != x && old(entities)[y].name == name
    {
      hide Valid, Relabelled, NamedAnew;
      OwnsName(Rows(), x);
      if x !in entities || entities[x].tombstoned {
        return Err(Missing);
      }
      if (name in labels && labels[name] != x) || name == entities[x].name || (inEngine && name !in labels) {
        return Err(Conflict);
      }
      if exists y :: y in entities && entities[y].name == name {
        return Err(Taken);
      }
      RenamingNames(Rows(), x, name);
      var row := entities[x];
      entities := entities[x := row.(name := name, aliases := row.aliases + {row.name})];
      if name !in labels {
        labels := labels[name := x];
      }
      Relabel(x, name);
      return Ok(row.name);
    }

    method Relabel(x: EntityId, name: Label)
      modifies this`edges
      ensures edges == Relabelled(old(edges), x, name)
    {
      edges := map e | e in edges :: if edges[e].source == x then edges[e].(sourceLabel := name) else edges[e];
      edges := map e | e in edges :: if edges[e].target == x then edges[e].(targetLabel := name) else edges[e];
    }

    // kind delete_entity
    method DeleteEntity(x: EntityId) returns (r: Result<Label, CorrectionError>)
      modifies this`entities
      ensures r.Ok? <==> x in old(entities)
      ensures Rows() == if x in old(entities) then EntityDeleted(old(Rows()), x) else old(Rows())
      ensures r.Ok? ==> Entombed(old(entities), entities, x) && EntitiesApart(old(entities), entities, {x}) && r.value == entities[x].name
      ensures edges == old(edges) && labels == old(labels) && links == old(links)
    {
      if x !in entities {
        return Err(Missing);
      }
      entities := entities[x := entities[x].(tombstoned := true)];
      return Ok(entities[x].name);
    }

    // kind delete_relation, by any id the relation ever had
    method DeleteRelation(a: EdgeId) returns (r: Result<(Label, Label), CorrectionError>)
      requires OwnLinks(edges, links)
      modifies this`edges
      ensures r.Ok? <==> a in links
      ensures Rows() == if a in links then RelationDeleted(old(Rows()), a) else old(Rows())
      ensures r.Ok? ==> RelationEntombed(old(edges), edges, links[a]) && r.value == (edges[links[a]].sourceLabel, edges[links[a]].targetLabel)
      ensures entities == old(entities) && labels == old(labels) && links == old(links)
    {
      if a !in links {
        return Err(Missing);
      }
      var e := links[a];
      edges := edges[e := edges[e].(tombstoned := true)];
      return Ok((edges[e].sourceLabel, edges[e].targetLabel));
    }

    // _canonical_nodes, one node: the entity a label resolves to, inserted if the label is unknown.
    method Node(name: Label, spare: EntityId) returns (x: EntityId)
      requires Valid(Rows()) && spare !in entities
      modifies this`entities, this`labels
      ensures name in old(labels) ==> Rows() == old(Rows()) && x == old(labels)[name]
      ensures name !in old(labels) ==> CanAddNode(old(Rows()), spare, name) && Rows() == NodeAdded(old(Rows()), spare, name) && x == spare
      ensures Resolves(old(Rows()), Rows(), name, x)
    {
      hide EdgesOk, UniqueEndpoints, OwnLinks, EntitiesOk, NamesUnique;
      if name in labels {
        return labels[name];
      }
      entities := entities[spare := Entity(name, {}, false)];
      labels := labels[name := spare];
      return spare;
    }

    // _canonical_edges, one edge between the entities two labels resolved to; None when it is not shown.
    method Relation(source: EntityId, target: EntityId, spare: EdgeId) returns (shown: Option<EdgeId>)
      requires Valid(Rows()) && source in entities && target in entities && spare !in edges && spare !in links
      modifies this`edges, this`links
      ensures Rows() == if CanAddEdge(old(Rows()), spare, source, target) then EdgeAdded(old(Rows()), spare, source, target) else old(Rows())
      ensures shown.Some? <==>
                && !entities[source].tombstoned && !entities[target].tombstoned
                && forall e :: e in edges && edges[e].source == source && edges[e].target == target ==> !edges[e].tombstoned
      ensures shown.Some? ==> Related(old(Rows()), Rows(), source, target, shown.value)
      ensures shown.None? ==> Rows() == old(Rows())
    {
      hide EntitiesOk, LabelsKnown, NamesUnique;
      if entities[source].tombstoned || entities[target].tombstoned {
        return None;
      }
      var found := Find(source, target);
      if found.None? {
        edges := edges[spare := Edge(source, target, entities[source].name, entities[target].name, false)];
        links := links[spare := spare];
        return Some(spare);
      }
      assert EdgeOk(Rows(), edges[found.value]);
      ghost var before := edges;
      edges := edges[found.value := edges[found.value].(sourceLabel := entities[source].name, targetLabel := entities[target].name)];
      assert edges == before;
      assert forall e :: e in edges && edges[e].source == source && edges[e].target == target ==> Parallel(edges[e], edges[found.value]);
      return if edges[found.value].tombstoned then None else found;
    }
  }

  function Elements(xs: seq<EntityId>): set<EntityId> {
    set x | x in xs
  }

  lemma Begin(g: Graph, m: Merge)
    requires Valid(g)
    ensures Partial(g.edges, m, Affected(g.edges, m), g.edges, map e | e in g.edges :: e)
    ensures LinksFollow(g.links, g.links, map e | e in g.edges :: e)
    ensures forall e :: e in g.edges ==> EdgeOk(g, g.edges[e])
    ensures forall a :: a in g.links ==> g.links[a] in g.edges
  {
    hide Partial, EdgeOk, UniqueEndpoints;
    StartPartial(g.edges, m);
  }

  // A name in use is a known label, and the row's own only if it is the entity itself.
  lemma OwnsName(g: Graph, x: EntityId)
    requires Valid(g)
    ensures forall y :: y in g.entities ==> g.entities[y].name in g.labels
  {
    hide EdgesOk, UniqueEndpoints, OwnLinks, NamesUnique, LabelsKnown;
    forall y | y in g.entities ensures g.entities[y].name in g.labels {
      OneEntityOk(g, y);
    }
  }

  lemma OpenEdge(before: map<EdgeId, Edge>, m: Merge, todo: set<EdgeId>, edges: map<EdgeId, Edge>, rep: map<EdgeId, EdgeId>, e: EdgeId)
    requires Partial(before, m, todo, edges, rep) && e in todo
    ensures e in edges && e in before && edges[e] == before[e]
  {
  }

  lemma ImageKnown(g: Graph, m: Merge, row: Edge)
    requires EdgeOk(g, row) && CanMerge(g, m)
    ensures m.Image(row.source) in g.entities && m.Image(row.target) in g.entities && m.target !in m.sources
  {
  }

  // With its new endpoints free, the edge itself is the only one it could have met.
  lemma MovedApart(before: map<EdgeId, Edge>, m: Merge, todo: set<EdgeId>, edges: map<EdgeId, Edge>, rep: map<EdgeId, EdgeId>, e: EdgeId, moved: Edge)
    requires Partial(before, m, todo, edges, rep) && e in todo && e in edges && m.target !in m.sources
    requires m.Onto(edges[e], moved)
    requires (forall x :: x in edges ==> !Parallel(edges[x], moved)) || Parallel(edges[e], moved)
    ensures forall x :: x in edges ==> !Parallel(edges[x], moved)
  {
  }

  lemma RedirectFollows(earlier: map<EdgeId, EdgeId>, links: map<EdgeId, EdgeId>, rep: map<EdgeId, EdgeId>, e: EdgeId, to: EdgeId)
    requires LinksFollow(earlier, links, rep)
    ensures LinksFollow(earlier, Redirect(links, e, to), Redirect(rep, e, to))
  {
  }
}
