// References into the knowledge graph over every sequence of corrections: an id or a label handed
// out once keeps resolving to what became of the thing it named.

module GraphRuns {
  import opened Options
  import opened EntityMerge

  datatype Step =
    | AddNode(node: EntityId, name: Label)
    | AddEdge(edge: EdgeId, source: EntityId, target: EntityId)
    | RenameEntity(entity: EntityId, newName: Label)
    | MergeEntities(merge: Merge)
    | DeleteEntity(deleted: EntityId)
    | DeleteRelation(link: EdgeId)

  ghost predicate Follows(g: Graph, step: Step, next: Graph) {
    match step
    case AddNode(x, name) => CanAddNode(g, x, name) && next == NodeAdded(g, x, name)
    case AddEdge(e, s, t) => CanAddEdge(g, e, s, t) && next == EdgeAdded(g, e, s, t)
    case RenameEntity(x, name) => CanRename(g, x, name) && next == Renamed(g, x, name)
    case MergeEntities(m) => Valid(g) && CanMerge(g, m) && IsQuotient(g, m, next)
    case DeleteEntity(x) => x in g.entities && next == EntityDeleted(g, x)
    case DeleteRelation(a) => a in g.links && g.links[a] in g.edges && next == RelationDeleted(g, a)
  }

  // Where a step sends an entity.
  function Moved(step: Step, x: EntityId): EntityId {
    if step.MergeEntities? then step.merge.Image(x) else x
  }

  // ---- every step keeps the rows valid ----

  lemma NodeAddedIsValid(g: Graph, x: EntityId, name: Label)
    requires Valid(g) && CanAddNode(g, x, name)
    ensures Valid(NodeAdded(g, x, name))
  {
    hide UniqueEndpoints, OwnLinks, EdgesOk, EntitiesOk, LabelsKnown, NamesUnique, CanAddNode;
    OwnsName(g, x);
    NodeAddedNames(g, x, name);
    SameEdges(g, NodeAdded(g, x, name));
    NodeAddedEntitiesOk(g, x, name);
  }

  lemma NodeAddedNames(g: Graph, x: EntityId, name: Label)
    requires NamesUnique(g.entities) && CanAddNode(g, x, name)
    requires forall y :: y in g.entities ==> g.entities[y].name in g.labels
    ensures NamesUnique(NodeAdded(g, x, name).entities)
    ensures forall y :: y in g.entities ==> y in NodeAdded(g, x, name).entities && NodeAdded(g, x, name).entities[y] == g.entities[y]
  {
  }

  lemma NodeAddedEntitiesOk(g: Graph, x: EntityId, name: Label)
    requires EntitiesOk(g) && LabelsKnown(g) && CanAddNode(g, x, name)
    ensures EntitiesOk(NodeAdded(g, x, name)) && LabelsKnown(NodeAdded(g, x, name))
  {
    hide EntitiesOk;
    var next := NodeAdded(g, x, name);
    forall y | y in next.entities ensures EntityOk(next, y) {
      if y in g.entities {
        OneEntityOk(g, y);
      }
      assert Owned(next, y) == if y == x then {name} else Owned(g, y);
    }
    EntitiesOkFrom(next);
  }

  lemma EdgeAddedIsValid(g: Graph, e: EdgeId, source: EntityId, target: EntityId)
    requires Valid(g) && CanAddEdge(g, e, source, target)
    ensures Valid(EdgeAdded(g, e, source, target))
  {
    hide UniqueEndpoints, OwnLinks, EdgesOk, EntitiesOk, LabelsKnown, NamesUnique;
    EdgeAddedEdgesOk(g, e, source, target);
    SameEntities(g, EdgeAdded(g, e, source, target));
  }

  lemma EdgeAddedEdgesOk(g: Graph, e: EdgeId, source: EntityId, target: EntityId)
    requires EdgesOk(g) && UniqueEndpoints(g.edges) && OwnLinks(g.edges, g.links) && CanAddEdge(g, e, source, target)
    ensures var next := EdgeAdded(g, e, source, target);
            EdgesOk(next) && UniqueEndpoints(next.edges) && OwnLinks(next.edges, next.links)
  {
  }

  lemma RelationDeletedIsValid(g: Graph, a: EdgeId)
    requires Valid(g) && a in g.links && g.links[a] in g.edges
    ensures Valid(RelationDeleted(g, a))
  {
    hide UniqueEndpoints, OwnLinks, EdgesOk, EntitiesOk, LabelsKnown, NamesUnique;
    RelationDeletedEdgesOk(g, a);
    SameEntities(g, RelationDeleted(g, a));
  }

  lemma RelationDeletedEdgesOk(g: Graph, a: EdgeId)
    requires EdgesOk(g) && UniqueEndpoints(g.edges) && OwnLinks(g.edges, g.links) && a in g.links && g.links[a] in g.edges
    ensures var next := RelationDeleted(g, a);
            EdgesOk(next) && UniqueEndpoints(next.edges) && OwnLinks(next.edges, next.links)
  {
  }

  lemma EntitiesOkFrom(g: Graph)
    requires forall x :: x in g.entities ==> EntityOk(g, x)
    ensures EntitiesOk(g)
  {
  }

  lemma SameEdges(g: Graph, next: Graph)
    requires EdgesOk(g) && next.edges == g.edges
    requires forall x :: x in g.entities ==> x in next.entities && next.entities[x].name == g.entities[x].name
    ensures EdgesOk(next)
  {
  }

  lemma SameEntities(g: Graph, next: Graph)
    requires EntitiesOk(g) && LabelsKnown(g) && next.entities == g.entities && next.labels == g.labels
    ensures EntitiesOk(next) && LabelsKnown(next)
  {
    hide EntitiesOk;
    forall x | x in next.entities ensures EntityOk(next, x) {
      OneEntityOk(g, x);
      assert Owned(next, x) == Owned(g, x);
    }
    EntitiesOkFrom(next);
  }

  lemma EntityDeletedIsValid(g: Graph, x: EntityId)
    requires Valid(g) && x in g.entities
    ensures Valid(EntityDeleted(g, x))
  {
    hide UniqueEndpoints, OwnLinks, EdgesOk, EntitiesOk, LabelsKnown, NamesUnique;
    SameEdges(g, EntityDeleted(g, x));
    EntityDeletedEntitiesOk(g, x);
  }

  lemma EntityDeletedEntitiesOk(g: Graph, x: EntityId)
    requires EntitiesOk(g) && LabelsKnown(g) && NamesUnique(g.entities) && x in g.entities
    ensures var next := EntityDeleted(g, x); EntitiesOk(next) && LabelsKnown(next) && NamesUnique(next.entities)
  {
    hide EntitiesOk;
    var next := EntityDeleted(g, x);
    forall y | y in next.entities ensures EntityOk(next, y) {
      OneEntityOk(g, y);
      assert Owned(next, y) == Owned(g, y);
    }
    EntitiesOkFrom(next);
  }

  lemma RenamedEntitiesOk(g: Graph, x: EntityId, name: Label)
    requires EntitiesOk(g) && CanRename(g, x, name)
    ensures EntitiesOk(Renamed(g, x, name))
  {
    hide Relabelled;
    var next := Renamed(g, x, name);
    forall y | y in next.entities ensures EntityOk(next, y) {
      assert EntityOk(g, y);
      assert Owned(next, y) == if y == x then Owned(g, x) + {name} else Owned(g, y);
    }
  }

  lemma RenamedEdgesOk(g: Graph, x: EntityId, name: Label)
    requires EdgesOk(g) && UniqueEndpoints(g.edges) && OwnLinks(g.edges, g.links) && x in g.entities
    ensures var next := Renamed(g, x, name);
            EdgesOk(next) && UniqueEndpoints(next.edges) && OwnLinks(next.edges, next.links)
  {
  }

  lemma RenamedIsValid(g: Graph, x: EntityId, name: Label)
    requires Valid(g) && CanRename(g, x, name)
    ensures Valid(Renamed(g, x, name))
  {
    hide EntitiesOk, EdgesOk, UniqueEndpoints, OwnLinks, Relabelled;
    RenamedEntitiesOk(g, x, name);
    RenamedEdgesOk(g, x, name);
  }

  lemma StepIsValid(g: Graph, step: Step, next: Graph)
    requires Valid(g) && Follows(g, step, next)
    ensures Valid(next)
  {
    hide Valid, CanMerge, IsQuotient, CanRename, CanAddNode, CanAddEdge;
    match step {
      case AddNode(x, name) => NodeAddedIsValid(g, x, name);
      case AddEdge(e, source, target) => EdgeAddedIsValid(g, e, source, target);
      case RenameEntity(x, name) => RenamedIsValid(g, x, name);
      case MergeEntities(m) => QuotientIsValid(g, m, next);
      case DeleteEntity(x) => EntityDeletedIsValid(g, x);
      case DeleteRelation(a) => RelationDeletedIsValid(g, a);
    }
  }

  // ---- one step moves references with their entities ----

  predicate SameEnds(step: Step, before: Edge, after: Edge) {
    after.source == Moved(step, before.source) && after.target == Moved(step, before.target)
  }

  // The edge an id resolves to after a step, and the edge it resolved to before.
  predicate LinkMoves(g: Graph, step: Step, next: Graph, a: EdgeId)
    requires a in g.links && g.links[a] in g.edges
  {
    && a in next.links && next.links[a] in next.edges
    && SameEnds(step, g.edges[g.links[a]], next.edges[next.links[a]])
    && (g.edges[g.links[a]].tombstoned ==> next.edges[next.links[a]].tombstoned)
  }

  lemma LinksResolve(g: Graph, a: EdgeId)
    requires Valid(g) && a in g.links
    ensures g.links[a] in g.edges
  {
    hide EdgesOk, EntitiesOk, LabelsKnown, NamesUnique, UniqueEndpoints;
  }

  lemma MergeMovesLinks(g: Graph, m: Merge, next: Graph, a: EdgeId)
    requires a in g.links && g.links[a] in g.edges && (forall b :: b in g.links ==> g.links[b] in g.edges)
    requires QuotientEdges(g, m, next.edges) && QuotientLinks(g, m, next.edges, next.links)
    ensures LinkMoves(g, MergeEntities(m), next, a)
  {
    hide EdgeOk, UniqueEndpoints, Survives;
    var before, after := g.edges[g.links[a]], next.edges[next.links[a]];
    assert m.Onto(before, after);
    assert before.tombstoned ==> Tombstoned(g, m, after);
  }

  lemma StepMovesLinks(g: Graph, step: Step, next: Graph, a: EdgeId)
    requires Valid(g) && Follows(g, step, next) && a in g.links
    ensures g.links[a] in g.edges && LinkMoves(g, step, next, a)
  {
    hide Valid, CanMerge, MergedEntities, MergedLabels, QuotientEdges, QuotientLinks, CanRename, CanAddNode;
    forall b | b in g.links ensures g.links[b] in g.edges {
      LinksResolve(g, b);
    }
    if step.MergeEntities? {
      MergeMovesLinks(g, step.merge, next, a);
    }
  }

  lemma StepMovesLabels(g: Graph, step: Step, next: Graph, l: Label)
    requires Follows(g, step, next) && l in g.labels
    ensures l in next.labels && next.labels[l] == Moved(step, g.labels[l])
  {
    hide Valid, QuotientEdges, QuotientLinks, MergedEntities;
  }

  // ---- runs ----

  ghost predicate Run(states: seq<Graph>, steps: seq<Step>) {
    && |states| == |steps| + 1
    && states[0] == Graph(map[], map[], map[], map[])
    && forall i :: 0 <= i < |steps| ==> Follows(states[i], steps[i], states[i + 1])
  }

  // What became of an entity from step i to step j.
  function Representative(steps: seq<Step>, i: nat, j: nat, x: EntityId): EntityId
    requires i <= j <= |steps|
    decreases j
  {
    if i == j then x else Moved(steps[j - 1], Representative(steps, i, j - 1, x))
  }

  lemma {:induction false} ReachableValid(states: seq<Graph>, steps: seq<Step>, i: nat)
    requires Run(states, steps) && i < |states|
    ensures Valid(states[i])
  {
    if i > 0 {
      hide Follows, Valid;
      ReachableValid(states, steps, i - 1);
      StepIsValid(states[i - 1], steps[i - 1], states[i]);
    }
  }

  // Main result: a relation's id, once known, for ever resolves to the relation between what became of
  // its two entities, and a tombstone on it is never lost, through any merges, renames and deletions.
  lemma {:induction false} RelationIdsFollowTheirEntities(states: seq<Graph>, steps: seq<Step>, i: nat, j: nat, a: EdgeId)
    requires Run(states, steps) && i <= j < |states| && a in states[i].links
    ensures a in states[j].links && states[i].links[a] in states[i].edges && states[j].links[a] in states[j].edges
    ensures var before, after := states[i].edges[states[i].links[a]], states[j].edges[states[j].links[a]];
            && after.source == Representative(steps, i, j, before.source)
            && after.target == Representative(steps, i, j, before.target)
            && (before.tombstoned ==> after.tombstoned)
    decreases j
  {
    hide Follows, Valid;
    ReachableValid(states, steps, i);
    LinksResolve(states[i], a);
    if i < j {
      RelationIdsFollowTheirEntities(states, steps, i, j - 1, a);
      ReachableValid(states, steps, j - 1);
      StepMovesLinks(states[j - 1], steps[j - 1], states[j], a);
    }
  }

  // Main result: a label, once known, for ever resolves to what became of the entity it named.
  lemma {:induction false} LabelsFollowTheirEntities(states: seq<Graph>, steps: seq<Step>, i: nat, j: nat, l: Label)
    requires Run(states, steps) && i <= j < |states| && l in states[i].labels
    ensures l in states[j].labels && states[j].labels[l] == Representative(steps, i, j, states[i].labels[l])
    decreases j
  {
    hide Follows;
    if i < j {
      LabelsFollowTheirEntities(states, steps, i, j - 1, l);
      StepMovesLabels(states[j - 1], steps[j - 1], states[j], l);
    }
  }

  // ---- a merged entity is never seen again ----

  predicate Gone(g: Graph, x: EntityId) {
    && x in g.entities && g.entities[x].tombstoned
    && (forall e :: e in g.edges ==> g.edges[e].source != x && g.edges[e].target != x)
    && (forall l :: l in g.labels ==> g.labels[l] != x)
  }

  lemma UntouchedEdges(g: Graph, m: Merge, next: Graph, x: EntityId)
    requires QuotientEdges(g, m, next.edges) && x in m.sources
    ensures forall e :: e in next.edges ==> next.edges[e].source != x && next.edges[e].target != x
  {
    hide UniqueEndpoints, Tombstoned, Survives, EdgeOk;
    forall e | e in next.edges ensures next.edges[e].source != x && next.edges[e].target != x {
      assert !m.Touches(next.edges[e]);
    }
  }

  lemma MergingGone(g: Graph, step: Step, next: Graph, x: EntityId)
    requires Follows(g, step, next) && step.MergeEntities? && x in step.merge.sources
    ensures Gone(next, x)
  {
    hide Valid, QuotientEdges, QuotientLinks;
    UntouchedEdges(g, step.merge, next, x);
  }

  lemma StepKeepsGone(g: Graph, step: Step, next: Graph, x: EntityId)
    requires Follows(g, step, next) && Gone(g, x)
    ensures Gone(next, x)
  {
    hide Valid, UniqueEndpoints, Tombstoned, QuotientLinks, Survives, EdgeOk;
  }

  // Main result: once merged away an entity stays tombstoned, no relation ever touches it again and no
  // label ever resolves to it.
  lemma {:induction false} MergedAwayForEver(states: seq<Graph>, steps: seq<Step>, i: nat, j: nat, x: EntityId)
    requires Run(states, steps) && i < j < |states| && steps[i].MergeEntities? && x in steps[i].merge.sources
    ensures Gone(states[j], x)
    decreases j
  {
    hide Gone, Valid, Follows, CanMerge, IsQuotient;
    ReachableValid(states, steps, i);
    assert Follows(states[i], steps[i], states[i + 1]);
    if j == i + 1 {
      MergingGone(states[i], steps[i], states[j], x);
    } else {
      MergedAwayForEver(states, steps, i, j - 1, x);
      StepKeepsGone(states[j - 1], steps[j - 1], states[j], x);
    }
  }

  // ---- a deletion is never undone ----

  predicate Dead(g: Graph, x: EntityId) {
    x in g.entities && g.entities[x].tombstoned
  }

  // The step works on this entity as a live one.
  predicate Uses(step: Step, x: EntityId) {
    match step
    case AddEdge(_, source, target) => x == source || x == target
    case RenameEntity(y, _) => x == y
    case MergeEntities(m) => x in m.sources || x == m.target
    case _ => false
  }

  lemma StepKeepsDead(g: Graph, step: Step, next: Graph, x: EntityId)
    requires Follows(g, step, next) && Dead(g, x)
    ensures Dead(next, x) && !Uses(step, x)
  {
    hide Valid, QuotientEdges, QuotientLinks;
  }

  lemma DeletingBuries(g: Graph, step: Step, next: Graph)
    requires Follows(g, step, next)
    ensures step.DeleteEntity? ==> Dead(next, step.deleted)
    ensures step.DeleteRelation? ==>
              step.link in next.links && next.links[step.link] in next.edges && next.edges[next.links[step.link]].tombstoned
  {
    hide Valid, QuotientEdges, QuotientLinks;
  }

  // Main result: a deleted entity stays tombstoned for ever, and no relation is added to it, no other name given
  // to it and nothing merged with it again.
  lemma {:induction false} DeletedForEver(states: seq<Graph>, steps: seq<Step>, i: nat, j: nat, x: EntityId)
    requires Run(states, steps) && i < j < |states| && steps[i] == DeleteEntity(x)
    ensures Dead(states[j], x)
    ensures j < |steps| ==> !Uses(steps[j], x)
    decreases j
  {
    hide Follows, Dead, Uses;
    if j == i + 1 {
      assert Follows(states[i], steps[i], states[j]);
      DeletingBuries(states[i], steps[i], states[j]);
    } else {
      DeletedForEver(states, steps, i, j - 1, x);
      assert Follows(states[j - 1], steps[j - 1], states[j]);
      StepKeepsDead(states[j - 1], steps[j - 1], states[j], x);
    }
    if j < |steps| {
      assert Follows(states[j], steps[j], states[j + 1]);
      StepKeepsDead(states[j], steps[j], states[j + 1], x);
    }
  }

  // Main result: whatever an id of a deleted relation resolves to later is tombstoned.
  lemma DeletedRelationsStayDeleted(states: seq<Graph>, steps: seq<Step>, i: nat, j: nat, a: EdgeId)
    requires Run(states, steps) && i < j < |states| && steps[i] == DeleteRelation(a)
    ensures a in states[j].links && states[j].links[a] in states[j].edges && states[j].edges[states[j].links[a]].tombstoned
  {
    hide Follows;
    assert Follows(states[i], steps[i], states[i + 1]);
    DeletingBuries(states[i], steps[i], states[i + 1]);
    RelationIdsFollowTheirEntities(states, steps, i + 1, j, a);
  }

  // Renaming an entity to the name of one merged into it passes the alias check but meets the
  // unique constraint on names, which merged rows still hold.
  lemma MergedNamesStayTaken(g: Graph, m: Merge, next: Graph, x: EntityId)
    requires Valid(g) && CanMerge(g, m) && IsQuotient(g, m, next) && x in m.sources
    ensures var name := g.entities[x].name;
            && name in next.labels && next.labels[name] == m.target
            && !CanRename(next, m.target, name)
  {
    hide EdgesOk, UniqueEndpoints, OwnLinks, NamesUnique, LabelsKnown, QuotientEdges, QuotientLinks;
    OneEntityOk(g, x);
    assert g.entities[x].name in Owned(g, x);
    assert next.entities[x].name == g.entities[x].name;
  }
}
