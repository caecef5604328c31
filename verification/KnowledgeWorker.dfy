// The worker's own loops: choosing the versions a rebuild keeps and making the engine calls of a job.

module KnowledgeWorker {
  import opened Options
  import opened KnowledgeRepository
  import opened KnowledgeProtocol
  import I = KnowledgeIndex

  // The versions of one document, newest last, that are pending.
  method PendingOf(kb: KnowledgeBase, versions: seq<VersionId>) returns (last: Option<VersionId>)
    requires forall v :: v in versions ==> v in kb.versions
    ensures last == LastPending(kb, versions)
  {
    last := None;
    for i := 0 to |versions|
      invariant last == LastPending(kb, versions[..i])
    {
      assert versions[..i + 1][..i] == versions[..i];
      if kb.versions[versions[i]].status.VersionPending? {
        last := Some(versions[i]);
      }
    }
    assert versions[..|versions|] == versions;
  }

  method Choose(kb: KnowledgeBase, d: DocId, versions: seq<VersionId>) returns (chosen: VersionId)
    requires d in kb.documents && versions == VersionsOf(kb, kb.order, d) && versions != []
    requires forall v :: v in versions ==> v in kb.versions
    ensures chosen == Chosen(kb, d)
  {
    var pending := PendingOf(kb, versions);
    if pending.Some? {
      return pending.value;
    }
    for i := 0 to |versions|
      invariant kb.documents[d].current.Some? ==> kb.documents[d].current.value !in versions[..i]
    {
      if kb.documents[d].current == Some(versions[i]) {
        return versions[i];
      }
    }
    return versions[|versions| - 1];
  }

  predicate Joined(kb: KnowledgeBase) {
    forall v :: v in kb.order ==> v in kb.versions && kb.versions[v].document in kb.documents
  }

  lemma {:induction false} OwnVersions(kb: KnowledgeBase, order: seq<VersionId>, d: DocId)
    ensures forall v :: v in VersionsOf(kb, order, d) ==> v in kb.versions && kb.versions[v].document == d
  {
    if order != [] {
      OwnVersions(kb, order[..|order| - 1], d);
    }
  }

  // A row is active when it is the version selected of its own document.
  predicate KeptRow(kb: KnowledgeBase, selected: map<DocId, VersionId>, v: VersionId) {
    v in kb.versions && kb.versions[v].document in selected && selected[kb.versions[v].document] == v
  }

  // The version an operation is about to make current belongs to its document.
  predicate OwnTarget(kb: KnowledgeBase, op: Operation) {
    op.Replace? ==> op.version in kb.versions && kb.versions[op.version].document == op.document
  }

  lemma {:induction false} PendingWithin(kb: KnowledgeBase, vs: seq<VersionId>)
    ensures LastPending(kb, vs).Some? ==> LastPending(kb, vs).value in vs
  {
    if vs != [] {
      PendingWithin(kb, vs[..|vs| - 1]);
    }
  }

  // Asking each row about its own document keeps exactly the versions selected.
  lemma KeptIsSelected(kb: KnowledgeBase, op: Operation, v: VersionId)
    requires v in kb.versions && OwnTarget(kb, op)
    ensures KeptRow(kb, SelectedFor(kb, op), v) <==> v in SelectedFor(kb, op).Values
  {
    forall d | d in Selected(kb) ensures Selected(kb)[d] in kb.versions && kb.versions[Selected(kb)[d]].document == d {
      OwnVersions(kb, kb.order, d);
      PendingWithin(kb, VersionsOf(kb, kb.order, d));
    }
  }

  ghost predicate Groups(kb: KnowledgeBase, order: seq<VersionId>, byDocument: map<DocId, seq<VersionId>>) {
    && (forall d :: d in byDocument <==> VersionsOf(kb, order, d) != [])
    && (forall d :: d in byDocument ==> d in kb.documents && byDocument[d] == VersionsOf(kb, order, d))
  }

  lemma NothingGrouped(kb: KnowledgeBase)
    ensures Groups(kb, kb.order[..0], map[])
  {
  }

  lemma VersionsOfStep(kb: KnowledgeBase, i: nat, d: DocId)
    requires i < |kb.order| && kb.order[i] in kb.versions
    ensures VersionsOf(kb, kb.order[..i + 1], d) ==
              VersionsOf(kb, kb.order[..i], d) + if kb.versions[kb.order[i]].document == d then [kb.order[i]] else []
  {
    assert kb.order[..i + 1][..i] == kb.order[..i];
  }

  lemma GroupStep(kb: KnowledgeBase, i: nat, byDocument: map<DocId, seq<VersionId>>)
    requires Joined(kb) && i < |kb.order| && Groups(kb, kb.order[..i], byDocument)
    ensures kb.order[i] in kb.versions && kb.versions[kb.order[i]].document in kb.documents
    ensures var v := kb.order[i];
            var d := kb.versions[v].document;
            Groups(kb, kb.order[..i + 1], byDocument[d := (if d in byDocument then byDocument[d] else []) + [v]])
  {
    hide VersionsOf;
    forall d: DocId
      ensures VersionsOf(kb, kb.order[..i + 1], d) ==
                VersionsOf(kb, kb.order[..i], d) + if kb.versions[kb.order[i]].document == d then [kb.order[i]] else []
    {
      VersionsOfStep(kb, i, d);
    }
  }

  function Among(order: seq<VersionId>, kept: set<VersionId>): set<VersionId> {
    set v | v in order && v in kept
  }

  lemma AmongStep(order: seq<VersionId>, i: nat, kept: set<VersionId>)
    requires i < |order|
    ensures Among(order[..i + 1], kept) == Among(order[..i], kept) + if order[i] in kept then {order[i]} else {}
  {
    assert order[..i + 1] == order[..i] + [order[i]];
  }

  // The version an operation first asks the engine to remove.
  function Removes(op: Operation): Option<VersionId> {
    match op
    case Replace(_, _, previous) => previous
    case DeleteDocument(_, current) => current
    case _ => None
  }

  class WriteWorker {
    // What the engine holds for the workspace of the job at hand.
    var index: set<VersionId>

    constructor (held: set<VersionId>)
      ensures index == held
    {
      index := held;
    }

    // Group the rows by document, in creation order.
    method ByDocument(kb: KnowledgeBase) returns (byDocument: map<DocId, seq<VersionId>>)
      requires Joined(kb)
      ensures Groups(kb, kb.order, byDocument)
    {
      hide Groups;
      byDocument := map[];
      NothingGrouped(kb);
      for i := 0 to |kb.order|
        invariant Groups(kb, kb.order[..i], byDocument)
      {
        GroupStep(kb, i, byDocument);
        var v := kb.order[i];
        var d := kb.versions[v].document;
        byDocument := byDocument[d := (if d in byDocument then byDocument[d] else []) + [v]];
      }
      assert kb.order[..|kb.order|] == kb.order;
    }

    // The version kept of each document that is not deleted.
    method SelectAll(kb: KnowledgeBase, byDocument: map<DocId, seq<VersionId>>) returns (selected: map<DocId, VersionId>)
      requires Joined(kb) && Groups(kb, kb.order, byDocument)
      ensures selected == Selected(kb)
    {
      hide Chosen, VersionsOf;
      selected := map[];
      var todo := byDocument.Keys;
      while todo != {}
        invariant todo <= byDocument.Keys
        invariant forall d :: d in selected <==> d in byDocument && d !in todo && !kb.documents[d].status.DocDeleted?
        invariant forall d :: d in selected ==> selected[d] == Chosen(kb, d)
        decreases |todo|
      {
        var d :| d in todo;
        todo := todo - {d};
        if !kb.documents[d].status.DocDeleted? {
          OwnVersions(kb, kb.order, d);
          var chosen := Choose(kb, d, byDocument[d]);
          selected := selected[d := chosen];
        }
      }
      assert selected == Selected(kb);
    }

    // _rebuild_inputs: the versions selected, and which rows are active.
    method RebuildInputs(kb: KnowledgeBase, op: Operation) returns (selected: map<DocId, VersionId>, active: seq<bool>)
      requires Joined(kb)
      ensures selected == SelectedFor(kb, op)
      ensures |active| == |kb.order| && forall i :: 0 <= i < |active| ==> (active[i] <==> KeptRow(kb, selected, kb.order[i]))
    {
      hide Selected, Groups, KeptRow;
      var byDocument := ByDocument(kb);
      selected := SelectAll(kb, byDocument);
      match op {
        case DeleteDocument(d, _) => selected := selected - {d};
        case Replace(d, v, _) => selected := selected[d := v];
        case _ =>
      }
      active := MarkActive(kb, selected);
    }

    method MarkActive(kb: KnowledgeBase, selected: map<DocId, VersionId>) returns (active: seq<bool>)
      ensures |active| == |kb.order| && forall i :: 0 <= i < |active| ==> (active[i] <==> KeptRow(kb, selected, kb.order[i]))
    {
      active := [];
      for i := 0 to |kb.order|
        invariant |active| == i && forall n :: 0 <= n < i ==> (active[n] <==> KeptRow(kb, selected, kb.order[n]))
      {
        active := active + [KeptRow(kb, selected, kb.order[i])];
      }
    }

    // The engine's rebuild: clear the workspace, then insert the active rows one by one.
    method Rebuild(kb: KnowledgeBase, op: Operation) returns (selected: map<DocId, VersionId>)
      requires Joined(kb) && OwnTarget(kb, op)
      modifies this
      ensures selected == SelectedFor(kb, op)
      ensures index == set v | v in kb.order && v in selected.Values
    {
      var active;
      selected, active := RebuildInputs(kb, op);
      hide SelectedFor, KeptRow;
      index := {};
      for i := 0 to |kb.order|
        invariant index == Among(kb.order[..i], selected.Values)
      {
        KeptIsSelected(kb, op, kb.order[i]);
        AmongStep(kb.order, i, selected.Values);
        if active[i] {
          index := index + {kb.order[i]};
        }
      }
      assert kb.order[..|kb.order|] == kb.order;
    }

    // _execute, when no call fails: `identity` says a rename or a merge was recorded, `refused` that the
    // engine would refuse to remove a single document. A rebuild reports its selection.
    method Execute(kb: KnowledgeBase, op: Operation, identity: bool, refused: bool) returns (settles: Operation)
      requires Joined(kb) && OwnTarget(kb, op)
      modifies this
      ensures settles == Started(kb, op)
      ensures op.DeleteKnowledgeBase? ==> index == {}
      ensures refused && !identity && Removes(op).Some? ==> index == Outcome(old(index), RebuildPlan(kb, SelectedFor(kb, op)))
      ensures !(refused && !identity && Removes(op).Some?) ==> index == Outcome(old(index), PlanFor(kb, settles, identity))
    {
      settles := op;
      match op {
        case Ingest(_, v) =>
          I.OneCall(index, Insert(v));
          index := index + {v};
        case Replace(_, v, previous) =>
          I.RebuildOutcome(kb, index, SelectedFor(kb, op));
          if identity || (refused && Removes(op).Some?) {
            var _ := Rebuild(kb, op);
          } else {
            I.OneCall(index, Insert(v));
            assert [] + [Insert(v)] == [Insert(v)];
            if previous.Some? {
              I.TwoCalls(index, Remove(previous.value), Insert(v));
              index := index - {previous.value};
            }
            index := index + {v};
          }
        case DeleteDocument(_, current) =>
          I.RebuildOutcome(kb, index, SelectedFor(kb, op));
          if identity || (refused && current.Some?) {
            var _ := Rebuild(kb, op);
          } else if current.Some? {
            I.OneCall(index, Remove(current.value));
            index := index - {current.value};
          }
        case Rebuild(_) =>
          I.RebuildOutcome(kb, index, Selected(kb));
          var selected := Rebuild(kb, op);
          settles := Operation.Rebuild(selected);
        case DeleteKnowledgeBase =>
          I.OneCall(index, Clear);
          index := {};
        case _ =>
      }
    }
  }
}
