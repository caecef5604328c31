// The external index against the rows: when documents, versions and index agree, and what opening,
// executing and settling one job does to their agreement.

module KnowledgeIndex {
  import opened Options
  import opened KnowledgeRepository
  import opened KnowledgeProtocol

  // ---- the rows ----

  function ActiveSet(kb: KnowledgeBase): set<VersionId> {
    set v | v in kb.versions && kb.versions[v].status.VersionActive?
  }

  predicate Owns(kb: KnowledgeBase, d: DocId, v: VersionId) {
    v in kb.versions && kb.versions[v].document == d
  }

  ghost predicate HasVersion(kb: KnowledgeBase, d: DocId) {
    exists v :: Owns(kb, d, v)
  }

  // What holds in every status: `order` lists the versions, and documents and versions refer to each other.
  ghost predicate WellFormed(kb: KnowledgeBase) {
    && (forall v :: v in kb.order <==> v in kb.versions)
    && (forall v :: v in kb.versions ==> kb.versions[v].document in kb.documents)
    && (forall d :: d in kb.documents && !kb.documents[d].status.DocDeleted? ==> HasVersion(kb, d))
  }

  predicate IsCurrent(kb: KnowledgeBase, d: DocId, v: VersionId) {
    d in kb.documents && kb.documents[d] == Document(DocActive, Some(v))
  }

  // The document has a current version, which is active.
  predicate HasCurrent(kb: KnowledgeBase, d: DocId)
    requires d in kb.documents
  {
    kb.documents[d].current.Some? && var v := kb.documents[d].current.value;
    v in kb.versions && kb.versions[v] == Version(d, VersionActive)
  }

  // Apart from one document and some versions, documents and versions agree and nothing is pending.
  predicate AgreeApart(kb: KnowledgeBase, document: Option<DocId>, written: set<VersionId>) {
    && (forall v :: v in kb.versions && v !in written ==>
          && !kb.versions[v].status.VersionPending?
          && (kb.versions[v].status.VersionActive? ==> document != Some(kb.versions[v].document) && IsCurrent(kb, kb.versions[v].document, v)))
    && (forall d :: d in kb.documents && document != Some(d) ==>
          && !kb.documents[d].status.DocPending?
          && (kb.documents[d].status.DocActive? ==> HasCurrent(kb, d)))
  }

  predicate InAgreement(kb: KnowledgeBase) {
    AgreeApart(kb, None, {})
  }

  predicate Agrees(b: Base) {
    InAgreement(b.kb) && b.index == ActiveSet(b.kb)
  }

  // ---- what an operation writes when it is settled ----

  function Subject(op: Operation): Option<DocId> {
    match op
    case Ingest(d, _) => Some(d)
    case Replace(d, _, _) => Some(d)
    case Reuse(d, _) => Some(d)
    case DeleteDocument(d, _) => Some(d)
    case _ => None
  }

  function Written(op: Operation): set<VersionId> {
    match op
    case Ingest(_, v) => {v}
    case Replace(_, v, previous) => {v} + if previous.Some? then {previous.value} else {}
    case Reuse(_, v) => {v}
    case DeleteDocument(_, current) => if current.Some? then {current.value} else {}
    case _ => {}
  }

  function Activated(op: Operation): set<VersionId> {
    match op
    case Ingest(_, v) => {v}
    case Replace(_, v, _) => {v}
    case Reuse(_, v) => {v}
    case _ => {}
  }

  // The rows an operation names are there.
  predicate Fits(kb: KnowledgeBase, op: Operation) {
    && (op.Replace? ==> op.previous != Some(op.version))
    && (Subject(op).Some? ==> Subject(op).value in kb.documents && forall v :: v in Written(op) ==> Owns(kb, Subject(op).value, v))
  }

  // The rows an operation may be settled on.
  predicate Prepared(kb: KnowledgeBase, op: Operation) {
    match op
    case Rebuild(selected) => selected == Selected(kb)
    case DeleteKnowledgeBase => true
    case _ => CanSettle(op) ==> Fits(kb, op) && AgreeApart(kb, Subject(op), Written(op))
  }

  // The index holds what it should of the versions an operation does not write.
  predicate IndexApart(b: Base, op: Operation) {
    b.index - Written(op) == ActiveSet(b.kb) - Written(op) && (op.Reuse? ==> op.version in b.index)
  }

  // A queued job: only a rebuild, the deletion of the base and a job that cannot be settled do without
  // prepared rows and an index in step.
  predicate Waiting(b: Base, op: Operation) {
    op.Rebuild? || op.DeleteKnowledgeBase? || !CanSettle(op) || (Prepared(b.kb, op) && IndexApart(b, op))
  }

  // A job under way: its remaining calls bring the index to what settling it makes active; those of the
  // deletion of the base empty it.
  predicate UnderWay(b: Base, op: Operation, plan: seq<EngineCall>) {
    && Prepared(b.kb, op)
    && (if op.DeleteKnowledgeBase? then Outcome(b.index, plan) == {}
        else !CanSettle(op) || Outcome(b.index, plan) == ActiveSet(Settled(b.kb, op)))
  }

  // ---- what a rebuild selects ----

  lemma {:induction false} VersionsOfMeaning(kb: KnowledgeBase, order: seq<VersionId>, d: DocId, v: VersionId)
    ensures v in VersionsOf(kb, order, d) <==> v in order && Owns(kb, d, v)
  {
    if order != [] {
      VersionsOfMeaning(kb, order[..|order| - 1], d, v);
      assert order == order[..|order| - 1] + [order[|order| - 1]];
    }
  }

  lemma {:induction false} LastPendingMeaning(kb: KnowledgeBase, vs: seq<VersionId>)
    ensures match LastPending(kb, vs)
            case Some(v) => v in vs && v in kb.versions && kb.versions[v].status.VersionPending?
            case None => forall v :: v in vs && v in kb.versions ==> !kb.versions[v].status.VersionPending?
  {
    if vs != [] {
      LastPendingMeaning(kb, vs[..|vs| - 1]);
      assert vs == vs[..|vs| - 1] + [vs[|vs| - 1]];
    }
  }

  predicate Pending(kb: KnowledgeBase, d: DocId, v: VersionId) {
    Owns(kb, d, v) && kb.versions[v].status.VersionPending?
  }

  ghost predicate HasPending(kb: KnowledgeBase, d: DocId) {
    exists v :: Pending(kb, d, v)
  }

  // No version of the document that is pending was created after this one.
  ghost predicate NewestPending(kb: KnowledgeBase, order: seq<VersionId>, d: DocId, v: VersionId) {
    exists i :: 0 <= i < |order| && order[i] == v && Pending(kb, d, v) && forall j :: i < j < |order| ==> !Pending(kb, d, order[j])
  }

  ghost predicate NewestOwn(kb: KnowledgeBase, order: seq<VersionId>, d: DocId, v: VersionId) {
    exists i :: 0 <= i < |order| && order[i] == v && Owns(kb, d, v) && forall j :: i < j < |order| ==> !Owns(kb, d, order[j])
  }

  lemma {:induction false} LastPendingIsNewest(kb: KnowledgeBase, order: seq<VersionId>, d: DocId)
    ensures var last := LastPending(kb, VersionsOf(kb, order, d));
            last.Some? ==> NewestPending(kb, order, d, last.value)
  {
    hide Pending, Owns;
    if order != [] {
      var front, v := order[..|order| - 1], order[|order| - 1];
      LastPendingIsNewest(kb, front, d);
      AppendVersion(kb, order, d);
      var last := LastPending(kb, VersionsOf(kb, order, d));
      if Pending(kb, d, v) {
        assert order[|order| - 1] == v;
      } else if last.Some? {
        var i :| 0 <= i < |front| && front[i] == last.value && Pending(kb, d, last.value) && forall j :: i < j < |front| ==> !Pending(kb, d, front[j]);
        assert forall j :: i < j < |order| ==> j == |front| || order[j] == front[j];
        assert order[i] == last.value;
      }
    }
  }

  lemma AppendVersion(kb: KnowledgeBase, order: seq<VersionId>, d: DocId)
    requires order != []
    ensures var front, v := order[..|order| - 1], order[|order| - 1];
            LastPending(kb, VersionsOf(kb, order, d)) == if Pending(kb, d, v) then Some(v) else LastPending(kb, VersionsOf(kb, front, d))
  {
    var before, v := VersionsOf(kb, order[..|order| - 1], d), order[|order| - 1];
    if Owns(kb, d, v) {
      assert (before + [v])[..|before + [v]| - 1] == before;
    } else {
      assert before + [] == before;
    }
  }

  lemma {:induction false} LastIsNewest(kb: KnowledgeBase, order: seq<VersionId>, d: DocId)
    ensures var vs := VersionsOf(kb, order, d); vs != [] ==> NewestOwn(kb, order, d, vs[|vs| - 1])
  {
    var vs := VersionsOf(kb, order, d);
    if order != [] {
      var front, v := order[..|order| - 1], order[|order| - 1];
      LastIsNewest(kb, front, d);
      if Owns(kb, d, v) {
        assert vs[|vs| - 1] == v && order[|order| - 1] == v;
      } else if vs != [] {
        assert vs == VersionsOf(kb, front, d);
        var i :| 0 <= i < |front| && front[i] == vs[|vs| - 1] && Owns(kb, d, front[i]) && forall j :: i < j < |front| ==> !Owns(kb, d, front[j]);
        assert forall j :: i < j < |order| ==> j == |front| || order[j] == front[j];
        assert order[i] == vs[|vs| - 1];
      }
    }
  }

  lemma ChosenMeaning(kb: KnowledgeBase, d: DocId)
    requires WellFormed(kb) && d in kb.documents && VersionsOf(kb, kb.order, d) != []
    ensures var chosen := Chosen(kb, d);
            && Owns(kb, d, chosen)
            && (HasPending(kb, d) ==> Pending(kb, d, chosen) && NewestPending(kb, kb.order, d, chosen))
            && (!HasPending(kb, d) ==>
                  if kb.documents[d].current.Some? && Owns(kb, d, kb.documents[d].current.value) then chosen == kb.documents[d].current.value
                  else NewestOwn(kb, kb.order, d, chosen))
  {
    hide VersionsOf, LastPending, NewestPending, NewestOwn;
    LastPendingIsNewest(kb, kb.order, d);
    LastIsNewest(kb, kb.order, d);
    var vs := VersionsOf(kb, kb.order, d);
    forall v ensures v in vs <==> Owns(kb, d, v) {
      VersionsOfMeaning(kb, kb.order, d, v);
    }
    LastPendingMeaning(kb, vs);
    assert vs[|vs| - 1] in vs;
    var pending := LastPending(kb, vs);
    if pending.Some? {
      assert Pending(kb, d, pending.value);
    }
  }

  // A rebuild selects a version of every document that is not deleted: the newest pending one if there is
  // one, otherwise the current one if the document has one, and otherwise its newest.
  lemma SelectedMeaning(kb: KnowledgeBase, d: DocId)
    requires WellFormed(kb)
    ensures d in Selected(kb) <==> d in kb.documents && !kb.documents[d].status.DocDeleted?
    ensures d in Selected(kb) ==>
              var chosen := Selected(kb)[d];
              && Owns(kb, d, chosen)
              && (HasPending(kb, d) ==> Pending(kb, d, chosen) && NewestPending(kb, kb.order, d, chosen))
              && (!HasPending(kb, d) ==>
                    if kb.documents[d].current.Some? && Owns(kb, d, kb.documents[d].current.value) then chosen == kb.documents[d].current.value
                    else NewestOwn(kb, kb.order, d, chosen))
  {
    hide VersionsOf, Chosen, Pending, HasPending, NewestPending, NewestOwn;
    if d in kb.documents && !kb.documents[d].status.DocDeleted? {
      assert HasVersion(kb, d);
      var v :| Owns(kb, d, v);
      VersionsOfMeaning(kb, kb.order, d, v);
      ChosenMeaning(kb, d);
    }
  }

  // ---- the effect of a rebuild on the index ----

  lemma {:induction false} OutcomeOfSum(index: set<VersionId>, left: seq<EngineCall>, right: seq<EngineCall>)
    ensures Outcome(index, left + right) == Outcome(Outcome(index, left), right)
    decreases |left|
  {
    if left == [] {
      assert left + right == right;
    } else {
      assert (left + right)[1..] == left[1..] + right;
      OutcomeOfSum(Effect(index, left[0]), left[1..], right);
    }
  }

  lemma {:induction false} InsertingAll(index: set<VersionId>, order: seq<VersionId>, active: set<VersionId>)
    ensures Outcome(index, InsertAll(order, active)) == index + set v | v in order && v in active
  {
    if order != [] {
      var last := order[|order| - 1];
      var before := InsertAll(order[..|order| - 1], active);
      InsertingAll(index, order[..|order| - 1], active);
      assert order == order[..|order| - 1] + [last];
      if last in active {
        OutcomeOfSum(index, before, [Insert(last)]);
        assert Outcome(Outcome(index, before), [Insert(last)]) == Outcome(index, before) + {last};
      } else {
        assert before + [] == before;
      }
    }
  }

  lemma RebuildOutcome(kb: KnowledgeBase, index: set<VersionId>, selected: map<DocId, VersionId>)
    ensures Outcome(index, RebuildPlan(kb, selected)) == set v | v in kb.order && v in selected.Values
    ensures Outcome(index, RebuildPlan(kb, selected) + [Pin]) == set v | v in kb.order && v in selected.Values
  {
    var inserts := InsertAll(kb.order, selected.Values);
    assert ([Clear] + inserts)[1..] == inserts;
    InsertingAll({}, kb.order, selected.Values);
    OutcomeOfSum(index, RebuildPlan(kb, selected), [Pin]);
    OneCall(Outcome(index, RebuildPlan(kb, selected)), Pin);
  }

  // Whatever a failed or crashed job left behind, a rebuild makes the index hold exactly its selection.
  lemma RebuildReachesSelection(kb: KnowledgeBase, index: set<VersionId>, selected: map<DocId, VersionId>)
    requires WellFormed(kb) && forall d :: d in selected ==> selected[d] in kb.versions
    ensures Outcome(index, RebuildPlan(kb, selected)) == selected.Values
    ensures Outcome(index, RebuildPlan(kb, selected) + [Pin]) == selected.Values
  {
    hide RebuildPlan, Outcome;
    RebuildOutcome(kb, index, selected);
    assert (set v | v in kb.order && v in selected.Values) == selected.Values;
  }

  // ---- opening, settling and rebuilding keep documents and versions in agreement ----

  lemma SettingUpIngest(kb: KnowledgeBase, d: DocId, v: VersionId)
    requires WellFormed(kb) && InAgreement(kb) && CanSetUp(kb, Ingest(d, v))
    ensures Prepared(SetUp(kb, Ingest(d, v)), Ingest(d, v)) && ActiveSet(SetUp(kb, Ingest(d, v))) == ActiveSet(kb)
  {
  }

  lemma SettingUpReplace(kb: KnowledgeBase, d: DocId, v: VersionId, previous: Option<VersionId>)
    requires WellFormed(kb) && InAgreement(kb) && CanSetUp(kb, Replace(d, v, previous))
    ensures Prepared(SetUp(kb, Replace(d, v, previous)), Replace(d, v, previous))
    ensures ActiveSet(SetUp(kb, Replace(d, v, previous))) == ActiveSet(kb)
  {
    assert HasCurrent(kb, d);
  }

  lemma SettingUpDelete(kb: KnowledgeBase, d: DocId, current: Option<VersionId>)
    requires InAgreement(kb) && CanSetUp(kb, DeleteDocument(d, current))
    ensures current.Some? && Prepared(kb, DeleteDocument(d, current))
  {
    assert HasCurrent(kb, d);
  }

  lemma SettingUpReuse(kb: KnowledgeBase, d: DocId, v: VersionId)
    requires InAgreement(kb) && IsCurrent(kb, d, v)
    ensures Prepared(kb, Reuse(d, v)) && v in ActiveSet(kb)
  {
    assert HasCurrent(kb, d);
  }

  // Opening a job on a base in agreement; a deletion finds a current version there.
  lemma SettingUpPrepares(b: Base, op: Operation)
    requires WellFormed(b.kb) && Agrees(b) && CanSetUp(b.kb, op)
    requires op.Reuse? ==> IsCurrent(b.kb, op.document, op.version)
    ensures Waiting(b.(kb := SetUp(b.kb, op)), op) && CanSettle(op)
  {
    hide WellFormed, ActiveSet, InAgreement, Fits;
    match op {
      case Ingest(d, v) => SettingUpIngest(b.kb, d, v);
      case Replace(d, v, previous) => SettingUpReplace(b.kb, d, v, previous);
      case DeleteDocument(d, current) => SettingUpDelete(b.kb, d, current);
      case Reuse(d, v) => SettingUpReuse(b.kb, d, v);
      case Correction => CorrectionFits(b.kb);
      case _ =>
    }
  }

  lemma CorrectionFits(kb: KnowledgeBase)
    requires InAgreement(kb)
    ensures Prepared(kb, Correction)
  {
  }

  lemma SettingUpKeepsForm(kb: KnowledgeBase, op: Operation)
    requires WellFormed(kb) && CanSetUp(kb, op)
    ensures WellFormed(SetUp(kb, op))
  {
    var after := SetUp(kb, op);
    forall d | d in after.documents && !after.documents[d].status.DocDeleted? ensures HasVersion(after, d) {
      if op.Ingest? && d == op.document {
        assert Owns(after, d, op.version);
      } else {
        var v :| Owns(kb, d, v);
        assert Owns(after, d, v);
      }
    }
  }

  lemma SettlingKeepsForm(kb: KnowledgeBase, op: Operation)
    requires WellFormed(kb) && Prepared(kb, op)
    ensures WellFormed(Settled(kb, op))
  {
    hide Selected, AgreeApart;
    var after := Settled(kb, op);
    forall d, v | Owns(kb, d, v) ensures Owns(after, d, v) {
    }
    forall d | d in after.documents && !after.documents[d].status.DocDeleted? ensures HasVersion(after, d) {
      if kb.documents[d].status.DocDeleted? {
        RevivedHasVersion(kb, op, d);
      }
      assert HasVersion(kb, d);
      var v :| Owns(kb, d, v);
      assert Owns(after, d, v);
    }
  }

  // Only the document an operation names can come back from deletion, and it has the version named.
  lemma RevivedHasVersion(kb: KnowledgeBase, op: Operation, d: DocId)
    requires WellFormed(kb) && Prepared(kb, op)
    requires d in kb.documents && kb.documents[d].status.DocDeleted? && !Settled(kb, op).documents[d].status.DocDeleted?
    ensures HasVersion(kb, d)
  {
    hide Selected, AgreeApart;
    SelectedMeaning(kb, d);
    if op.Ingest? || op.Replace? || op.Reuse? {
      assert op.version in Written(op);
      assert Owns(kb, d, op.version);
    }
  }

  lemma RebuildingAgrees(kb: KnowledgeBase)
    requires WellFormed(kb)
    ensures InAgreement(Settled(kb, Rebuild(Selected(kb))))
    ensures ActiveSet(Settled(kb, Rebuild(Selected(kb)))) == Selected(kb).Values
  {
    hide Selected, HasPending, InAgreement, ActiveSet, Settled;
    var selected := Selected(kb);
    forall d: DocId ensures d in selected <==> d in kb.documents && !kb.documents[d].status.DocDeleted? {
      SelectedMeaning(kb, d);
    }
    forall d | d in selected ensures Owns(kb, d, selected[d]) {
      SelectedMeaning(kb, d);
    }
    RebuiltAgrees(kb, selected);
  }

  lemma RebuiltAgrees(kb: KnowledgeBase, selected: map<DocId, VersionId>)
    requires forall d :: d in selected <==> d in kb.documents && !kb.documents[d].status.DocDeleted?
    requires forall d :: d in selected ==> Owns(kb, d, selected[d])
    ensures InAgreement(Settled(kb, Rebuild(selected)))
    ensures ActiveSet(Settled(kb, Rebuild(selected))) == selected.Values
  {
    var after := Settled(kb, Rebuild(selected));
    forall v | v in selected.Values ensures v in after.versions && IsCurrent(after, after.versions[v].document, v) {
      var d :| d in selected && selected[d] == v;
      assert Owns(kb, d, v);
    }
  }

  lemma SettledActive(kb: KnowledgeBase, op: Operation)
    requires Fits(kb, op) && CanSettle(op) && !op.Rebuild? && !op.DeleteKnowledgeBase?
    ensures ActiveSet(Settled(kb, op)) == ActiveSet(kb) - Written(op) + Activated(op)
  {
    assert forall v :: v in Written(op) ==> v in kb.versions;
  }

  // What settling leaves as it was, and that what it writes belongs to its document.
  predicate KeepsApart(kb: KnowledgeBase, after: KnowledgeBase, op: Operation) {
    && after.versions.Keys == kb.versions.Keys && after.documents.Keys == kb.documents.Keys
    && (forall v :: v in kb.versions && v !in Written(op) ==> after.versions[v] == kb.versions[v])
    && (forall d :: d in kb.documents && Subject(op) != Some(d) ==> after.documents[d] == kb.documents[d])
    && (forall v :: v in Written(op) ==>
          v in kb.versions && Subject(op) == Some(kb.versions[v].document) && after.versions[v].document == kb.versions[v].document)
  }

  // What it writes is in agreement by itself.
  predicate WritesWell(after: KnowledgeBase, op: Operation) {
    && (forall v :: v in Written(op) ==>
          && v in after.versions && !after.versions[v].status.VersionPending?
          && (after.versions[v].status.VersionActive? ==> IsCurrent(after, after.versions[v].document, v)))
    && (Subject(op).Some? && Subject(op).value in after.documents ==>
          var d := Subject(op).value;
          && !after.documents[d].status.DocPending?
          && (after.documents[d].status.DocActive? ==> HasCurrent(after, d) && after.documents[d].current.value in Written(op)))
  }

  lemma SettledApart(kb: KnowledgeBase, op: Operation)
    requires Fits(kb, op) && CanSettle(op) && !op.Rebuild? && !op.DeleteKnowledgeBase?
    ensures KeepsApart(kb, Settled(kb, op), op) && WritesWell(Settled(kb, op), op)
  {
    assert forall v :: v in Written(op) ==> Owns(kb, Subject(op).value, v);
  }

  lemma ApartAgrees(kb: KnowledgeBase, after: KnowledgeBase, op: Operation)
    requires KeepsApart(kb, after, op) && WritesWell(after, op) && AgreeApart(kb, Subject(op), Written(op))
    ensures InAgreement(after)
  {
    forall d | d in after.documents && after.documents[d].status.DocActive? ensures HasCurrent(after, d) {
      if Subject(op) != Some(d) {
        assert HasCurrent(kb, d);
      }
    }
  }

  lemma AgreesApartBefore(kb: KnowledgeBase, after: KnowledgeBase, op: Operation)
    requires KeepsApart(kb, after, op) && WritesWell(after, op) && InAgreement(after)
    ensures AgreeApart(kb, Subject(op), Written(op))
  {
    forall d | d in kb.documents && Subject(op) != Some(d) && kb.documents[d].status.DocActive? ensures HasCurrent(kb, d) {
      assert HasCurrent(after, d);
    }
    forall v | v in kb.versions && v !in Written(op) && kb.versions[v].status.VersionActive?
      ensures Subject(op) != Some(kb.versions[v].document) && IsCurrent(kb, kb.versions[v].document, v)
    {
      assert IsCurrent(after, after.versions[v].document, v);
    }
  }

  // Settling an operation brings the rows into agreement exactly when they agree apart from what it writes.
  lemma SettlingAgreesIff(kb: KnowledgeBase, op: Operation)
    requires Fits(kb, op) && CanSettle(op) && !op.Rebuild? && !op.DeleteKnowledgeBase?
    ensures InAgreement(Settled(kb, op)) <==> AgreeApart(kb, Subject(op), Written(op))
  {
    hide Settled, Fits, KeepsApart, WritesWell, AgreeApart, InAgreement;
    SettledApart(kb, op);
    if AgreeApart(kb, Subject(op), Written(op)) {
      ApartAgrees(kb, Settled(kb, op), op);
    }
    if InAgreement(Settled(kb, op)) {
      AgreesApartBefore(kb, Settled(kb, op), op);
    }
  }

  // Every operation but the deletion of the base, settled on prepared rows, leaves them in agreement.
  lemma SettlingAgrees(kb: KnowledgeBase, op: Operation)
    requires WellFormed(kb) && Prepared(kb, op) && CanSettle(op) && !op.DeleteKnowledgeBase?
    ensures InAgreement(Settled(kb, op))
  {
    hide Selected, AgreeApart, InAgreement, Settled, WellFormed, Fits;
    if op.Rebuild? {
      RebuildingAgrees(kb);
    } else {
      SettlingAgreesIff(kb, op);
    }
  }

  // ---- a job's engine calls bring the index to the rows it settles ----

  // Away from its own document, a rebuild selects the current version.
  lemma SelectsCurrent(kb: KnowledgeBase, op: Operation, d: DocId)
    requires WellFormed(kb) && Fits(kb, op) && AgreeApart(kb, Subject(op), Written(op)) && Subject(op) != Some(d)
    ensures d in Selected(kb) <==> d in kb.documents && kb.documents[d].status.DocActive?
    ensures d in Selected(kb) ==> kb.documents[d].current == Some(Selected(kb)[d]) && Owns(kb, d, Selected(kb)[d])
    ensures d in Selected(kb) ==> Selected(kb)[d] in ActiveSet(kb) - Written(op)
  {
    hide Selected;
    SelectedMeaning(kb, d);
    assert !HasPending(kb, d);
    if d in kb.documents && kb.documents[d].status.DocActive? {
      assert HasCurrent(kb, d);
    }
  }

  // An active version the operation does not write is the selection of its own document.
  lemma ActiveIsSelected(kb: KnowledgeBase, op: Operation, v: VersionId)
    requires WellFormed(kb) && Fits(kb, op) && AgreeApart(kb, Subject(op), Written(op)) && v in ActiveSet(kb) - Written(op)
    ensures var d := kb.versions[v].document; Subject(op) != Some(d) && d in Selected(kb) && Selected(kb)[d] == v
  {
    hide Selected, Fits;
    assert IsCurrent(kb, kb.versions[v].document, v);
    SelectsCurrent(kb, op, kb.versions[v].document);
  }

  // A replacement or a deletion that falls back to a rebuild selects what it is about to make active.
  lemma SelectsWhatItSettles(kb: KnowledgeBase, op: Operation)
    requires WellFormed(kb) && Prepared(kb, op) && CanSettle(op) && (op.Replace? || op.DeleteDocument?)
    ensures SelectedFor(kb, op).Values == ActiveSet(kb) - Written(op) + Activated(op)
    ensures forall e :: e in SelectedFor(kb, op) ==> SelectedFor(kb, op)[e] in kb.versions
  {
    hide Selected, AgreeApart, Fits, WellFormed, ActiveSet;
    var selected := SelectedFor(kb, op);
    forall e: DocId | Subject(op) != Some(e)
      ensures e in selected <==> e in Selected(kb)
      ensures e in selected ==> selected[e] == Selected(kb)[e] && selected[e] in kb.versions && selected[e] in ActiveSet(kb) - Written(op)
    {
      SelectsCurrent(kb, op, e);
    }
    if op.Replace? {
      TargetIsThere(kb, op);
    }
    forall x | x in ActiveSet(kb) - Written(op) ensures x in selected.Values {
      ActiveIsSelected(kb, op, x);
      ActiveIsVersion(kb, x);
      assert selected[kb.versions[x].document] == x;
    }
    if op.Replace? {
      assert selected[op.document] == op.version;
    }
  }

  lemma ActiveIsVersion(kb: KnowledgeBase, v: VersionId)
    requires v in ActiveSet(kb)
    ensures v in kb.versions
  {
  }

  lemma TargetIsThere(kb: KnowledgeBase, op: Operation)
    requires Fits(kb, op) && op.Replace?
    ensures op.version in kb.versions
  {
    assert op.version in Written(op);
  }

  // From any index, however a refused removal left it.
  lemma FallbackReaches(kb: KnowledgeBase, index: set<VersionId>, op: Operation)
    requires WellFormed(kb) && Prepared(kb, op) && CanSettle(op) && (op.Replace? || op.DeleteDocument?)
    ensures Outcome(index, RebuildPlan(kb, SelectedFor(kb, op))) == ActiveSet(Settled(kb, op))
  {
    hide Selected, SelectedFor, RebuildPlan, Outcome, WellFormed, Settled, AgreeApart, Fits, ActiveSet;
    SelectsWhatItSettles(kb, op);
    SettledActive(kb, op);
    RebuildReachesSelection(kb, index, SelectedFor(kb, op));
  }

  lemma OneCall(index: set<VersionId>, call: EngineCall)
    ensures Outcome(index, [call]) == Effect(index, call)
  {
    assert [call][1..] == [];
  }

  lemma TwoCalls(index: set<VersionId>, first: EngineCall, second: EngineCall)
    ensures Outcome(index, [first] + [second]) == Effect(Effect(index, first), second)
  {
    OutcomeOfSum(index, [first], [second]);
    OneCall(index, first);
    OneCall(Effect(index, first), second);
  }

  // Deleting a base empties its index, whatever a failed or crashed job left in it.
  lemma DeletionEmpties(kb: KnowledgeBase, index: set<VersionId>, viaRebuild: bool)
    ensures Outcome(index, PlanFor(kb, DeleteKnowledgeBase, viaRebuild)) == {}
  {
    OneCall(index, Clear);
  }

  // What the direct calls of an operation make of an index.
  function DirectIndex(index: set<VersionId>, op: Operation): set<VersionId> {
    if op.Reuse? then index else index - Written(op) + Activated(op)
  }

  lemma DirectPlan(kb: KnowledgeBase, index: set<VersionId>, op: Operation)
    requires !op.Rebuild? && !op.DeleteKnowledgeBase? && CanSettle(op) && (op.Replace? ==> op.previous != Some(op.version))
    ensures Outcome(index, PlanFor(kb, op, false)) == DirectIndex(index, op)
  {
    match op {
      case Ingest(_, v) => OneCall(index, Insert(v));
      case Replace(_, v, previous) =>
        OneCall(index, Insert(v));
        if previous.Some? {
          TwoCalls(index, Remove(previous.value), Insert(v));
        } else {
          assert [] + [Insert(v)] == [Insert(v)];
        }
      case DeleteDocument(_, current) => OneCall(index, Remove(current.value));
      case _ =>
    }
  }

  // The direct calls reach the rows exactly when the index held what it should of the other versions.
  lemma DirectPlanReachesIff(b: Base, op: Operation)
    requires Fits(b.kb, op) && !op.Rebuild? && !op.DeleteKnowledgeBase? && CanSettle(op)
    ensures Outcome(b.index, PlanFor(b.kb, op, false)) == ActiveSet(Settled(b.kb, op)) <==> IndexApart(b, op)
  {
    hide Outcome, PlanFor, Settled, Fits, ActiveSet;
    FitsApart(b.kb, op);
    DirectPlan(b.kb, b.index, op);
    SettledActive(b.kb, op);
    assert Activated(op) <= Written(op);
    var active := ActiveSet(b.kb);
    if op.Reuse? {
      assert b.index == active - Written(op) + Activated(op) <==> IndexApart(b, op);
    } else {
      assert b.index - Written(op) == (b.index - Written(op) + Activated(op)) - Written(op);
      assert active - Written(op) == (active - Written(op) + Activated(op)) - Written(op);
    }
  }

  lemma FitsApart(kb: KnowledgeBase, op: Operation)
    requires Fits(kb, op)
    ensures op.Replace? ==> op.previous != Some(op.version)
  {
  }

  lemma PlanReaches(b: Base, op: Operation, viaRebuild: bool)
    requires WellFormed(b.kb) && Prepared(b.kb, op) && Waiting(b, op) && CanSettle(op) && !op.DeleteKnowledgeBase?
    ensures Outcome(b.index, PlanFor(b.kb, op, viaRebuild)) == ActiveSet(Settled(b.kb, op))
  {
    hide Selected, SelectedFor, RebuildPlan, WellFormed, Settled, AgreeApart, Outcome, ActiveSet, Fits, IndexApart;
    if op.Rebuild? {
      RebuildPlanReaches(b.kb, b.index);
    } else {
      DirectPlanReachesIff(b, op);
      if op.Replace? || op.DeleteDocument? {
        FallbackReaches(b.kb, b.index, op);
      }
    }
  }

  lemma RebuildPlanReaches(kb: KnowledgeBase, index: set<VersionId>)
    requires WellFormed(kb)
    ensures Outcome(index, RebuildPlan(kb, Selected(kb)) + [Pin]) == ActiveSet(Settled(kb, Rebuild(Selected(kb))))
  {
    hide Selected, RebuildPlan, Outcome, Settled;
    forall d | d in Selected(kb) ensures Selected(kb)[d] in kb.versions {
      SelectedMeaning(kb, d);
    }
    RebuildingAgrees(kb);
    RebuildReachesSelection(kb, index, Selected(kb));
  }

  // ---- rows that differ only in status, revision, epoch, configuration or jobs ----

  lemma {:induction false} SameVersionsOf(x: KnowledgeBase, y: KnowledgeBase, order: seq<VersionId>, d: DocId)
    requires SameRows(x, y)
    ensures VersionsOf(x, order, d) == VersionsOf(y, order, d)
  {
    if order != [] {
      SameVersionsOf(x, y, order[..|order| - 1], d);
    }
  }

  lemma {:induction false} SameLastPending(x: KnowledgeBase, y: KnowledgeBase, vs: seq<VersionId>)
    requires SameRows(x, y)
    ensures LastPending(x, vs) == LastPending(y, vs)
  {
    if vs != [] {
      SameLastPending(x, y, vs[..|vs| - 1]);
    }
  }

  lemma SameSelected(x: KnowledgeBase, y: KnowledgeBase)
    requires SameRows(x, y)
    ensures Selected(x) == Selected(y)
  {
    hide VersionsOf, LastPending;
    forall d: DocId ensures VersionsOf(x, x.order, d) == VersionsOf(y, y.order, d) {
      SameVersionsOf(x, y, x.order, d);
    }
    forall d | d in Selected(x) ensures Chosen(x, d) == Chosen(y, d) {
      SameLastPending(x, y, VersionsOf(x, x.order, d));
    }
  }

  lemma SameForm(x: KnowledgeBase, y: KnowledgeBase)
    requires SameRows(x, y) && WellFormed(x)
    ensures WellFormed(y)
  {
    forall d | d in y.documents && !y.documents[d].status.DocDeleted? ensures HasVersion(y, d) {
      assert HasVersion(x, d);
      var v :| Owns(x, d, v);
      assert Owns(y, d, v);
    }
  }

  lemma SameAgreeApart(x: KnowledgeBase, y: KnowledgeBase, d: Option<DocId>, written: set<VersionId>)
    requires SameRows(x, y) && AgreeApart(x, d, written)
    ensures AgreeApart(y, d, written)
  {
    forall e, u | IsCurrent(x, e, u) ensures IsCurrent(y, e, u) {
    }
    forall e | e in x.documents && HasCurrent(x, e) ensures HasCurrent(y, e) {
    }
  }

  lemma SameFits(x: KnowledgeBase, y: KnowledgeBase, op: Operation)
    requires SameRows(x, y) && Fits(x, op)
    ensures Fits(y, op)
  {
    forall d, v | Owns(x, d, v) ensures Owns(y, d, v) {
    }
  }

  lemma SamePrepared(x: KnowledgeBase, y: KnowledgeBase, op: Operation)
    requires SameRows(x, y) && Prepared(x, op)
    ensures Prepared(y, op)
  {
    hide Selected, AgreeApart, Fits;
    SameSelected(x, y);
    if !op.Rebuild? && !op.DeleteKnowledgeBase? && CanSettle(op) {
      SameFits(x, y, op);
      SameAgreeApart(x, y, Subject(op), Written(op));
    }
  }

  lemma SameActive(x: KnowledgeBase, y: KnowledgeBase)
    requires SameRows(x, y)
    ensures ActiveSet(x) == ActiveSet(y)
  {
  }

  lemma SameSettled(x: KnowledgeBase, y: KnowledgeBase, op: Operation)
    requires SameRows(x, y)
    ensures SameRows(Settled(x, op), Settled(y, op))
  {
  }

  lemma SameWaiting(x: Base, y: Base, op: Operation)
    requires SameRows(x.kb, y.kb) && x.index == y.index && Waiting(x, op)
    ensures Waiting(y, op)
  {
    hide Prepared, ActiveSet;
    if Prepared(x.kb, op) {
      SamePrepared(x.kb, y.kb, op);
    }
    SameActive(x.kb, y.kb);
  }

  // ---- replaying a failed job, and reusing a duplicate ----

  // The base once an operation's direct calls were made and it was settled.
  function Replayed(b: Base, op: Operation): Base {
    b.(kb := Settled(b.kb, op), index := Outcome(b.index, PlanFor(b.kb, op, false)))
  }

  // Main result: from any base, agreeing, dirty or half indexed, executing and settling an operation brings
  // rows and index into agreement exactly when they agree already apart from what the operation writes.
  lemma ReplayAgreesIff(b: Base, op: Operation)
    requires Fits(b.kb, op) && CanSettle(op) && !op.Rebuild? && !op.DeleteKnowledgeBase?
    ensures Agrees(Replayed(b, op)) <==> AgreeApart(b.kb, Subject(op), Written(op)) && IndexApart(b, op)
    ensures Agrees(Replayed(b, op)) <==> Waiting(b, op)
  {
    hide Outcome, PlanFor, Settled, Fits, AgreeApart, IndexApart;
    SettlingAgreesIff(b.kb, op);
    DirectPlanReachesIff(b, op);
  }

  predicate OnlyTouches(plan: seq<EngineCall>, written: set<VersionId>) {
    forall i :: 0 <= i < |plan| ==> (plan[i].Insert? || plan[i].Remove?) && plan[i].version in written
  }

  lemma {:induction false} OutcomeApart(index: set<VersionId>, plan: seq<EngineCall>, written: set<VersionId>)
    requires OnlyTouches(plan, written)
    ensures Outcome(index, plan) - written == index - written
    decreases |plan|
  {
    if plan != [] {
      OutcomeApart(Effect(index, plan[0]), plan[1..], written);
      assert Effect(index, plan[0]) - written == index - written;
    }
  }

  // Main result: a job that was ready to run and failed after any number of its direct calls can be
  // replayed as it is; only a rebuild that was cut short leaves nothing to build on.
  lemma CutShortCanBeReplayed(b: Base, op: Operation, made: nat)
    requires Waiting(b, op) && !op.Rebuild? && !op.DeleteKnowledgeBase? && made <= |PlanFor(b.kb, op, false)|
    ensures Waiting(b.(index := Outcome(b.index, PlanFor(b.kb, op, false)[..made])), op)
  {
    hide Prepared, ActiveSet, Outcome;
    if CanSettle(op) {
      OutcomeApart(b.index, PlanFor(b.kb, op, false)[..made], Written(op));
      if op.Reuse? {
        NoCalls(b.index);
      }
    }
  }

  lemma NoCalls(index: set<VersionId>)
    ensures Outcome(index, []) == index
  {
  }

  // A reuse keeps a base in agreement exactly when the version it found is still the current one.
  lemma ReuseAgreesIffCurrent(b: Base, d: DocId, v: VersionId)
    requires Agrees(b) && Owns(b.kb, d, v) && d in b.kb.documents
    ensures Agrees(b.(kb := Settled(b.kb, Reuse(d, v)))) <==> IsCurrent(b.kb, d, v)
  {
    hide Outcome, Settled;
    NoCalls(b.index);
    ReplayAgreesIff(b, Reuse(d, v));
    if IsCurrent(b.kb, d, v) {
      SettingUpReuse(b.kb, d, v);
    }
  }

  // Where a replayed operation finds a version of its document that it does not know of.
  predicate Overtaken(kb: KnowledgeBase, op: Operation) {
    Subject(op).Some? && Subject(op).value in kb.documents && var row := kb.documents[Subject(op).value];
    row.status.DocActive? && row.current.Some? && row.current.value !in Written(op)
  }

  // A document job replayed against a base in agreement keeps it in agreement exactly when no later
  // version of the document became current in the meantime.
  lemma ReplayAgreesIffNotOvertaken(b: Base, op: Operation)
    requires Agrees(b) && Fits(b.kb, op) && CanSettle(op) && (op.Ingest? || op.Replace? || op.DeleteDocument?)
    ensures Agrees(Replayed(b, op)) <==> !Overtaken(b.kb, op)
  {
    hide Outcome, PlanFor, Settled, Fits;
    ReplayAgreesIff(b, op);
    AgreeingApartIff(b.kb, op);
  }

  lemma AgreeingApartIff(kb: KnowledgeBase, op: Operation)
    requires InAgreement(kb) && Fits(kb, op) && Subject(op).Some?
    ensures AgreeApart(kb, Subject(op), Written(op)) <==> !Overtaken(kb, op)
  {
    var d := Subject(op).value;
    if kb.documents[d].status.DocActive? {
      assert HasCurrent(kb, d);
    }
  }
}
