// Knowledge bases, their documents, versions and jobs. A base's rows are kept together;
// every method is one transaction.

module KnowledgeRepository {
  import opened Options

  type KbId = nat
  type DocId = nat
  type VersionId = nat
  type JobId = nat

  datatype KbStatus = Ready | Updating | Dirty | Deleting | Deleted

  datatype VersionStatus = VersionPending | VersionActive | VersionSuperseded | VersionDeleted

  datatype DocStatus = DocPending | DocActive | DocDeleted

  datatype JobStatus = Queued | Running | Succeeded | Failed

  datatype Version = Version(document: DocId, status: VersionStatus)

  datatype Document = Document(status: DocStatus, current: Option<VersionId>)

  datatype Operation =
    | Ingest(document: DocId, version: VersionId)
    | Replace(document: DocId, version: VersionId, previous: Option<VersionId>)
    | Reuse(document: DocId, version: VersionId)
    | DeleteDocument(document: DocId, current: Option<VersionId>)
    | Correction
    | Rebuild(selected: map<DocId, VersionId>)
    | DeleteKnowledgeBase

  datatype Job = Job(op: Operation, status: JobStatus, created: nat)

  // `order` lists the versions by creation time.
  datatype KnowledgeBase = KnowledgeBase(
    status: KbStatus, revision: nat, epoch: nat, config: int,
    documents: map<DocId, Document>, versions: map<VersionId, Version>, order: seq<VersionId>,
    jobs: map<JobId, Job>)

  // ---- opening a job ----

  datatype Refusal = NotFound | RevisionChanged | ConfigChanged | WrongStatus | KeyReused

  // `config` is the running index configuration, None when the operation tolerates any.
  function CheckBegin(kb: KnowledgeBase, expected: int, allowDirty: bool, config: Option<int>): Option<Refusal> {
    if kb.status.Deleting? || kb.status.Deleted? then Some(NotFound)
    else if kb.revision != expected then Some(RevisionChanged)
    else if config.Some? && kb.config != config.value then Some(ConfigChanged)
    else if !(kb.status.Ready? || (allowDirty && kb.status.Dirty?)) then Some(WrongStatus)
    else None
  }

  // The rows an operation inserts before its job runs, when they are there to insert.
  predicate CanSetUp(kb: KnowledgeBase, op: Operation) {
    match op
    case Ingest(d, v) => d !in kb.documents && v !in kb.versions
    case Replace(d, v, previous) =>
      d in kb.documents && !kb.documents[d].status.DocDeleted? && previous == kb.documents[d].current && v !in kb.versions
    case DeleteDocument(d, current) =>
      d in kb.documents && !kb.documents[d].status.DocDeleted? && kb.documents[d].current == current
    case _ => true
  }

  // What opening an operation adds to the rows: the pending version it names, created last, and for a first
  // ingestion its pending document; nothing that was there changes.
  predicate Inserted(x: KnowledgeBase, y: KnowledgeBase, op: Operation) {
    && (if op.Ingest? || op.Replace? then
          && y.order == x.order + [op.version]
          && y.versions.Keys == x.versions.Keys + {op.version} && y.versions[op.version] == Version(op.document, VersionPending)
        else y.order == x.order && y.versions.Keys == x.versions.Keys)
    && (if op.Ingest? then y.documents.Keys == x.documents.Keys + {op.document} && y.documents[op.document] == Document(DocPending, None)
        else y.documents.Keys == x.documents.Keys)
    && (forall v :: v in x.versions ==> y.versions[v] == x.versions[v])
    && (forall d :: d in x.documents ==> y.documents[d] == x.documents[d])
  }

  function SetUp(kb: KnowledgeBase, op: Operation): KnowledgeBase {
    match op
    case Ingest(d, v) =>
      kb.(documents := kb.documents[d := Document(DocPending, None)],
          versions := kb.versions[v := Version(d, VersionPending)], order := kb.order + [v])
    case Replace(d, v, _) =>
      kb.(versions := kb.versions[v := Version(d, VersionPending)], order := kb.order + [v])
    case _ => kb
  }

  function Begun(kb: KnowledgeBase, j: JobId, op: Operation, now: nat): KnowledgeBase {
    var ready := SetUp(kb, op);
    ready.(jobs := ready.jobs[j := Job(op, Queued, now)], epoch := ready.epoch + 1, status := Updating)
  }

  function Retried(kb: KnowledgeBase, j: JobId, op: Operation, now: nat): KnowledgeBase {
    kb.(jobs := kb.jobs[j := Job(op, Queued, now)], epoch := kb.epoch + 1, status := Updating)
  }

  // ---- settling a job ----

  function WithJobStatus(kb: KnowledgeBase, j: JobId, status: JobStatus): KnowledgeBase
    requires j in kb.jobs
  {
    kb.(jobs := kb.jobs[j := kb.jobs[j].(status := status)])
  }

  function SetVersion(versions: map<VersionId, Version>, v: VersionId, status: VersionStatus): map<VersionId, Version> {
    if v in versions then versions[v := versions[v].(status := status)] else versions
  }

  function SetDocument(documents: map<DocId, Document>, d: DocId, status: DocStatus, v: VersionId): map<DocId, Document> {
    if d in documents then documents[d := Document(status, Some(v))] else documents
  }

  function Superseded(versions: map<VersionId, Version>): map<VersionId, Version> {
    map v | v in versions :: if versions[v].status.VersionDeleted? then versions[v] else versions[v].(status := VersionSuperseded)
  }

  // The rows after a rebuild that activated `selected`.
  function RebuiltDocuments(documents: map<DocId, Document>, selected: map<DocId, VersionId>): map<DocId, Document> {
    map d | d in documents :: if d in selected then Document(DocActive, Some(selected[d])) else documents[d]
  }

  function RebuiltVersions(versions: map<VersionId, Version>, selected: map<DocId, VersionId>): map<VersionId, Version> {
    map v | v in versions ::
      if v in selected.Values then versions[v].(status := VersionActive) else Superseded(versions)[v]
  }

  lemma ActivateOne(documents: map<DocId, Document>, versions: map<VersionId, Version>, done: map<DocId, VersionId>, d: DocId, v: VersionId)
    requires d in documents && d !in done && v in versions
    ensures RebuiltDocuments(documents, done[d := v]) == RebuiltDocuments(documents, done)[d := Document(DocActive, Some(v))]
    ensures RebuiltVersions(versions, done[d := v]) ==
              RebuiltVersions(versions, done)[v := RebuiltVersions(versions, done)[v].(status := VersionActive)]
  {
    assert done[d := v].Values == done.Values + {v} by {
      assert forall x :: x in done.Values ==> exists e :: e in done && done[d := v][e] == x;
      assert done[d := v][d] == v;
    }
  }

  // The deletion of a document without a current version names none, and its settling is refused.
  predicate CanSettle(op: Operation) {
    op.DeleteDocument? ==> op.current.Some?
  }

  function Settled(kb: KnowledgeBase, op: Operation): KnowledgeBase {
    match op
    case Ingest(d, v) =>
      kb.(versions := SetVersion(kb.versions, v, VersionActive), documents := SetDocument(kb.documents, d, DocActive, v))
    case Reuse(d, v) =>
      kb.(versions := SetVersion(kb.versions, v, VersionActive), documents := SetDocument(kb.documents, d, DocActive, v))
    case Replace(d, v, previous) =>
      var activated := SetVersion(kb.versions, v, VersionActive);
      kb.(versions := if previous.Some? then SetVersion(activated, previous.value, VersionSuperseded) else activated,
          documents := SetDocument(kb.documents, d, DocActive, v))
    case DeleteDocument(d, current) =>
      if current.None? then kb
      else kb.(versions := SetVersion(kb.versions, current.value, VersionDeleted),
               documents := SetDocument(kb.documents, d, DocDeleted, current.value))
    case Correction => kb
    case Rebuild(selected) =>
      kb.(versions := RebuiltVersions(kb.versions, selected), documents := RebuiltDocuments(kb.documents, selected))
    case DeleteKnowledgeBase =>
      kb.(documents := map d | d in kb.documents :: kb.documents[d].(status := DocDeleted))
  }

  predicate VersionIs(kb: KnowledgeBase, v: VersionId, status: VersionStatus) {
    v in kb.versions ==> kb.versions[v].status == status
  }

  predicate DocumentIs(kb: KnowledgeBase, d: DocId, status: DocStatus, current: VersionId) {
    d in kb.documents ==> kb.documents[d] == Document(status, Some(current))
  }

  // No row comes, goes or changes its document, and only these documents and versions change at all.
  predicate ChangesOnly(x: KnowledgeBase, y: KnowledgeBase, documents: set<DocId>, versions: set<VersionId>) {
    && y.order == x.order && y.documents.Keys == x.documents.Keys && y.versions.Keys == x.versions.Keys
    && (forall d :: d in x.documents && d !in documents ==> y.documents[d] == x.documents[d])
    && (forall v :: v in x.versions && v !in versions ==> y.versions[v] == x.versions[v])
    && (forall v :: v in x.versions ==> y.versions[v].document == x.versions[v].document)
  }

  // What publishing a settled operation does to the rows.
  predicate Publishes(x: KnowledgeBase, y: KnowledgeBase, op: Operation) {
    match op
    case Ingest(d, v) => VersionIs(y, v, VersionActive) && DocumentIs(y, d, DocActive, v) && ChangesOnly(x, y, {d}, {v})
    case Reuse(d, v) => VersionIs(y, v, VersionActive) && DocumentIs(y, d, DocActive, v) && ChangesOnly(x, y, {d}, {v})
    case Replace(d, v, None) => VersionIs(y, v, VersionActive) && DocumentIs(y, d, DocActive, v) && ChangesOnly(x, y, {d}, {v})
    case Replace(d, v, Some(previous)) =>
      && VersionIs(y, previous, VersionSuperseded) && (v != previous ==> VersionIs(y, v, VersionActive))
      && DocumentIs(y, d, DocActive, v) && ChangesOnly(x, y, {d}, {v, previous})
    case DeleteDocument(d, Some(v)) => VersionIs(y, v, VersionDeleted) && DocumentIs(y, d, DocDeleted, v) && ChangesOnly(x, y, {d}, {v})
    case Rebuild(selected) =>
      && ChangesOnly(x, y, selected.Keys, x.versions.Keys)
      && (forall d :: d in selected ==> DocumentIs(y, d, DocActive, selected[d]))
      && (forall v :: v in x.versions ==>
            VersionIs(y, v, if v in selected.Values then VersionActive
                            else if x.versions[v].status.VersionDeleted? then VersionDeleted else VersionSuperseded))
    case DeleteKnowledgeBase =>
      && ChangesOnly(x, y, x.documents.Keys, {})
      && forall d :: d in x.documents ==> y.documents[d].status.DocDeleted? && y.documents[d].current == x.documents[d].current
    case _ => ChangesOnly(x, y, {}, {})
  }

  lemma SettlingPublishes(kb: KnowledgeBase, op: Operation)
    ensures Publishes(kb, Settled(kb, op), op)
  {
  }

  function Finished(kb: KnowledgeBase, j: JobId, op: Operation): KnowledgeBase
    requires j in kb.jobs
  {
    WithJobStatus(Settled(kb, op), j, Succeeded).(
      revision := kb.revision + 1, status := if op.DeleteKnowledgeBase? then Deleting else Ready)
  }

  function FailedJob(kb: KnowledgeBase, j: JobId): KnowledgeBase
    requires j in kb.jobs
  {
    WithJobStatus(kb, j, Failed).(status := Dirty)
  }

  function HasRunning(kb: KnowledgeBase): bool {
    exists j :: j in kb.jobs && kb.jobs[j].status.Running?
  }

  function Interrupted(kb: KnowledgeBase): KnowledgeBase {
    if HasRunning(kb) then
      kb.(status := Dirty,
          jobs := map j | j in kb.jobs :: if kb.jobs[j].status.Running? then kb.jobs[j].(status := Failed) else kb.jobs[j])
    else kb
  }

  function Drifted(kb: KnowledgeBase, config: int): KnowledgeBase {
    if kb.config != config && kb.status.Ready? then kb.(status := Dirty, epoch := kb.epoch + 1) else kb
  }

  // A rename counts as a revision and moves the epoch on; a purge leaves a tombstone with its deletion jobs.
  lemma RenamedAndPurged(kb: KnowledgeBase)
    ensures Renamed(kb).revision == kb.revision + 1 && Renamed(kb).epoch == kb.epoch + 1
    ensures Renamed(kb).status == kb.status && Renamed(kb).jobs == kb.jobs && SameRows(Renamed(kb), kb)
    ensures Purged(kb).status.Deleted? && Purged(kb).documents == map[] && Purged(kb).versions == map[] && Purged(kb).order == []
    ensures Purged(kb).revision == kb.revision && Purged(kb).epoch == kb.epoch
    ensures forall j :: j in Purged(kb).jobs <==> j in kb.jobs && kb.jobs[j].op.DeleteKnowledgeBase?
    ensures forall j :: j in Purged(kb).jobs ==> Purged(kb).jobs[j] == kb.jobs[j]
  {
  }

  function Renamed(kb: KnowledgeBase): KnowledgeBase {
    kb.(revision := kb.revision + 1, epoch := kb.epoch + 1)
  }

  // purge_knowledge_base_rows and mark_knowledge_base_purged
  function Purged(kb: KnowledgeBase): KnowledgeBase {
    kb.(documents := map[], versions := map[], order := [], status := Deleted,
        jobs := map j | j in kb.jobs && kb.jobs[j].op.DeleteKnowledgeBase? :: kb.jobs[j])
  }

  // ---- counting jobs ----

  function JobsIn(jobs: map<JobId, Job>, status: JobStatus): set<JobId> {
    set j | j in jobs && jobs[j].status == status
  }

  function Tally(jobs: map<JobId, Job>, status: JobStatus): nat {
    |JobsIn(jobs, status)|
  }

  function Live(jobs: map<JobId, Job>): nat {
    Tally(jobs, Queued) + Tally(jobs, Running)
  }

  function One(b: bool): int {
    if b then 1 else 0
  }

  lemma TallySet(jobs: map<JobId, Job>, j: JobId, job: Job, status: JobStatus)
    ensures Tally(jobs[j := job], status) ==
              Tally(jobs, status) - One(j in jobs && jobs[j].status == status) + One(job.status == status)
  {
    var before, after := JobsIn(jobs, status), JobsIn(jobs[j := job], status);
    if job.status == status {
      assert after == before + {j};
    } else {
      assert after == before - {j};
    }
  }

  // Replacing one job.
  lemma LiveSet(jobs: map<JobId, Job>, j: JobId, job: Job)
    ensures Live(jobs[j := job]) ==
              Live(jobs) - One(j in jobs && (jobs[j].status.Queued? || jobs[j].status.Running?))
                         + One(job.status.Queued? || job.status.Running?)
    ensures Tally(jobs[j := job], JobStatus.Failed) ==
              Tally(jobs, JobStatus.Failed) - One(j in jobs && jobs[j].status.Failed?) + One(job.status.Failed?)
  {
    TallySet(jobs, j, job, Queued);
    TallySet(jobs, j, job, Running);
    TallySet(jobs, j, job, JobStatus.Failed);
  }

  // What no transaction on status or jobs touches.
  predicate SameRows(x: KnowledgeBase, y: KnowledgeBase) {
    x.documents == y.documents && x.versions == y.versions && x.order == y.order
  }

  lemma SamePublished(x: KnowledgeBase, y: KnowledgeBase, z: KnowledgeBase, op: Operation)
    requires Publishes(x, y, op) && SameRows(y, z)
    ensures Publishes(x, z, op)
  {
  }

  // ---- idempotency ----

  datatype Saved = Saved(request: string, job: JobId)

  class Repository {
    var bases: map<KbId, KnowledgeBase>
    var replies: map<string, Saved>

    constructor ()
      ensures bases == map[] && replies == map[]
    {
      bases, replies := map[], map[];
    }

    // begin_job: a repeated key replays its first reply and begins nothing.
    method BeginJob(k: KbId, expected: int, key: string, request: string, j: JobId, op: Operation, now: nat,
                    allowDirty: bool, config: Option<int>) returns (r: Result<JobId, Refusal>)
      requires forall b :: b in bases ==> j !in bases[b].jobs
      modifies this
      ensures key in old(replies) ==>
                && bases == old(bases) && replies == old(replies)
                && r == (if old(replies)[key].request == request then Ok(old(replies)[key].job) else Err(KeyReused))
      ensures key !in old(replies) && k !in old(bases) ==> r == Err(NotFound)
      ensures key !in old(replies) && k in old(bases) ==>
                var kb := old(bases)[k];
                var gone, configured := kb.status.Deleting? || kb.status.Deleted?, config.None? || config == Some(kb.config);
                && (r.Ok? <==>
                      && (kb.status.Ready? || (allowDirty && kb.status.Dirty?))
                      && kb.revision == expected && configured && CanSetUp(kb, op))
                && (gone ==> r == Err(NotFound))
                && (!gone && kb.revision != expected ==> r == Err(RevisionChanged))
                && (!gone && kb.revision == expected && !configured ==> r == Err(ConfigChanged))
                && (r == Err(WrongStatus) ==> kb.status.Updating? || (kb.status.Dirty? && !allowDirty))
      ensures key !in old(replies) && r.Ok? ==>
                && bases == old(bases)[k := Begun(old(bases)[k], j, op, now)]
                && replies == old(replies)[key := Saved(request, j)] && r == Ok(j)
      ensures key !in old(replies) && r.Ok? ==>
                var x, y := old(bases)[k], bases[k];
                && y.status.Updating? && y.epoch == x.epoch + 1 && y.revision == x.revision && y.config == x.config
                && y.jobs == x.jobs[j := Job(op, Queued, now)] && Inserted(x, y, op)
      ensures r.Err? ==> bases == old(bases) && replies == old(replies)
    {
      if key in replies {
        return if replies[key].request != request then Err(KeyReused) else Ok(replies[key].job);
      }
      if k !in bases {
        return Err(NotFound);
      }
      var kb := bases[k];
      var refusal := CheckBegin(kb, expected, allowDirty, config);
      if refusal.Some? {
        return Err(refusal.value);
      }
      if !CanSetUp(kb, op) {
        return Err(NotFound);
      }
      kb := SetUp(kb, op);
      kb := kb.(jobs := kb.jobs[j := Job(op, Queued, now)]);
      kb := kb.(epoch := kb.epoch + 1, status := Updating);
      bases := bases[k := kb];
      replies := replies[key := Saved(request, j)];
      return Ok(j);
    }

    // claim_job: the oldest queued job of all bases.
    method ClaimJob() returns (r: Option<(KbId, JobId)>)
      modifies this`bases
      ensures r.None? ==> bases == old(bases) && forall k, j :: k in bases && j in bases[k].jobs ==> !bases[k].jobs[j].status.Queued?
      ensures r.Some? ==>
                var (k, j) := r.value;
                && k in old(bases) && j in old(bases)[k].jobs && old(bases)[k].jobs[j].status.Queued?
                && bases == old(bases)[k := WithJobStatus(old(bases)[k], j, Running)]
                && forall l, i :: l in old(bases) && i in old(bases)[l].jobs && old(bases)[l].jobs[i].status.Queued? ==>
                     old(bases)[k].jobs[j].created <= old(bases)[l].jobs[i].created
    {
      var queued := set k, j | k in bases && j in bases[k].jobs && bases[k].jobs[j].status.Queued? :: (k, j);
      if queued == {} {
        assert forall k, j :: k in bases && j in bases[k].jobs && bases[k].jobs[j].status.Queued? ==> (k, j) in queued;
        return None;
      }
      var first :| first in queued;
      var rest := queued - {first};
      while rest != {}
        invariant rest <= queued && first in queued
        invariant forall q :: q in queued && q !in rest ==> bases[first.0].jobs[first.1].created <= bases[q.0].jobs[q.1].created
        decreases |rest|
      {
        var q :| q in rest;
        rest := rest - {q};
        if bases[q.0].jobs[q.1].created < bases[first.0].jobs[first.1].created {
          first := q;
        }
      }
      assert forall l, i :: l in bases && i in bases[l].jobs && bases[l].jobs[i].status.Queued? ==> (l, i) in queued;
      bases := bases[first.0 := WithJobStatus(bases[first.0], first.1, Running)];
      return Some(first);
    }

    // The loop of finish_job over the versions a rebuild activated.
    method Activate(documents: map<DocId, Document>, versions: map<VersionId, Version>, selected: map<DocId, VersionId>)
      returns (docs: map<DocId, Document>, vers: map<VersionId, Version>)
      requires forall d :: d in selected ==> d in documents && selected[d] in versions
      ensures docs == RebuiltDocuments(documents, selected) && vers == RebuiltVersions(versions, selected)
    {
      docs, vers := documents, Superseded(versions);
      var done: map<DocId, VersionId> := map[];
      while done.Keys != selected.Keys
        invariant done.Keys <= selected.Keys && forall d :: d in done ==> done[d] == selected[d]
        invariant docs == RebuiltDocuments(documents, done) && vers == RebuiltVersions(versions, done)
        decreases selected.Keys - done.Keys
      {
        var d :| d in selected && d !in done;
        ActivateOne(documents, versions, done, d, selected[d]);
        docs := docs[d := Document(DocActive, Some(selected[d]))];
        vers := vers[selected[d] := vers[selected[d]].(status := VersionActive)];
        done := done[d := selected[d]];
      }
      assert done == selected;
    }

    // finish_job; None when the base left the updating state or the operation cannot be settled.
    method FinishJob(k: KbId, j: JobId, op: Operation) returns (revision: Option<nat>)
      requires k in bases && j in bases[k].jobs
      requires op.Rebuild? ==> forall d :: d in op.selected ==> d in bases[k].documents && op.selected[d] in bases[k].versions
      modifies this`bases
      ensures revision.Some? <==> old(bases)[k].status.Updating? && CanSettle(op)
      ensures revision.None? ==> bases == old(bases)
      ensures revision.Some? ==>
                revision == Some(old(bases)[k].revision + 1) && bases == old(bases)[k := Finished(old(bases)[k], j, op)]
      ensures revision.Some? ==>
                var x, y := old(bases)[k], bases[k];
                && y.revision == x.revision + 1 && y.epoch == x.epoch && y.config == x.config
                && y.status == (if op == DeleteKnowledgeBase then Deleting else Ready)
                && y.jobs == x.jobs[j := Job(x.jobs[j].op, Succeeded, x.jobs[j].created)]
                && Publishes(x, y, op)
    {
      hide Publishes;
      SettlingPublishes(bases[k], op);
      SamePublished(bases[k], Settled(bases[k], op), Finished(bases[k], j, op), op);
      var kb := bases[k];
      if !kb.status.Updating? || !CanSettle(op) {
        return None;
      }
      var documents, versions := kb.documents, kb.versions;
      match op {
        case Rebuild(selected) => documents, versions := Activate(documents, versions, selected);
        case _ => documents, versions := Settled(kb, op).documents, Settled(kb, op).versions;
      }
      kb := kb.(documents := documents, versions := versions, revision := kb.revision + 1,
                status := if op.DeleteKnowledgeBase? then Deleting else Ready);
      bases := bases[k := WithJobStatus(kb, j, Succeeded)];
      return Some(kb.revision);
    }

    // fail_job: whatever the base's status was, and whatever became of the job before.
    method FailJob(k: KbId, j: JobId)
      requires k in bases && j in bases[k].jobs
      modifies this`bases
      ensures bases.Keys == old(bases).Keys && forall l :: l in bases && l != k ==> bases[l] == old(bases)[l]
      ensures bases[k].status.Dirty? && SameRows(bases[k], old(bases)[k])
      ensures bases[k].epoch == old(bases)[k].epoch && bases[k].revision == old(bases)[k].revision && bases[k].config == old(bases)[k].config
      ensures bases[k].jobs.Keys == old(bases)[k].jobs.Keys && forall i :: i in bases[k].jobs && i != j ==> bases[k].jobs[i] == old(bases)[k].jobs[i]
      ensures bases[k].jobs[j].status.Failed? && bases[k].jobs[j].op == old(bases)[k].jobs[j].op && bases[k].jobs[j].created == old(bases)[k].jobs[j].created
      ensures Live(bases[k].jobs) ==
                Live(old(bases)[k].jobs) - One(old(bases)[k].jobs[j].status.Queued? || old(bases)[k].jobs[j].status.Running?)
    {
      LiveSet(bases[k].jobs, j, bases[k].jobs[j].(status := JobStatus.Failed));
      bases := bases[k := WithJobStatus(bases[k], j, JobStatus.Failed)];
      bases := bases[k := bases[k].(status := Dirty)];
    }

    // mark_interrupted_dirty: the running jobs fail, and the bases they ran on become dirty.
    method MarkInterruptedDirty()
      modifies this`bases
      ensures bases.Keys == old(bases).Keys
      ensures forall k :: k in bases && !HasRunning(old(bases)[k]) ==> bases[k] == old(bases)[k]
      ensures forall k :: k in bases && HasRunning(old(bases)[k]) ==>
                bases[k].status.Dirty? && SameRows(bases[k], old(bases)[k]) && bases[k].epoch == old(bases)[k].epoch
                && bases[k].revision == old(bases)[k].revision && bases[k].jobs.Keys == old(bases)[k].jobs.Keys
      ensures forall k, j :: k in bases && j in bases[k].jobs ==>
                var before := old(bases)[k].jobs[j];
                bases[k].jobs[j] == if before.status.Running? then before.(status := JobStatus.Failed) else before
    {
      bases := map k | k in bases :: Interrupted(bases[k]);
    }

    // mark_config_drift_dirty: exactly the ready bases of another configuration become dirty, at a new epoch.
    method MarkConfigDriftDirty(config: int)
      modifies this`bases
      ensures bases.Keys == old(bases).Keys
      ensures forall k :: k in bases && bases[k].status.Ready? ==> bases[k].config == config
      ensures forall k :: k in bases && !(old(bases)[k].status.Ready? && old(bases)[k].config != config) ==> bases[k] == old(bases)[k]
      ensures forall k :: k in bases && old(bases)[k].status.Ready? && old(bases)[k].config != config ==>
                bases[k] == old(bases)[k].(status := Dirty, epoch := old(bases)[k].epoch + 1)
    {
      bases := map k | k in bases :: Drifted(bases[k], config);
    }
  }
}
