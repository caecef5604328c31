// One service process over the knowledge bases: requests open jobs, one worker executes
// them by calling the external index, and the process may crash and recover at any point.
// The index is the set of version ids it holds; a call that fails may leave it in any state.

module KnowledgeProtocol {
  import opened Options
  import opened KnowledgeRepository

  // `Pin` records the index configuration a rebuild was made with.
  datatype EngineCall = Clear | Insert(version: VersionId) | Remove(version: VersionId) | Pin

  // A base's rows, what the external index holds for it, and its history: how often configuration
  // drift dirtied it, how often a settled job was failed afterwards, and whether its rows were purged.
  datatype Base = Base(kb: KnowledgeBase, index: set<VersionId>, drifts: nat, relapses: nat, purged: bool)

  datatype Worker =
    | Idle
    | Executing(base: KbId, job: JobId, op: Operation, plan: seq<EngineCall>)
    | AckLost(base: KbId, job: JobId)

  // A duplicate found before its reuse is submitted, with the revision it was found at.
  datatype Lookup = Lookup(base: KbId, document: DocId, version: VersionId, revision: nat)

  datatype System = System(bases: map<KbId, Base>, worker: Worker, interrupted: bool, config: int, lookups: set<Lookup>)

  datatype Step =
    | CreateBase(k: KbId)
    | Rename(k: KbId)
    | Look(k: KbId, document: DocId, version: VersionId)
    | Begin(k: KbId, job: JobId, op: Operation, expected: int, now: nat)
    | Retry(k: KbId, failed: JobId, job: JobId, expected: int, now: nat)
    | Claim(k: KbId, job: JobId, viaRebuild: bool)
    | Call
    | Refuse
    | Fail(left: set<VersionId>)
    | Finish(acknowledged: bool)
    | FailLate
    | Crash(left: set<VersionId>)
    | Recover
    | Drift(config: int)
    | Purge(k: KbId)

  // ---- what a rebuild selects (_rebuild_inputs) ----

  function VersionsOf(kb: KnowledgeBase, order: seq<VersionId>, d: DocId): seq<VersionId> {
    if order == [] then []
    else
      var v := order[|order| - 1];
      VersionsOf(kb, order[..|order| - 1], d) + if v in kb.versions && kb.versions[v].document == d then [v] else []
  }

  function LastPending(kb: KnowledgeBase, vs: seq<VersionId>): Option<VersionId> {
    if vs == [] then None
    else
      var v := vs[|vs| - 1];
      if v in kb.versions && kb.versions[v].status.VersionPending? then Some(v) else LastPending(kb, vs[..|vs| - 1])
  }

  function Chosen(kb: KnowledgeBase, d: DocId): VersionId
    requires d in kb.documents && VersionsOf(kb, kb.order, d) != []
  {
    var vs := VersionsOf(kb, kb.order, d);
    var pending := LastPending(kb, vs);
    if pending.Some? then pending.value
    else if kb.documents[d].current.Some? && kb.documents[d].current.value in vs then kb.documents[d].current.value
    else vs[|vs| - 1]
  }

  function Selected(kb: KnowledgeBase): map<DocId, VersionId> {
    map d | d in kb.documents && !kb.documents[d].status.DocDeleted? && VersionsOf(kb, kb.order, d) != [] :: Chosen(kb, d)
  }

  function SelectedFor(kb: KnowledgeBase, op: Operation): map<DocId, VersionId> {
    match op
    case DeleteDocument(d, _) => Selected(kb) - {d}
    case Replace(d, v, _) => Selected(kb)[d := v]
    case _ => Selected(kb)
  }

  // ---- the engine calls of a job (_execute) ----

  function InsertAll(order: seq<VersionId>, active: set<VersionId>): seq<EngineCall> {
    if order == [] then []
    else InsertAll(order[..|order| - 1], active) + if order[|order| - 1] in active then [Insert(order[|order| - 1])] else []
  }

  function RebuildPlan(kb: KnowledgeBase, selected: map<DocId, VersionId>): seq<EngineCall> {
    [Clear] + InsertAll(kb.order, selected.Values)
  }

  function PlanFor(kb: KnowledgeBase, op: Operation, viaRebuild: bool): seq<EngineCall> {
    match op
    case Ingest(_, v) => [Insert(v)]
    case Replace(_, v, previous) =>
      if viaRebuild then RebuildPlan(kb, SelectedFor(kb, op))
      else (if previous.Some? then [Remove(previous.value)] else []) + [Insert(v)]
    case DeleteDocument(_, current) =>
      if viaRebuild then RebuildPlan(kb, SelectedFor(kb, op)) else if current.Some? then [Remove(current.value)] else []
    case Rebuild(selected) => RebuildPlan(kb, selected) + [Pin]
    case DeleteKnowledgeBase => [Clear]
    case Reuse(_, _) => []
    case Correction => []
  }

  function Effect(index: set<VersionId>, call: EngineCall): set<VersionId> {
    match call
    case Clear => {}
    case Insert(v) => index + {v}
    case Remove(v) => index - {v}
    case Pin => index
  }

  function Outcome(index: set<VersionId>, plan: seq<EngineCall>): set<VersionId>
    decreases |plan|
  {
    if plan == [] then index else Outcome(Effect(index, plan[0]), plan[1..])
  }

  // A rebuild fixes its selection when it starts.
  function Started(kb: KnowledgeBase, op: Operation): Operation {
    if op.Rebuild? then Rebuild(Selected(kb)) else op
  }

  // ---- the steps ----

  predicate HasJob(s: System, k: KbId, j: JobId, status: JobStatus) {
    k in s.bases && j in s.bases[k].kb.jobs && s.bases[k].kb.jobs[j].status == status
  }

  // Only a rebuild runs under a changed index configuration (assert_index_config).
  predicate MayExecute(s: System) {
    && s.worker.Executing? && s.worker.base in s.bases
    && (s.worker.op.Rebuild? || s.bases[s.worker.base].kb.config == s.config)
  }

  predicate Possible(s: System, step: Step) {
    match step
    case CreateBase(k) => k !in s.bases
    case Rename(k) => k in s.bases && s.bases[k].kb.status.Ready?
    case Look(k, d, v) =>
      k in s.bases && var kb := s.bases[k].kb;
      && v in kb.versions && kb.versions[v].status.VersionActive? && kb.versions[v].document == d
      && d in kb.documents && kb.documents[d] == Document(DocActive, Some(v))
    case Begin(k, j, op, expected, _) =>
      k in s.bases && j !in s.bases[k].kb.jobs && CanSetUp(s.bases[k].kb, op)
      && CheckBegin(s.bases[k].kb, expected, op.Rebuild?, if op.Rebuild? then None else Some(s.config)).None?
      && (op.Reuse? ==> exists l :: l in s.lookups && l.base == k && l.document == op.document && l.version == op.version && expected <= l.revision)
    case Retry(k, failed, j, expected, _) =>
      HasJob(s, k, failed, JobStatus.Failed) && j !in s.bases[k].kb.jobs
      && CheckBegin(s.bases[k].kb, expected, true, Some(s.config)).None?
    case Claim(k, j, _) => s.worker.Idle? && !s.interrupted && HasJob(s, k, j, Queued)
    case Call => MayExecute(s) && s.worker.plan != []
    case Refuse =>
      && MayExecute(s) && s.worker.plan != [] && s.worker.plan[0].Remove?
      && (s.worker.op.Replace? || s.worker.op.DeleteDocument?)
    case Fail(_) => s.worker.Executing? && HasJob(s, s.worker.base, s.worker.job, Running)
    case Finish(_) =>
      && MayExecute(s) && s.worker.plan == [] && HasJob(s, s.worker.base, s.worker.job, Running) && CanSettle(s.worker.op)
      && s.bases[s.worker.base].kb.status.Updating?
    case FailLate => s.worker.AckLost? && HasJob(s, s.worker.base, s.worker.job, Succeeded)
    case Crash(_) => true
    case Recover => s.worker.Idle?
    case Drift(_) => s.worker.Idle? && !s.interrupted
    case Purge(k) => s.worker.Idle? && k in s.bases && s.bases[k].kb.status.Deleting?
  }

  function WithRows(s: System, k: KbId, kb: KnowledgeBase): System
    requires k in s.bases
  {
    s.(bases := s.bases[k := s.bases[k].(kb := kb)])
  }

  function Executed(b: Base, call: EngineCall, config: int): Base {
    b.(index := Effect(b.index, call), kb := if call.Pin? then b.kb.(config := config) else b.kb)
  }

  function NewBase(config: int): Base {
    Base(KnowledgeBase(Ready, 0, 0, config, map[], map[], [], map[]), {}, 0, 0, false)
  }

  function DriftedBase(b: Base, config: int): Base {
    b.(kb := Drifted(b.kb, config), drifts := b.drifts + if Drifted(b.kb, config) != b.kb then 1 else 0)
  }

  function After(s: System, step: Step): System
    requires Possible(s, step)
  {
    match step
    case CreateBase(k) => s.(bases := s.bases[k := NewBase(s.config)])
    case Rename(k) => WithRows(s, k, Renamed(s.bases[k].kb))
    case Look(k, d, v) => s.(lookups := s.lookups + {Lookup(k, d, v, s.bases[k].kb.revision)})
    case Begin(k, j, op, _, now) => WithRows(s, k, Begun(s.bases[k].kb, j, op, now))
    case Retry(k, failed, j, _, now) => WithRows(s, k, Retried(s.bases[k].kb, j, s.bases[k].kb.jobs[failed].op, now))
    case Claim(k, j, viaRebuild) =>
      var kb := s.bases[k].kb;
      var op := Started(kb, kb.jobs[j].op);
      WithRows(s, k, WithJobStatus(kb, j, Running)).(worker := Executing(k, j, op, PlanFor(kb, op, viaRebuild)))
    case Call =>
      var w := s.worker;
      s.(bases := s.bases[w.base := Executed(s.bases[w.base], w.plan[0], s.config)], worker := w.(plan := w.plan[1..]))
    case Refuse =>
      var w := s.worker;
      s.(worker := w.(plan := RebuildPlan(s.bases[w.base].kb, SelectedFor(s.bases[w.base].kb, w.op))))
    case Fail(left) =>
      var b := s.bases[s.worker.base];
      s.(bases := s.bases[s.worker.base := b.(kb := FailedJob(b.kb, s.worker.job), index := left)], worker := Idle)
    case Finish(acknowledged) =>
      var w := s.worker;
      WithRows(s, w.base, Finished(s.bases[w.base].kb, w.job, w.op)).(
        worker := if acknowledged then Idle else AckLost(w.base, w.job))
    case FailLate =>
      var b := s.bases[s.worker.base];
      s.(bases := s.bases[s.worker.base := b.(kb := FailedJob(b.kb, s.worker.job), relapses := b.relapses + 1)], worker := Idle)
    case Crash(left) =>
      if s.worker.Executing? && s.worker.base in s.bases then
        s.(bases := s.bases[s.worker.base := s.bases[s.worker.base].(index := left)], worker := Idle, interrupted := true)
      else s.(worker := Idle, interrupted := true)
    case Recover => s.(bases := map k | k in s.bases :: s.bases[k].(kb := Interrupted(s.bases[k].kb)), interrupted := false)
    case Drift(config) => s.(bases := map k | k in s.bases :: DriftedBase(s.bases[k], config), config := config)
    case Purge(k) => s.(bases := s.bases[k := s.bases[k].(kb := Purged(s.bases[k].kb), purged := true)])
  }
}
