// The external index agrees with the rows in every run: whatever a ready base says is active is exactly
// what the index holds, through ingestion, replacement, reuse, deletion, failure, crash and rebuild.

module IndexRuns {
  import opened Options
  import opened KnowledgeRepository
  import opened KnowledgeProtocol
  import opened KnowledgeIndex
  import L = KnowledgeLifecycle

  // ---- the invariant ----

  // Nothing is left of a deleted base: its index is empty and none of its documents stands.
  predicate Gone(b: Base) {
    b.index == {} && forall d :: d in b.kb.documents ==> b.kb.documents[d].status.DocDeleted?
  }

  ghost predicate BaseLaw(b: Base) {
    && WellFormed(b.kb)
    && (b.kb.status.Ready? ==> Agrees(b))
    && (b.kb.status.Deleting? || b.kb.status.Deleted? ==> Gone(b))
    && forall j :: j in b.kb.jobs && b.kb.jobs[j].status.Queued? ==> Waiting(b, b.kb.jobs[j].op)
  }

  predicate WorkLaw(s: System) {
    s.worker.Executing? ==> s.worker.base in s.bases && UnderWay(s.bases[s.worker.base], s.worker.op, s.worker.plan)
  }

  // A duplicate found stays good while the base is ready at the revision it was found at.
  predicate LookupLaw(s: System, l: Lookup) {
    && l.base in s.bases && var kb := s.bases[l.base].kb;
    && l.revision <= kb.revision
    && (l.revision == kb.revision && kb.status.Ready? ==> IsCurrent(kb, l.document, l.version))
  }

  ghost predicate Law(s: System) {
    && (forall k :: k in s.bases ==> BaseLaw(s.bases[k]))
    && WorkLaw(s)
    && (forall l :: l in s.lookups ==> LookupLaw(s, l))
  }

  // A failed job is replayed only where replaying it can settle in agreement.
  predicate Allowed(s: System, step: Step) {
    && !L.Strikes(s, step)
    && (step.Retry? && HasJob(s, step.k, step.failed, JobStatus.Failed) ==>
          Waiting(s.bases[step.k], s.bases[step.k].kb.jobs[step.failed].op))
  }

  lemma OnlyOneLive(jobs: map<JobId, Job>, i: JobId, j: JobId)
    requires Live(jobs) <= 1
    requires i in jobs && (jobs[i].status.Queued? || jobs[i].status.Running?)
    requires j in jobs && (jobs[j].status.Queued? || jobs[j].status.Running?)
    ensures i == j
  {
    if i != j {
      var queued, running := JobsIn(jobs, Queued), JobsIn(jobs, Running);
      assert |queued + running| == Live(jobs) by {
        assert queued !! running;
      }
      Two(queued + running, i, j);
    }
  }

  lemma Two(live: set<JobId>, i: JobId, j: JobId)
    requires i in live && j in live && i != j
    ensures |live| >= 2
  {
    assert {i, j} <= live;
    assert live == {i, j} + (live - {i, j});
  }

  // A base with a running job is updating and has no other live job; one that is not updating has none.
  lemma Busy(kb: KnowledgeBase)
    requires L.StatusLaw(kb)
    ensures !kb.status.Updating? ==> forall j :: j in kb.jobs ==> !kb.jobs[j].status.Queued? && !kb.jobs[j].status.Running?
    ensures forall i, j :: i in kb.jobs && j in kb.jobs && kb.jobs[i].status.Running? && (kb.jobs[j].status.Running? || kb.jobs[j].status.Queued?) ==>
              i == j && kb.status.Updating?
    ensures forall i, j :: i in kb.jobs && j in kb.jobs && kb.jobs[i].status.Queued? && kb.jobs[j].status.Queued? ==> i == j && kb.status.Updating?
  {
    hide Live;
    L.NoLiveJobs(kb.jobs);
    forall i, j | i in kb.jobs && j in kb.jobs && (kb.jobs[i].status.Running? || kb.jobs[i].status.Queued?) && (kb.jobs[j].status.Running? || kb.jobs[j].status.Queued?)
      ensures i == j && kb.status.Updating?
    {
      OnlyOneLive(kb.jobs, i, j);
    }
  }

  ghost predicate NoneQueued(kb: KnowledgeBase) {
    forall j :: j in kb.jobs ==> !kb.jobs[j].status.Queued?
  }

  // Nothing more is asked of a base that is neither ready nor waiting for a queued job.
  lemma OffDuty(x: KnowledgeBase, after: Base)
    requires SameRows(x, after.kb) && WellFormed(x) && NoneQueued(after.kb)
    requires !after.kb.status.Ready? && !after.kb.status.Deleting? && !after.kb.status.Deleted?
    ensures BaseLaw(after)
  {
    hide WellFormed, AgreeApart, SameRows;
    SameForm(x, after.kb);
  }

  lemma ReadyStays(before: Base, after: Base)
    requires BaseLaw(before) && SameRows(before.kb, after.kb) && after.index == before.index
    requires before.kb.status.Ready? && after.kb.status.Ready? && NoneQueued(after.kb)
    ensures BaseLaw(after)
  {
    hide WellFormed, AgreeApart, ActiveSet, SameRows;
    SameForm(before.kb, after.kb);
    SameAgreeApart(before.kb, after.kb, None, {});
    SameActive(before.kb, after.kb);
  }

  // ---- one step ----

  ghost predicate Before(s: System, step: Step) {
    L.Inv(s) && L.Settled(s) && Law(s) && Possible(s, step) && Allowed(s, step)
  }

  lemma BeginKeepsLaw(s: System, step: Step)
    requires Before(s, step) && step.Begin?
    ensures BaseLaw(After(s, step).bases[step.k])
  {
    hide WellFormed, AgreeApart, ActiveSet, Live, Selected, CanSetUp, Waiting;
    var b, op := s.bases[step.k], step.op;
    var after := After(s, step).bases[step.k];
    assert BaseLaw(b) && L.StatusLaw(b.kb);
    Busy(b.kb);
    SettingUpKeepsForm(b.kb, op);
    L.SettingUpKeepsCounters(b.kb, op);
    assert SameRows(SetUp(b.kb, op), after.kb);
    SameForm(SetUp(b.kb, op), after.kb);
    if op.Rebuild? {
      RebuildWaits(after, op);
    } else {
      if op.Reuse? {
        ReuseFindsCurrent(s, step);
      }
      SettingUpPrepares(b, op);
      SameWaiting(b.(kb := SetUp(b.kb, op)), after, op);
    }
  }

  lemma RebuildWaits(b: Base, op: Operation)
    requires op.Rebuild?
    ensures Waiting(b, op)
  {
  }

  lemma RetryKeepsLaw(s: System, step: Step)
    requires Before(s, step) && step.Retry?
    ensures BaseLaw(After(s, step).bases[step.k])
  {
    hide WellFormed, AgreeApart, ActiveSet, Live, Selected, CanSetUp, Waiting;
    var b := s.bases[step.k];
    var after := After(s, step).bases[step.k];
    assert BaseLaw(b) && L.StatusLaw(b.kb);
    Busy(b.kb);
    SameForm(b.kb, after.kb);
    SameWaiting(b, after, b.kb.jobs[step.failed].op);
  }

  // The revision check makes a reuse that was looked up at this revision find the version still current.
  lemma ReuseFindsCurrent(s: System, step: Step)
    requires Before(s, step) && step.Begin? && step.op.Reuse?
    ensures IsCurrent(s.bases[step.k].kb, step.op.document, step.op.version)
  {
    hide L.Inv, L.Settled, BaseLaw, WorkLaw, CanSetUp;
    var l :| l in s.lookups && l.base == step.k && l.document == step.op.document && l.version == step.op.version && step.expected <= l.revision;
    assert LookupLaw(s, l);
  }

  lemma DocumentsDeleted(kb: KnowledgeBase, op: Operation)
    requires op.DeleteKnowledgeBase?
    ensures var after := Settled(kb, op); forall d :: d in after.documents ==> after.documents[d].status.DocDeleted?
  {
  }

  lemma FinishKeepsLaw(s: System, step: Step)
    requires Before(s, step) && step.Finish?
    ensures BaseLaw(After(s, step).bases[s.worker.base])
  {
    hide WellFormed, AgreeApart, ActiveSet, Live, Selected, Settled, Prepared, RebuildPlan, SelectedFor;
    var k, op := s.worker.base, s.worker.op;
    var b := s.bases[k];
    var after := After(s, step).bases[k];
    assert BaseLaw(b) && L.StatusLaw(b.kb) && HasJob(s, k, s.worker.job, Running);
    Busy(b.kb);
    L.SettlingKeepsCounters(b.kb, op);
    SettlingKeepsForm(b.kb, op);
    assert SameRows(Settled(b.kb, op), after.kb);
    SameForm(Settled(b.kb, op), after.kb);
    assert Outcome(b.index, s.worker.plan) == b.index;
    if !op.DeleteKnowledgeBase? {
      SettlingAgrees(b.kb, op);
      SameAgreeApart(Settled(b.kb, op), after.kb, None, {});
      SameActive(Settled(b.kb, op), after.kb);
    } else {
      DocumentsDeleted(b.kb, op);
    }
  }

  // The steps of the worker that leave its base updating or dirty; a late failure finds it in no update.
  lemma WorkingKeepsLaw(s: System, step: Step)
    requires Before(s, step) && (step.Claim? || step.Call? || step.Refuse? || step.Fail? || step.FailLate? || step.Crash?)
    requires step.Crash? ==> s.worker.Executing?
    ensures var k := if step.Claim? then step.k else s.worker.base;
            k in s.bases && k in After(s, step).bases && BaseLaw(After(s, step).bases[k])
  {
    hide WellFormed, AgreeApart, ActiveSet, Live, Selected, Settled, PlanFor, RebuildPlan, SelectedFor, Outcome;
    var k := if step.Claim? then step.k else s.worker.base;
    var j := if step.Claim? then step.job else s.worker.job;
    assert L.WorkerLaw(s);
    var b, after := s.bases[k], After(s, step).bases[k];
    assert BaseLaw(b) && L.StatusLaw(b.kb);
    Busy(b.kb);
    OffDuty(b.kb, after);
  }

  // Renaming, recovery, drift, purging and creation.
  lemma OtherKeepsLaw(s: System, step: Step, k: KbId)
    requires Before(s, step) && k in After(s, step).bases
    requires step.Rename? || step.Recover? || step.Drift? || step.Purge? || step.CreateBase?
    requires step.Rename? || step.Purge? ==> k == step.k
    ensures BaseLaw(After(s, step).bases[k])
  {
    hide Live, Selected, WellFormed, AgreeApart, L.StatusLaw, L.CountLaw;
    if k !in s.bases {
      EmptyRows(After(s, step).bases[k]);
    } else {
      var b := s.bases[k];
      assert BaseLaw(b) && L.StatusLaw(b.kb);
      Busy(b.kb);
      if step.Rename? {
        ReadyStays(b, After(s, step).bases[k]);
      } else if step.Recover? {
        RecoverKeepsLaw(b);
      } else if step.Drift? {
        DriftKeepsLaw(b, step.config);
      } else if step.Purge? {
        EmptyRows(After(s, step).bases[k]);
      }
    }
  }

  lemma EmptyRows(b: Base)
    requires b.kb.documents == map[] && b.kb.versions == map[] && b.kb.order == [] && NoneQueued(b.kb)
    requires b.index == {}
    ensures BaseLaw(b)
  {
  }

  lemma RecoverKeepsLaw(b: Base)
    requires BaseLaw(b) && L.StatusLaw(b.kb)
    ensures BaseLaw(b.(kb := Interrupted(b.kb)))
  {
    hide WellFormed, AgreeApart, L.StatusLaw, Prepared, ActiveSet;
    Busy(b.kb);
    if HasRunning(b.kb) {
      OffDuty(b.kb, b.(kb := Interrupted(b.kb)));
    }
  }

  lemma DriftKeepsLaw(b: Base, config: int)
    requires BaseLaw(b) && L.StatusLaw(b.kb)
    ensures BaseLaw(DriftedBase(b, config))
  {
    hide WellFormed, AgreeApart, L.StatusLaw, Prepared, ActiveSet;
    Busy(b.kb);
    if Drifted(b.kb, config) != b.kb {
      OffDuty(b.kb, DriftedBase(b, config));
    }
  }

  lemma StepKeepsBases(s: System, step: Step, k: KbId)
    requires Before(s, step) && k in After(s, step).bases
    ensures BaseLaw(After(s, step).bases[k])
  {
    hide BaseLaw, WorkLaw, PlanFor, RebuildPlan, SelectedFor, Settled, CanSetUp, CheckBegin, Begun, Purged, Interrupted, Live, L.StatusLaw, L.CountLaw;
    if step.Recover? || step.Drift? || step.CreateBase? {
      OtherKeepsLaw(s, step, k);
    } else if L.Touched(s, step) != Some(k) {
      L.Untouched(s, step, k);
    } else if step.Rename? || step.Purge? {
      OtherKeepsLaw(s, step, k);
    } else if step.Begin? {
      BeginKeepsLaw(s, step);
    } else if step.Retry? {
      RetryKeepsLaw(s, step);
    } else if step.Finish? {
      FinishKeepsLaw(s, step);
    } else if step.Crash? && s.worker.AckLost? {
      assert After(s, step).bases == s.bases;
    } else {
      WorkingKeepsLaw(s, step);
    }
  }

  lemma SameUnderWay(before: Base, after: Base, op: Operation, plan: seq<EngineCall>, rest: seq<EngineCall>)
    requires UnderWay(before, op, plan) && SameRows(before.kb, after.kb)
    requires Outcome(after.index, rest) == Outcome(before.index, plan)
    ensures UnderWay(after, op, rest)
  {
    hide Prepared, Settled, Outcome, ActiveSet;
    SamePrepared(before.kb, after.kb, op);
    SameSettled(before.kb, after.kb, op);
    SameActive(Settled(before.kb, op), Settled(after.kb, op));
  }

  lemma ClaimKeepsWork(s: System, step: Step)
    requires Before(s, step) && step.Claim?
    ensures WorkLaw(After(s, step))
  {
    hide WellFormed, AgreeApart, ActiveSet, Live, Selected, Settled, PlanFor, Outcome;
    var b := s.bases[step.k];
    assert BaseLaw(b);
    var op := Started(b.kb, b.kb.jobs[step.job].op);
    if op.DeleteKnowledgeBase? {
      DeletionEmpties(b.kb, b.index, step.viaRebuild);
    } else if CanSettle(op) {
      PlanReaches(b, op, step.viaRebuild);
    }
    var after := After(s, step).bases[step.k];
    var plan := PlanFor(b.kb, op, step.viaRebuild);
    assert UnderWay(b, op, plan);
    SameUnderWay(b, after, op, plan, plan);
  }

  lemma CallKeepsWork(s: System, step: Step)
    requires Before(s, step) && (step.Call? || step.Refuse?)
    ensures WorkLaw(After(s, step))
  {
    hide WellFormed, AgreeApart, ActiveSet, L.Inv, L.Settled, Selected, Settled, RebuildPlan, SelectedFor, Prepared;
    var b, op, plan := s.bases[s.worker.base], s.worker.op, s.worker.plan;
    assert BaseLaw(b) && UnderWay(b, op, plan);
    if step.Call? {
      SameUnderWay(b, After(s, step).bases[s.worker.base], op, plan, plan[1..]);
    } else if CanSettle(op) {
      FallbackReaches(b.kb, b.index, op);
    }
  }

  lemma StepKeepsWork(s: System, step: Step)
    requires Before(s, step)
    ensures WorkLaw(After(s, step))
  {
    hide BaseLaw, PlanFor, RebuildPlan, SelectedFor, Settled, CanSetUp, SetUp, Purged, Interrupted, Live, L.CountLaw, UnderWay;
    if step.Claim? {
      ClaimKeepsWork(s, step);
    } else if step.Call? || step.Refuse? {
      CallKeepsWork(s, step);
    } else if s.worker.Executing? && After(s, step).worker.Executing? {
      assert L.WorkerLaw(s) && L.StatusLaw(s.bases[s.worker.base].kb);
      Busy(s.bases[s.worker.base].kb);
    }
  }

  // A base that is ready at the revision it had before was ready with the same rows before.
  lemma ReadyAtSameRevision(s: System, step: Step, k: KbId)
    requires Possible(s, step) && k in s.bases
    ensures k in After(s, step).bases
    ensures var x, y := s.bases[k].kb, After(s, step).bases[k].kb;
            x.revision <= y.revision && (y.status.Ready? && x.revision == y.revision ==> x.status.Ready? && SameRows(x, y))
  {
    hide PlanFor, RebuildPlan, SelectedFor, Settled, CanSetUp, CheckBegin;
    if step.Begin? {
      L.SettingUpKeepsCounters(s.bases[step.k].kb, step.op);
    } else if step.Finish? {
      L.SettlingKeepsCounters(s.bases[s.worker.base].kb, s.worker.op);
    }
  }

  lemma StepKeepsLookup(s: System, step: Step, l: Lookup)
    requires Before(s, step) && l in After(s, step).lookups
    ensures LookupLaw(After(s, step), l)
  {
    hide BaseLaw, WorkLaw, PlanFor, RebuildPlan, SelectedFor, Settled, CanSetUp, SetUp, Purged, Interrupted, L.Inv, L.Settled;
    if l in s.lookups {
      assert LookupLaw(s, l);
      ReadyAtSameRevision(s, step, l.base);
    }
  }

  lemma StepKeepsLaw(s: System, step: Step)
    requires Before(s, step)
    ensures Law(After(s, step))
  {
    hide BaseLaw, WorkLaw, LookupLaw, Possible, After, L.Inv, L.Settled;
    forall k | k in After(s, step).bases ensures BaseLaw(After(s, step).bases[k]) {
      StepKeepsBases(s, step, k);
    }
    StepKeepsWork(s, step);
    forall l | l in After(s, step).lookups ensures LookupLaw(After(s, step), l) {
      StepKeepsLookup(s, step, l);
    }
  }

  // ---- every run ----

  ghost predicate AllAllowed(states: seq<System>, steps: seq<Step>, n: nat)
    requires n <= |steps| && |states| == |steps| + 1
  {
    forall i :: 0 <= i < n ==> Allowed(states[i], steps[i])
  }

  lemma {:induction false} ReachableLaw(states: seq<System>, steps: seq<Step>, n: nat)
    requires L.Run(states, steps) && n < |states| && AllAllowed(states, steps, n)
    ensures Law(states[n])
  {
    hide Possible, After, L.Inv, L.Settled, BaseLaw, L.Strikes, Waiting;
    if n == 0 {
      assert states[0].bases == map[] && states[0].worker.Idle? && states[0].lookups == {};
    } else {
      assert AllAllowed(states, steps, n - 1);
      ReachableLaw(states, steps, n - 1);
      L.ReachableInv(states, steps, n - 1);
      assert L.NoStrike(states, steps, n - 1) by {
        assert forall i :: 0 <= i < n - 1 ==> Allowed(states[i], steps[i]);
      }
      L.NoStrikeKeepsLaw(states, steps, n - 1);
      assert L.Follows(states[n - 1], steps[n - 1], states[n]) && Allowed(states[n - 1], steps[n - 1]);
      StepKeepsLaw(states[n - 1], steps[n - 1]);
    }
  }

  // Main result: in every reachable state a ready base's index holds exactly its active versions,
  // every active document has exactly one active version, which is its current one, and neither a
  // version nor a document is pending, whatever failed, crashed, was refused, retried or rebuilt before.
  lemma IndexAgreesWithRows(states: seq<System>, steps: seq<Step>, i: nat, k: KbId)
    requires L.Run(states, steps) && i < |states| && AllAllowed(states, steps, i)
    requires k in states[i].bases && states[i].bases[k].kb.status.Ready?
    ensures var b := states[i].bases[k];
            && (forall v :: v in b.index <==> v in b.kb.versions && b.kb.versions[v].status.VersionActive?)
            && (forall d, v :: d in b.kb.documents && b.kb.documents[d].status.DocActive? ==>
                  ((v in b.index && b.kb.versions[v].document == d) <==> b.kb.documents[d].current == Some(v)))
            && (forall v :: v in b.index ==> b.kb.versions[v].document in b.kb.documents && b.kb.documents[b.kb.versions[v].document].status.DocActive?)
            && (forall v :: v in b.kb.versions ==> !b.kb.versions[v].status.VersionPending?)
            && (forall d :: d in b.kb.documents ==> !b.kb.documents[d].status.DocPending?)
  {
    hide L.Run, AllAllowed, WellFormed;
    ReachableLaw(states, steps, i);
    var b := states[i].bases[k];
    assert BaseLaw(b);
    forall d | d in b.kb.documents && b.kb.documents[d].status.DocActive? ensures HasCurrent(b.kb, d) {
    }
  }

  // Main result: in every reachable state the index of a base that is being deleted or was deleted is empty,
  // and none of its documents stands.
  lemma DeletedBasesAreGone(states: seq<System>, steps: seq<Step>, i: nat, k: KbId)
    requires L.Run(states, steps) && i < |states| && AllAllowed(states, steps, i)
    requires k in states[i].bases && (states[i].bases[k].kb.status.Deleting? || states[i].bases[k].kb.status.Deleted?)
    ensures var b := states[i].bases[k];
            b.index == {} && forall d :: d in b.kb.documents ==> b.kb.documents[d].status.DocDeleted?
  {
    hide L.Run, AllAllowed, WellFormed, Agrees, Waiting;
    ReachableLaw(states, steps, i);
    assert BaseLaw(states[i].bases[k]);
  }
}
