// The life of a knowledge base over every run: when it is updating, what its epoch counts,
// and why an unchanged epoch vouches for the evidence read in between.

module KnowledgeLifecycle {
  import opened Options
  import opened KnowledgeRepository
  import opened KnowledgeProtocol

  lemma LiveInterrupted(kb: KnowledgeBase)
    ensures var after := Interrupted(kb);
            && Live(after.jobs) == Live(kb.jobs) - Tally(kb.jobs, Running)
            && Tally(after.jobs, JobStatus.Failed) == Tally(kb.jobs, JobStatus.Failed) + Tally(kb.jobs, Running)
            && (HasRunning(kb) <==> Tally(kb.jobs, Running) > 0)
  {
    var jobs, after := kb.jobs, Interrupted(kb).jobs;
    var running := JobsIn(jobs, Running);
    if HasRunning(kb) {
      var j :| j in jobs && jobs[j].status.Running?;
      assert j in running;
      assert JobsIn(after, Queued) == JobsIn(jobs, Queued);
      assert JobsIn(after, Running) == {};
      assert JobsIn(after, JobStatus.Failed) == JobsIn(jobs, JobStatus.Failed) + running;
    } else {
      assert running == {};
    }
  }

  // ---- the laws ----

  // A base is updating exactly while it has exactly one queued or running job, and never has two.
  predicate StatusLaw(kb: KnowledgeBase) {
    Live(kb.jobs) == One(kb.status.Updating?)
  }

  // Until its rows are purged, a base's epoch counts its revisions, its failed and its live jobs
  // and its configuration drifts; a settled job failed afterwards is a failed job no epoch paid for.
  predicate CountLaw(b: Base) {
    !b.purged ==>
      b.kb.epoch + b.relapses == b.kb.revision + Tally(b.kb.jobs, JobStatus.Failed) + Live(b.kb.jobs) + b.drifts
  }

  // The worker's job is the one running job, unless the process was interrupted.
  predicate WorkerLaw(s: System) {
    match s.worker
    case Executing(k, j, op, _) => !s.interrupted && HasJob(s, k, j, Running)
    case AckLost(k, j) => !s.interrupted && HasJob(s, k, j, Succeeded)
    case Idle => true
  }

  ghost predicate Inv(s: System) {
    WorkerLaw(s) && forall k :: k in s.bases ==> CountLaw(s.bases[k])
  }

  ghost predicate Settled(s: System) {
    && (forall k :: k in s.bases ==> StatusLaw(s.bases[k].kb))
    && (forall k, j :: HasJob(s, k, j, Running) ==> s.interrupted || (s.worker.Executing? && s.worker.base == k && s.worker.job == j))
  }

  // The worker fails a job it had finished while the base is updating for another one: the guard that
  // failing a job lacks.
  predicate Strikes(s: System, step: Step) {
    step.FailLate? && s.worker.AckLost? && s.worker.base in s.bases && s.bases[s.worker.base].kb.status.Updating?
  }

  // ---- one step ----

  // The base a step works on, when it works on one.
  function Touched(s: System, step: Step): Option<KbId> {
    match step
    case CreateBase(k) => Some(k)
    case Rename(k) => Some(k)
    case Begin(k, _, _, _, _) => Some(k)
    case Retry(k, _, _, _, _) => Some(k)
    case Claim(k, _, _) => Some(k)
    case Purge(k) => Some(k)
    case Look(_, _, _) => None
    case _ => if s.worker.Executing? || s.worker.AckLost? then Some(s.worker.base) else None
  }

  lemma Untouched(s: System, step: Step, k: KbId)
    requires Possible(s, step) && k in s.bases && Touched(s, step) != Some(k) && !step.Recover? && !step.Drift?
    ensures k in After(s, step).bases && After(s, step).bases[k] == s.bases[k]
  {
  }

  lemma SettlingKeepsCounters(kb: KnowledgeBase, op: Operation)
    ensures var after := KnowledgeRepository.Settled(kb, op);
            after.jobs == kb.jobs && after.epoch == kb.epoch && after.revision == kb.revision && after.config == kb.config
  {
  }

  lemma SettingUpKeepsCounters(kb: KnowledgeBase, op: Operation)
    ensures var after := SetUp(kb, op);
            after.jobs == kb.jobs && after.epoch == kb.epoch && after.revision == kb.revision && after.config == kb.config
  {
  }

  lemma JobStepCounts(s: System, step: Step)
    requires Inv(s) && Possible(s, step) && Touched(s, step).Some? && !step.Drift? && !step.Recover? && !step.Purge? && !step.CreateBase?
    ensures var k := Touched(s, step).value;
            k in After(s, step).bases && CountLaw(After(s, step).bases[k])
  {
    hide PlanFor, RebuildPlan, SelectedFor, KnowledgeRepository.Settled, Tally, SetUp, CanSetUp, CheckBegin;
    var k := Touched(s, step).value;
    var jobs := s.bases[k].kb.jobs;
    match step {
      case Begin(_, j, op, _, now) =>
        SettingUpKeepsCounters(s.bases[k].kb, op);
        LiveSet(jobs, j, Job(op, Queued, now));
      case Retry(_, failed, j, _, now) => LiveSet(jobs, j, Job(jobs[failed].op, Queued, now));
      case Claim(_, j, _) => LiveSet(jobs, j, jobs[j].(status := Running));
      case Fail(_) => LiveSet(jobs, s.worker.job, jobs[s.worker.job].(status := JobStatus.Failed));
      case Finish(_) =>
        SettlingKeepsCounters(s.bases[k].kb, s.worker.op);
        LiveSet(jobs, s.worker.job, jobs[s.worker.job].(status := Succeeded));
      case FailLate => LiveSet(jobs, s.worker.job, jobs[s.worker.job].(status := JobStatus.Failed));
      case _ =>
    }
  }

  lemma StepCounts(s: System, step: Step, k: KbId)
    requires Inv(s) && Possible(s, step) && k in After(s, step).bases
    ensures CountLaw(After(s, step).bases[k])
  {
    hide PlanFor, RebuildPlan, SelectedFor, KnowledgeRepository.Settled, Tally, Begun, Retried;
    if step.Drift? {
    } else if step.Recover? {
      LiveInterrupted(s.bases[k].kb);
    } else if step.CreateBase? {
      if k == step.k {
        NoJobs();
      }
    } else if Touched(s, step) != Some(k) {
      Untouched(s, step, k);
    } else if !step.Purge? {
      JobStepCounts(s, step);
    }
  }

  lemma NoJobs()
    ensures Live(map[]) == 0 && Tally(map[], JobStatus.Failed) == 0
  {
    assert forall status :: JobsIn(map[], status) == {};
  }

  lemma StepKeepsWorker(s: System, step: Step)
    requires Inv(s) && Possible(s, step)
    ensures WorkerLaw(After(s, step))
  {
    hide PlanFor, RebuildPlan, SelectedFor, CountLaw, CheckBegin, CanSetUp;
    if step.Finish? {
      SettlingKeepsCounters(s.bases[s.worker.base].kb, s.worker.op);
    }
  }

  // A retry opens the failed job's operation once more as a new job, at the next epoch, and changes no row, index
  // or other job.
  lemma RetryRepeats(s: System, step: Step)
    requires step.Retry? && Possible(s, step)
    ensures var x, y := s.bases[step.k], After(s, step).bases[step.k];
            && y == x.(kb := y.kb) && SameRows(x.kb, y.kb)
            && y.kb.status.Updating? && y.kb.epoch == x.kb.epoch + 1 && y.kb.revision == x.kb.revision && y.kb.config == x.kb.config
            && y.kb.jobs == x.kb.jobs[step.job := Job(x.kb.jobs[step.failed].op, Queued, step.now)]
    ensures forall k :: k in s.bases && k != step.k ==> k in After(s, step).bases && After(s, step).bases[k] == s.bases[k]
  {
  }

  // ---- conservation over runs ----

  ghost predicate Run(states: seq<System>, steps: seq<Step>) {
    && |states| == |steps| + 1
    && (exists config :: states[0] == System(map[], Idle, false, config, {}))
    && forall i :: 0 <= i < |steps| ==> Follows(states[i], steps[i], states[i + 1])
  }

  ghost predicate Follows(s: System, step: Step, next: System) {
    Possible(s, step) && next == After(s, step)
  }

  lemma {:induction false} ReachableInv(states: seq<System>, steps: seq<Step>, i: nat)
    requires Run(states, steps) && i < |states|
    ensures Inv(states[i])
  {
    hide Possible, After, WorkerLaw, CountLaw;
    if i == 0 {
      EmptyInv(states[0]);
    } else {
      ReachableInv(states, steps, i - 1);
      assert Follows(states[i - 1], steps[i - 1], states[i]);
      StepKeepsWorker(states[i - 1], steps[i - 1]);
      forall k | k in states[i].bases ensures CountLaw(states[i].bases[k]) {
        StepCounts(states[i - 1], steps[i - 1], k);
      }
    }
  }

  lemma EmptyInv(s: System)
    requires s.bases == map[] && s.worker.Idle?
    ensures Inv(s) && Settled(s)
  {
  }

  // Main result: in every reachable state, with crashes, restarts, retries and lost
  // acknowledgements, a base that was not purged satisfies
  // epoch + relapses == revision + failed jobs + live jobs + drifts.
  lemma EpochsAreConserved(states: seq<System>, steps: seq<Step>, i: nat, k: KbId)
    requires Run(states, steps) && i < |states| && k in states[i].bases && !states[i].bases[k].purged
    ensures var b := states[i].bases[k];
            b.kb.epoch + b.relapses == b.kb.revision + Tally(b.kb.jobs, JobStatus.Failed) + Live(b.kb.jobs) + b.drifts
  {
    ReachableInv(states, steps, i);
    assert CountLaw(states[i].bases[k]);
  }

  // ---- updating means one live job ----

  lemma TallyZero(jobs: map<JobId, Job>, status: JobStatus)
    ensures Tally(jobs, status) == 0 <==> forall j :: j in jobs ==> jobs[j].status != status
  {
    assert forall j :: j in JobsIn(jobs, status) <==> j in jobs && jobs[j].status == status;
  }

  lemma NoLiveJobs(jobs: map<JobId, Job>)
    ensures Live(jobs) == 0 <==> forall j :: j in jobs ==> !jobs[j].status.Queued? && !jobs[j].status.Running?
  {
    TallyZero(jobs, Queued);
    TallyZero(jobs, Running);
  }

  lemma JobStepStatus(s: System, step: Step)
    requires Inv(s) && Settled(s) && Possible(s, step) && Touched(s, step).Some? && !step.Drift? && !step.Recover? && !Strikes(s, step)
    ensures var k := Touched(s, step).value;
            k in After(s, step).bases && StatusLaw(After(s, step).bases[k].kb)
  {
    hide PlanFor, RebuildPlan, SelectedFor, KnowledgeRepository.Settled, Tally, CountLaw, SetUp, CanSetUp;
    var k := Touched(s, step).value;
    var jobs := if k in s.bases then s.bases[k].kb.jobs else map[];
    NoLiveJobs(jobs);
    match step {
      case Begin(_, j, op, _, now) =>
        SettingUpKeepsCounters(s.bases[k].kb, op);
        LiveSet(jobs, j, Job(op, Queued, now));
      case Retry(_, failed, j, _, now) => LiveSet(jobs, j, Job(jobs[failed].op, Queued, now));
      case Claim(_, j, _) => LiveSet(jobs, j, jobs[j].(status := Running));
      case Fail(_) => LiveSet(jobs, s.worker.job, jobs[s.worker.job].(status := JobStatus.Failed));
      case Finish(_) =>
        SettlingKeepsCounters(s.bases[k].kb, s.worker.op);
        LiveSet(jobs, s.worker.job, jobs[s.worker.job].(status := Succeeded));
      case FailLate => LiveSet(jobs, s.worker.job, jobs[s.worker.job].(status := JobStatus.Failed));
      case Purge(_) => NoLiveJobs(Purged(s.bases[k].kb).jobs);
      case CreateBase(_) => NoJobs();
      case _ =>
    }
  }

  lemma StepStatus(s: System, step: Step, k: KbId)
    requires Inv(s) && Settled(s) && Possible(s, step) && k in After(s, step).bases && !Strikes(s, step)
    ensures StatusLaw(After(s, step).bases[k].kb)
  {
    hide PlanFor, RebuildPlan, SelectedFor, KnowledgeRepository.Settled, Tally, Begun, Retried;
    if step.Drift? {
    } else if step.Recover? {
      LiveInterrupted(s.bases[k].kb);
    } else if Touched(s, step) != Some(k) {
      if k in s.bases {
        Untouched(s, step, k);
      }
    } else {
      JobStepStatus(s, step);
    }
  }

  lemma StepRunning(s: System, step: Step, k: KbId, j: JobId)
    requires Inv(s) && Settled(s) && Possible(s, step) && HasJob(After(s, step), k, j, Running)
    ensures var next := After(s, step);
            next.interrupted || (next.worker.Executing? && next.worker.base == k && next.worker.job == j)
  {
    hide PlanFor, RebuildPlan, SelectedFor, KnowledgeRepository.Settled, CountLaw, StatusLaw, CheckBegin, CanSetUp;
    if step.Finish? {
      SettlingKeepsCounters(s.bases[s.worker.base].kb, s.worker.op);
    }
    if HasJob(s, k, j, Running) {
      assert s.interrupted || (s.worker.Executing? && s.worker.base == k && s.worker.job == j);
    }
  }

  lemma StepSettled(s: System, step: Step)
    requires Inv(s) && Settled(s) && Possible(s, step) && !Strikes(s, step)
    ensures Settled(After(s, step))
  {
    hide PlanFor, RebuildPlan, SelectedFor, KnowledgeRepository.Settled, CountLaw, StatusLaw, CheckBegin, CanSetUp;
    forall k | k in After(s, step).bases ensures StatusLaw(After(s, step).bases[k].kb) {
      StepStatus(s, step, k);
    }
    forall k, j | HasJob(After(s, step), k, j, Running)
      ensures var next := After(s, step);
              next.interrupted || (next.worker.Executing? && next.worker.base == k && next.worker.job == j)
    {
      StepRunning(s, step, k, j);
    }
  }

  // No late failure has struck an updating base before the n-th state.
  ghost predicate NoStrike(states: seq<System>, steps: seq<Step>, n: nat)
    requires n <= |steps| && |states| == |steps| + 1
  {
    forall i :: 0 <= i < n ==> !Strikes(states[i], steps[i])
  }

  lemma {:induction false} NoStrikeKeepsLaw(states: seq<System>, steps: seq<Step>, n: nat)
    requires Run(states, steps) && n < |states| && NoStrike(states, steps, n)
    ensures Settled(states[n])
  {
    hide Possible, After, Live, Strikes;
    if n == 0 {
      EmptyInv(states[0]);
    } else {
      assert NoStrike(states, steps, n - 1);
      NoStrikeKeepsLaw(states, steps, n - 1);
      ReachableInv(states, steps, n - 1);
      assert Follows(states[n - 1], steps[n - 1], states[n]) && !Strikes(states[n - 1], steps[n - 1]);
      StepSettled(states[n - 1], steps[n - 1]);
    }
  }

  lemma StrikeBreaksLaw(s: System, step: Step)
    requires Inv(s) && Possible(s, step) && Strikes(s, step) && StatusLaw(s.bases[s.worker.base].kb)
    ensures !StatusLaw(After(s, step).bases[s.worker.base].kb)
  {
    hide Tally;
    var jobs := s.bases[s.worker.base].kb.jobs;
    LiveSet(jobs, s.worker.job, jobs[s.worker.job].(status := JobStatus.Failed));
  }

  // In every state up to the n-th, every base is updating exactly while one of its jobs is queued or
  // running, and never has two such jobs.
  ghost predicate LawfulUpTo(states: seq<System>, n: nat)
    requires n < |states|
  {
    forall i, k :: 0 <= i <= n && k in states[i].bases ==> StatusLaw(states[i].bases[k].kb)
  }

  // Main result: along any run a base is updating if and only if it has exactly one live job, and never
  // has two, exactly as long as no late failure strikes an updating base.
  lemma UpdatingMeansOneLiveJob(states: seq<System>, steps: seq<Step>, n: nat)
    requires Run(states, steps) && n < |states|
    ensures LawfulUpTo(states, n) <==> NoStrike(states, steps, n)
  {
    hide StatusLaw, Possible, After, Strikes;
    if NoStrike(states, steps, n) {
      forall i, k | 0 <= i <= n && k in states[i].bases ensures StatusLaw(states[i].bases[k].kb) {
        assert NoStrike(states, steps, i);
        NoStrikeKeepsLaw(states, steps, i);
      }
    }
    if LawfulUpTo(states, n) {
      forall i | 0 <= i < n ensures !Strikes(states[i], steps[i]) {
        LawfulStep(states, steps, n, i);
      }
    }
  }

  lemma LawfulStep(states: seq<System>, steps: seq<Step>, n: nat, i: nat)
    requires Run(states, steps) && i < n < |states| && LawfulUpTo(states, n)
    ensures !Strikes(states[i], steps[i])
  {
    hide StatusLaw, Possible, After;
    if Strikes(states[i], steps[i]) {
      var k := states[i].worker.base;
      ReachableInv(states, steps, i);
      assert Follows(states[i], steps[i], states[i + 1]);
      StrikeKeepsBase(states[i], steps[i]);
      assert StatusLaw(states[i].bases[k].kb) && StatusLaw(states[i + 1].bases[k].kb);
      StrikeBreaksLaw(states[i], steps[i]);
    }
  }

  lemma StrikeKeepsBase(s: System, step: Step)
    requires Possible(s, step) && Strikes(s, step)
    ensures s.worker.base in After(s, step).bases
  {
  }

  // The acknowledgement matters: the worker fails the job of a lost one after releasing the base, so
  // a job opened in between is left queued on a base that is no longer updating.
  lemma LostAckLeavesAQueuedJob(s: System, begin: Step)
    requires Inv(s) && s.worker.AckLost? && s.worker.base in s.bases && StatusLaw(s.bases[s.worker.base].kb)
    requires begin.Begin? && begin.k == s.worker.base && Possible(s, begin)
    ensures Possible(After(s, begin), FailLate)
    ensures var kb := After(After(s, begin), FailLate).bases[begin.k].kb;
            kb.status.Dirty? && Live(kb.jobs) == 1 && !StatusLaw(kb)
  {
    hide CanSetUp, CheckBegin, SetUp, Tally;
    var k, j := begin.k, s.worker.job;
    var jobs := s.bases[k].kb.jobs;
    var begun := jobs[begin.job := Job(begin.op, Queued, begin.now)];
    BeginStatus(s, begin);
    LiveSet(jobs, begin.job, Job(begin.op, Queued, begin.now));
    LiveSet(begun, j, begun[j].(status := JobStatus.Failed));
  }

  lemma BeginStatus(s: System, begin: Step)
    requires begin.Begin? && Possible(s, begin)
    ensures !s.bases[begin.k].kb.status.Updating? && begin.job !in s.bases[begin.k].kb.jobs
    ensures After(s, begin).bases[begin.k].kb.jobs == s.bases[begin.k].kb.jobs[begin.job := Job(begin.op, Queued, begin.now)]
    ensures After(s, begin).worker == s.worker
  {
  }

  // Such a state is reachable: one correction whose acknowledgement is lost, and a second one possible.
  lemma LostAckIsReachable() returns (states: seq<System>, steps: seq<Step>)
    ensures Run(states, steps) && |steps| == 4 && |states| == 5
    ensures states[4].worker.AckLost? && states[4].worker.base == 0 && 0 in states[4].bases
    ensures StatusLaw(states[4].bases[0].kb) && Possible(states[4], Begin(0, 1, Correction, 1, 1))
  {
    hide Follows, Possible, StatusLaw, Run;
    var empty := System(map[], Idle, false, 0, {});
    var created, ready := FirstStep(empty);
    var claimed, finished := SecondHalf(ready);
    states := [empty, created, ready, claimed, finished];
    steps := [CreateBase(0), Begin(0, 0, Correction, 0, 0), Claim(0, 0, false), Finish(false)];
    AnotherIsPossible(finished);
    FourSteps(states, steps);
  }

  lemma FourSteps(states: seq<System>, steps: seq<Step>)
    requires |states| == 5 && |steps| == 4 && states[0] == System(map[], Idle, false, 0, {})
    requires Follows(states[0], steps[0], states[1]) && Follows(states[1], steps[1], states[2])
    requires Follows(states[2], steps[2], states[3]) && Follows(states[3], steps[3], states[4])
    ensures Run(states, steps)
  {
    hide Follows;
  }

  lemma AnotherIsPossible(finished: System)
    requires finished == System(map[0 := Base(CorrectionBase(Ready, 1, 1, Succeeded), {}, 0, 0, false)], AckLost(0, 0), false, 0, {})
    ensures StatusLaw(finished.bases[0].kb) && Possible(finished, Begin(0, 1, Correction, 1, 1))
  {
    SettledJobs(finished.bases[0].kb);
  }

  function CorrectionBase(status: KbStatus, epoch: nat, revision: nat, job: JobStatus): KnowledgeBase {
    KnowledgeBase(status, revision, epoch, 0, map[], map[], [], map[0 := Job(Correction, job, 0)])
  }

  lemma FirstStep(empty: System) returns (created: System, begun: System)
    requires empty == System(map[], Idle, false, 0, {})
    ensures Follows(empty, CreateBase(0), created) && Follows(created, Begin(0, 0, Correction, 0, 0), begun)
    ensures begun == System(map[0 := Base(CorrectionBase(Updating, 1, 0, Queued), {}, 0, 0, false)], Idle, false, 0, {})
  {
    created := After(empty, CreateBase(0));
    assert created.bases == map[0 := NewBase(0)];
    begun := After(created, Begin(0, 0, Correction, 0, 0));
  }

  lemma SecondHalf(begun: System) returns (claimed: System, finished: System)
    requires begun == System(map[0 := Base(CorrectionBase(Updating, 1, 0, Queued), {}, 0, 0, false)], Idle, false, 0, {})
    ensures Follows(begun, Claim(0, 0, false), claimed) && Follows(claimed, Finish(false), finished)
    ensures finished == System(map[0 := Base(CorrectionBase(Ready, 1, 1, Succeeded), {}, 0, 0, false)], AckLost(0, 0), false, 0, {})
  {
    claimed := After(begun, Claim(0, 0, false));
    assert claimed.bases[0].kb == CorrectionBase(Updating, 1, 0, Running);
    finished := After(claimed, Finish(false));
    assert finished.bases[0].kb == CorrectionBase(Ready, 1, 1, Succeeded);
  }

  lemma SettledJobs(kb: KnowledgeBase)
    requires kb.status.Ready? && forall j :: j in kb.jobs ==> !kb.jobs[j].status.Queued? && !kb.jobs[j].status.Running?
    ensures StatusLaw(kb)
  {
    NoLiveJobs(kb.jobs);
  }

  // ---- the epoch check around a query ----

  // The base is ready, at this epoch.
  predicate ReadyAt(s: System, k: KbId, epoch: nat) {
    k in s.bases && s.bases[k].kb.status.Ready? && s.bases[k].kb.epoch == epoch
  }

  lemma EpochsGrow(s: System, step: Step, k: KbId)
    requires Possible(s, step) && k in s.bases
    ensures k in After(s, step).bases && s.bases[k].kb.epoch <= After(s, step).bases[k].kb.epoch
  {
    hide PlanFor, RebuildPlan, SelectedFor, KnowledgeRepository.Settled;
    if step.Finish? {
      SettlingKeepsCounters(s.bases[s.worker.base].kb, s.worker.op);
    }
  }

  lemma {:induction false} EpochsGrowInRuns(states: seq<System>, steps: seq<Step>, k: KbId, i: nat, j: nat)
    requires Run(states, steps) && i <= j < |states| && k in states[i].bases
    ensures k in states[j].bases && states[i].bases[k].kb.epoch <= states[j].bases[k].kb.epoch
    decreases j - i
  {
    hide Possible, After;
    if i < j {
      EpochsGrowInRuns(states, steps, k, i, j - 1);
      assert Follows(states[j - 1], steps[j - 1], states[j]);
      EpochsGrow(states[j - 1], steps[j - 1], k);
    }
  }

  // From a ready base, one step leaves rows and index alone, raises the epoch or makes the base dirty.
  lemma ReadyStep(s: System, step: Step, k: KbId)
    requires Inv(s) && Settled(s) && Possible(s, step) && k in s.bases && s.bases[k].kb.status.Ready?
    ensures k in After(s, step).bases
    ensures var b := After(s, step).bases[k];
            b == s.bases[k] || b.kb.epoch > s.bases[k].kb.epoch || (b.kb.status.Dirty? && b.kb.epoch == s.bases[k].kb.epoch)
  {
    hide PlanFor, RebuildPlan, SelectedFor, KnowledgeRepository.Settled, CountLaw, Tally, CanSetUp, Begun, Retried;
    assert StatusLaw(s.bases[k].kb);
    NoLiveJobs(s.bases[k].kb.jobs);
    if Touched(s, step) != Some(k) && !step.Recover? && !step.Drift? {
      Untouched(s, step, k);
    } else if step.Begin? || step.Retry? {
      BeginRaisesEpoch(s, step);
    }
  }

  // A dirty base stays dirty at its epoch, or its epoch rises.
  lemma DirtyStep(s: System, step: Step, k: KbId)
    requires Inv(s) && Settled(s) && Possible(s, step) && k in s.bases && s.bases[k].kb.status.Dirty?
    ensures k in After(s, step).bases
    ensures var b := After(s, step).bases[k];
            b.kb.epoch > s.bases[k].kb.epoch || (b.kb.status.Dirty? && b.kb.epoch == s.bases[k].kb.epoch)
  {
    hide PlanFor, RebuildPlan, SelectedFor, KnowledgeRepository.Settled, CountLaw, Tally, CanSetUp, Begun, Retried;
    assert StatusLaw(s.bases[k].kb);
    NoLiveJobs(s.bases[k].kb.jobs);
    if Touched(s, step) != Some(k) && !step.Recover? && !step.Drift? {
      Untouched(s, step, k);
    } else if step.Begin? || step.Retry? {
      BeginRaisesEpoch(s, step);
    }
  }

  lemma {:induction false} DirtyNeverReadyAtItsEpoch(states: seq<System>, steps: seq<Step>, k: KbId, i: nat, j: nat)
    requires Run(states, steps) && i <= j < |states| && NoStrike(states, steps, j)
    requires k in states[i].bases && states[i].bases[k].kb.status.Dirty?
    ensures !ReadyAt(states[j], k, states[i].bases[k].kb.epoch)
    decreases j - i
  {
    hide Possible, After, Inv, Settled, Strikes;
    if i < j {
      assert Follows(states[i], steps[i], states[i + 1]);
      assert NoStrike(states, steps, i);
      ReachableInv(states, steps, i);
      NoStrikeKeepsLaw(states, steps, i);
      DirtyStep(states[i], steps[i], k);
      if states[i + 1].bases[k].kb.status.Dirty? && states[i + 1].bases[k].kb.epoch == states[i].bases[k].kb.epoch {
        DirtyNeverReadyAtItsEpoch(states, steps, k, i + 1, j);
      } else {
        EpochsGrowInRuns(states, steps, k, i + 1, j);
      }
    }
  }

  lemma BeginRaisesEpoch(s: System, step: Step)
    requires Possible(s, step) && (step.Begin? || step.Retry?)
    ensures After(s, step).bases[step.k].kb.epoch == s.bases[step.k].kb.epoch + 1
  {
    hide CanSetUp, CheckBegin;
  }

  // Main result: if a base is ready at the same epoch before and after an index read, then in between
  // no job was opened on it, its rows and its index did not change, and its revision is still the one
  // reported, whatever other requests, the worker, crashes and restarts did and without any lock.
  lemma {:induction false} UnchangedEpochVouchesForEvidence(states: seq<System>, steps: seq<Step>, k: KbId, i: nat, j: nat, epoch: nat)
    requires Run(states, steps) && i <= j < |states| && NoStrike(states, steps, j)
    requires ReadyAt(states[i], k, epoch) && ReadyAt(states[j], k, epoch)
    ensures forall m :: i <= m <= j ==> k in states[m].bases && states[m].bases[k] == states[i].bases[k]
    decreases j - i
  {
    hide Possible, After, Inv, Settled, Strikes;
    if i < j {
      assert Follows(states[i], steps[i], states[i + 1]);
      assert NoStrike(states, steps, i);
      ReachableInv(states, steps, i);
      NoStrikeKeepsLaw(states, steps, i);
      ReadyStep(states[i], steps[i], k);
      EpochsGrowInRuns(states, steps, k, i + 1, j);
      if states[i + 1].bases[k].kb.status.Dirty? {
        DirtyNeverReadyAtItsEpoch(states, steps, k, i + 1, j);
      }
      UnchangedEpochVouchesForEvidence(states, steps, k, i + 1, j, epoch);
    }
  }

  // ---- deletion ----

  predicate Leaving(s: System, k: KbId) {
    k in s.bases && (s.bases[k].kb.status.Deleting? || s.bases[k].kb.status.Deleted?)
  }

  predicate FailsLate(s: System, step: Step, k: KbId) {
    step.FailLate? && s.worker.AckLost? && s.worker.base == k
  }

  lemma LeavingStep(s: System, step: Step, k: KbId)
    requires Inv(s) && Settled(s) && Possible(s, step) && Leaving(s, k)
    ensures Leaving(After(s, step), k) <==> !FailsLate(s, step, k)
  {
    hide PlanFor, RebuildPlan, SelectedFor, KnowledgeRepository.Settled, CountLaw, Tally, CanSetUp, Begun, Retried;
    assert StatusLaw(s.bases[k].kb);
    NoLiveJobs(s.bases[k].kb.jobs);
    if Touched(s, step) != Some(k) && !step.Recover? && !step.Drift? {
      Untouched(s, step, k);
    }
  }

  // Main result: a base on its way out never comes back, exactly unless the worker fails the finished
  // deletion after losing its acknowledgement.
  lemma {:induction false} DeletionIsFinal(states: seq<System>, steps: seq<Step>, k: KbId, i: nat, j: nat)
    requires Run(states, steps) && i <= j < |states| && NoStrike(states, steps, j) && Leaving(states[i], k)
    ensures (forall m :: i <= m <= j ==> Leaving(states[m], k)) <==> (forall m :: i <= m < j ==> !FailsLate(states[m], steps[m], k))
    decreases j - i
  {
    hide Possible, After, Inv, Settled, Strikes, Leaving, FailsLate;
    if i < j {
      assert Follows(states[i], steps[i], states[i + 1]);
      assert NoStrike(states, steps, i);
      ReachableInv(states, steps, i);
      NoStrikeKeepsLaw(states, steps, i);
      LeavingStep(states[i], steps[i], k);
      if !FailsLate(states[i], steps[i], k) {
        DeletionIsFinal(states, steps, k, i + 1, j);
      }
    }
  }

  // ---- the index configuration ----

  // A ready base was built under the running configuration, and so is one whose rebuild has pinned it.
  predicate ConfigLaw(s: System) {
    && (forall k :: k in s.bases && s.bases[k].kb.status.Ready? ==> s.bases[k].kb.config == s.config)
    && (s.worker.Executing? && s.worker.op.Rebuild? && Pin !in s.worker.plan ==>
          s.worker.base in s.bases && s.bases[s.worker.base].kb.config == s.config)
  }

  lemma CallKeepsConfig(s: System, step: Step)
    requires ConfigLaw(s) && Possible(s, step) && step.Call?
    ensures ConfigLaw(After(s, step))
  {
    hide Effect;
    assert s.worker.plan == [s.worker.plan[0]] + s.worker.plan[1..];
  }

  lemma FinishKeepsConfig(s: System, step: Step)
    requires ConfigLaw(s) && Possible(s, step) && step.Finish?
    ensures ConfigLaw(After(s, step))
  {
    hide KnowledgeRepository.Settled;
    SettlingKeepsCounters(s.bases[s.worker.base].kb, s.worker.op);
  }

  lemma OpeningKeepsConfig(s: System, step: Step)
    requires ConfigLaw(s) && Possible(s, step) && (step.Begin? || step.Retry?)
    ensures ConfigLaw(After(s, step))
  {
    hide CheckBegin, CanSetUp, SetUp;
    if step.Begin? {
      SettingUpKeepsCounters(s.bases[step.k].kb, step.op);
    }
  }

  lemma PlanningKeepsConfig(s: System, step: Step)
    requires ConfigLaw(s) && Possible(s, step) && (step.Claim? || step.Refuse?)
    ensures ConfigLaw(After(s, step))
  {
    hide RebuildPlan, SelectedFor, Selected;
  }

  lemma StepKeepsConfig(s: System, step: Step)
    requires ConfigLaw(s) && Possible(s, step)
    ensures ConfigLaw(After(s, step))
  {
    hide RebuildPlan, SelectedFor, KnowledgeRepository.Settled, Selected, CheckBegin, CanSetUp, SetUp, Effect, PlanFor;
    match step {
      case Call => CallKeepsConfig(s, step);
      case Finish(_) => FinishKeepsConfig(s, step);
      case Begin(_, _, _, _, _) => OpeningKeepsConfig(s, step);
      case Retry(_, _, _, _, _) => OpeningKeepsConfig(s, step);
      case Claim(_, _, _) => PlanningKeepsConfig(s, step);
      case Refuse => PlanningKeepsConfig(s, step);
      case _ =>
    }
  }

  // Main result: in every reachable state, with configuration changes, crashes and rebuilds, a ready base is
  // indexed under the configuration the service runs with.
  lemma {:induction false} ReadyMeansConfigured(states: seq<System>, steps: seq<Step>, i: nat, k: KbId)
    requires Run(states, steps) && i < |states|
    ensures ConfigLaw(states[i])
    ensures k in states[i].bases && states[i].bases[k].kb.status.Ready? ==> states[i].bases[k].kb.config == states[i].config
  {
    hide Possible, After;
    if i > 0 {
      ReadyMeansConfigured(states, steps, i - 1, k);
      assert Follows(states[i - 1], steps[i - 1], states[i]);
      StepKeepsConfig(states[i - 1], steps[i - 1]);
    }
  }

  // ---- the epoch check after a lost acknowledgement ----

  // What the lost acknowledgement of a job leads to: a correction opened before the late failure,
  // and a rebuild opened after it.
  predicate AfterLostAck(s: System, k: KbId, correction: JobId, rebuild: JobId) {
    && s.worker.AckLost? && s.worker.base == k && HasJob(s, k, s.worker.job, Succeeded) && !s.interrupted
    && s.bases[k].kb.status.Ready? && s.bases[k].kb.config == s.config
    && correction !in s.bases[k].kb.jobs && rebuild !in s.bases[k].kb.jobs && correction != rebuild
  }

  lemma LateFailureDirties(s: System, k: KbId, correction: JobId, rebuild: JobId) returns (next: System)
    requires AfterLostAck(s, k, correction, rebuild)
    ensures var begin := Begin(k, correction, Correction, s.bases[k].kb.revision, 0);
            Possible(s, begin) && Possible(After(s, begin), FailLate) && next == After(After(s, begin), FailLate)
    ensures next.worker.Idle? && !next.interrupted && next.config == s.config && HasJob(next, k, correction, Queued)
    ensures next.bases[k].index == s.bases[k].index && rebuild !in next.bases[k].kb.jobs
    ensures var x, y := s.bases[k].kb, next.bases[k].kb;
            y.status.Dirty? && y.epoch == x.epoch + 1 && y.revision == x.revision && y.config == x.config && y.jobs[correction].op.Correction?
  {
    var begin := Begin(k, correction, Correction, s.bases[k].kb.revision, 0);
    next := After(After(s, begin), FailLate);
  }

  lemma RebuildOpens(s: System, k: KbId, correction: JobId, rebuild: JobId) returns (next: System)
    requires s.worker.Idle? && !s.interrupted && HasJob(s, k, correction, Queued) && rebuild !in s.bases[k].kb.jobs
    requires s.bases[k].kb.status.Dirty? && s.bases[k].kb.config == s.config && s.bases[k].kb.jobs[correction].op.Correction?
    ensures var begin := Begin(k, rebuild, Rebuild(map[]), s.bases[k].kb.revision, 0);
            Possible(s, begin) && next == After(s, begin)
    ensures next.worker.Idle? && !next.interrupted && next.config == s.config
    ensures HasJob(next, k, correction, Queued) && HasJob(next, k, rebuild, Queued)
    ensures next.bases[k].index == s.bases[k].index
    ensures var x, y := s.bases[k].kb, next.bases[k].kb;
            y.status.Updating? && y.epoch == x.epoch + 1 && y.config == x.config && y.jobs[correction].op.Correction? && y.jobs[rebuild].op.Rebuild?
  {
    next := After(s, Begin(k, rebuild, Rebuild(map[]), s.bases[k].kb.revision, 0));
  }

  lemma CorrectionSettles(s: System, k: KbId, correction: JobId, rebuild: JobId) returns (next: System)
    requires s.worker.Idle? && !s.interrupted && HasJob(s, k, correction, Queued) && HasJob(s, k, rebuild, Queued) && correction != rebuild
    requires s.bases[k].kb.status.Updating? && s.bases[k].kb.config == s.config
    requires s.bases[k].kb.jobs[correction].op.Correction? && s.bases[k].kb.jobs[rebuild].op.Rebuild?
    ensures var claim := Claim(k, correction, false);
            Possible(s, claim) && Possible(After(s, claim), Finish(true)) && next == After(After(s, claim), Finish(true))
    ensures next.worker.Idle? && !next.interrupted && HasJob(next, k, rebuild, Queued) && next.bases[k].kb.jobs[rebuild].op.Rebuild?
    ensures ReadyAt(next, k, s.bases[k].kb.epoch) && next.bases[k].index == s.bases[k].index
  {
    var claim := Claim(k, correction, false);
    next := After(After(s, claim), Finish(true));
  }

  lemma RebuildClears(s: System, k: KbId, rebuild: JobId) returns (next: System)
    requires s.worker.Idle? && !s.interrupted && HasJob(s, k, rebuild, Queued) && s.bases[k].kb.jobs[rebuild].op.Rebuild?
    ensures var claim := Claim(k, rebuild, false);
            Possible(s, claim) && Possible(After(s, claim), Call) && next == After(After(s, claim), Call)
    ensures k in next.bases && next.bases[k].index == {}
    ensures next.bases[k].kb.status == s.bases[k].kb.status && next.bases[k].kb.epoch == s.bases[k].kb.epoch
  {
    hide Selected, InsertAll;
    var claim := Claim(k, rebuild, false);
    next := After(After(s, claim), Call);
  }

  lemma BeginMakesUpdating(s: System, begin: Step)
    requires begin.Begin? && Possible(s, begin)
    ensures begin.k in After(s, begin).bases && After(s, begin).bases[begin.k].kb.status.Updating?
    ensures After(s, begin).worker == s.worker
  {
  }

  // Main result: after a lost acknowledgement the epoch check no longer protects a reader. Seven further
  // steps pass through a ready base and end in the same base, still ready at the same epoch, while a
  // rebuild has emptied its index in between. The second of them is a late failure striking an updating base.
  lemma LostAckDefeatsTheEpochCheck(s: System, k: KbId, correction: JobId, rebuild: JobId) returns (states: seq<System>, steps: seq<Step>)
    requires AfterLostAck(s, k, correction, rebuild)
    ensures |states| == 8 && |steps| == 7 && states[0] == s
    ensures forall i :: 0 <= i < 7 ==> Follows(states[i], steps[i], states[i + 1])
    ensures exists epoch :: ReadyAt(states[5], k, epoch) && ReadyAt(states[7], k, epoch)
    ensures states[5].bases[k].index == s.bases[k].index && states[7].bases[k].index == {}
    ensures Strikes(states[1], steps[1])
  {
    var begin := Begin(k, correction, Correction, s.bases[k].kb.revision, 0);
    var dirty := LateFailureDirties(s, k, correction, rebuild);
    var again := Begin(k, rebuild, Rebuild(map[]), dirty.bases[k].kb.revision, 0);
    var reopened := RebuildOpens(dirty, k, correction, rebuild);
    var read := CorrectionSettles(reopened, k, correction, rebuild);
    var later := RebuildClears(read, k, rebuild);
    BeginMakesUpdating(s, begin);
    hide After, Possible;
    states := [s, After(s, begin), dirty, reopened, After(reopened, Claim(k, correction, false)), read, After(read, Claim(k, rebuild, false)), later];
    steps := [begin, FailLate, again, Claim(k, correction, false), Finish(true), Claim(k, rebuild, false), Call];
    assert ReadyAt(states[5], k, read.bases[k].kb.epoch) && ReadyAt(states[7], k, read.bases[k].kb.epoch);
  }
}
