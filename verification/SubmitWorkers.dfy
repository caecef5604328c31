// The submit worker itself: it mutates its own copy of the aggregate and checkpoints after
// each change. What grading, memory and the model answer is an arbitrary value, and so is
// every clock reading.

module SubmitWorkers {
  import opened Options
  import opened AdaptiveModels
  import opened AdaptiveLoop
  import opened SubmitPipeline
  import opened SubmitSoundness
  import opened SubmitRuns
  import opened SessionStore
  import opened SubmitProtocol
  import opened ConcurrentRuns

  datatype Refusal = Completed | Stale | Conflict | Busy | BadRequest | NotWritten | OutsideFailed

  // _validate_submit_binding
  function CheckBinding(a: Aggregate, revision: int, request: Request, key: Option<Key>): Option<Refusal> {
    if a.status.Completed? then Some(Refusal.Completed)
    else if a.pending.None? then
      if request.turn != a.artifact.turn || request.revision != revision then Some(Stale) else None
    else
      var p := a.pending.value;
      if request.turn != p.turn || request.revision != p.revision then Some(Stale)
      else if p.request != request then if p.key.Some? && p.key == key then Some(Conflict) else Some(Busy)
      else if p.key != key then Some(Busy)
      else None
  }

  // A claimed submit continues exactly the pending submit it carries, or starts one at the current revision.
  lemma BindingAdmitsOwnSubmit(a: Aggregate, revision: int, request: Request, key: Option<Key>)
    requires Sound(a)
    ensures CheckBinding(a, revision, request, key).None? <==>
              && a.status.Active?
              && if a.pending.Some? then a.pending.value.request == request && a.pending.value.key == key
                 else request.turn == a.artifact.turn && request.revision == revision
  {
    hide Valid;
  }

  // Every other submit is told why: the session is over, the turn or revision has moved on, the key was used for
  // another payload, or another submit of this turn is under way.
  lemma RefusalsAreNamed(a: Aggregate, revision: int, request: Request, key: Option<Key>)
    ensures var refusal := CheckBinding(a, revision, request, key);
            var same := if a.pending.Some? then request.turn == a.pending.value.turn && request.revision == a.pending.value.revision
                        else request.turn == a.artifact.turn && request.revision == revision;
            && (refusal == Some(Refusal.Completed) <==> a.status.Completed?)
            && (refusal == Some(Stale) <==> a.status.Active? && !same)
            && (refusal == Some(Conflict) <==>
                  a.status.Active? && same && a.pending.Some? && key.Some? && a.pending.value.key == key && a.pending.value.request != request)
            && (refusal == Some(Busy) <==>
                  a.status.Active? && same && a.pending.Some? && a.pending.value.(key := key, request := request) != a.pending.value
                  && !(key.Some? && a.pending.value.key == key))
  {
  }

  lemma QuizOfPending(a: Aggregate)
    requires Sound(a) && a.pending.Some? && a.artifact.turnType.QuizTurn?
    ensures a.quiz.Some? && a.quiz.value.questions != []
  {
    hide LoopInv, ArtifactOk, ReceiptsOk;
  }

  lemma ReportOfSound(a: Aggregate)
    requires Sound(a) && a.quiz.Some? && a.quiz.value.report.Some?
    ensures ReportsGrades(a.quiz.value, a.quiz.value.report.value)
  {
    hide LoopInv, ArtifactOk, ReceiptsOk, PhaseOk, QuizReportOk, ReportsGrades;
    ReportOfQuiz(a.quiz.value, a.quiz.value.report.value);
  }

  // The learner's memory: the quizzes whose report it holds, and those whose decision was audited.
  class Memory {
    var reports: set<QuizId>
    var decisions: set<QuizId>

    constructor ()
      ensures reports == {} && decisions == {}
    {
      reports, decisions := {}, {};
    }

    // commit_learning_memory: the report, then the audit, then the snapshot, any of which may fail.
    method Write(quiz: QuizId) returns (written: bool)
      modifies this
      ensures old(reports) <= reports <= old(reports) + {quiz} && old(decisions) <= decisions <= old(decisions) + {quiz}
      ensures written ==> quiz in reports && quiz in decisions
    {
      var reported: bool := *;
      if !reported {
        return false;
      }
      reports := reports + {quiz};
      var audited: bool := *;
      if audited {
        decisions := decisions + {quiz};
      }
      var persisted: bool := *;
      return audited && persisted;
    }
  }

  // The write landed although its acknowledgement did not arrive.
  ghost predicate LandedUnseen(before: Rows, after: Rows, s: SessionId, token: Token, revision: int, next: Aggregate, completes: bool, c: Config) {
    exists now: real :: CanWrite(before, s, token, revision, next, now) && after == AfterWrite(before, s, token, revision, next, completes, now, c)
  }

  class SubmitWorker {
    const store: AdaptiveStore
    const memory: Memory
    const session: SessionId
    const token: Token
    var aggregate: Aggregate
    var revision: int
    ghost var history: History

    // The local copy is the last durable aggregate of this worker's history.
    ghost predicate Synced()
      reads this, store
    {
      && store.Consistent()
      && Run(history.aggregates, history.events)
      && |history.aggregates| == |history.events| + 1
      && history.aggregates[|history.events|] == aggregate
      && aggregate.session == session
    }

    constructor (store: AdaptiveStore, memory: Memory, session: SessionId, token: Token, record: Row)
      requires store.Consistent() && Sound(record.aggregate) && record.aggregate.session == session
      ensures Synced() && this.store == store && this.memory == memory && this.session == session && this.token == token
      ensures aggregate == record.aggregate && revision == record.revision && history == History([aggregate], [])
    {
      hide Sound, TableOk, Run;
      this.store, this.memory, this.session, this.token := store, memory, session, token;
      aggregate, revision := record.aggregate, record.revision;
      history := History([record.aggregate], []);
      LinkItself(record);
    }

    // _checkpoint and _complete_claim: validate, write under the fence, keep the acknowledged revision.
    // Without an acknowledgement the worker keeps its copy, and the write may have landed all the same.
    method Commit(e: Event, next: Aggregate) returns (ok: bool)
      requires Synced() && Enabled(aggregate, e) && next == Apply(aggregate, e)
      modifies this`aggregate, this`revision, this`history, store
      ensures store.Consistent()
      ensures !ok ==> unchanged(this)
      ensures !ok ==> store.rows == old(store.rows)
                      || LandedUnseen(old(store.rows), store.rows, session, token, revision, next, e.FinishTurn?, store.config)
      ensures ok ==>
                && Synced() && aggregate == next && revision == old(revision) + 1
                && history == History(old(history).aggregates + [next], old(history).events + [e])
                && Submits(history.events) == Submits(old(history.events)) + (if e.FinishTurn? then 1 else 0)
                && session in store.rows && store.rows[session].aggregate == next
                && (e.FinishTurn? ==> store.rows[session].claim.None?)
    {
      hide Enabled, Apply, AdaptiveModels.Valid, Sound, Run, TableOk;
      if !AdaptiveModels.Valid(next) {
        return false;
      }
      var now: real := *;
      StageIdentity(aggregate, e);
      var row := store.Write(session, token, revision, next, e.FinishTurn?, now);
      var acknowledged: bool := *;
      if row.None? || !acknowledged {
        assert row.Some? ==> CanWrite(old(store.rows), session, token, revision, next, now);
        return false;
      }
      ExtendRun(history.aggregates, history.events, e, next);
      history := History(history.aggregates + [next], history.events + [e]);
      aggregate, revision := next, row.value.revision;
      return true;
    }

    // What a stage leaves behind: the history goes on, and only stages of this submit were added.
    twostate predicate Continues()
      reads this, store
    {
      && Synced()
      && old(history.events) <= history.events
      && Submits(history.events) == Submits(old(history.events))
    }

    // The pending submit this worker carries, while its turn is not settled.
    predicate Carries(request: Request, key: Option<Key>)
      reads this
    {
      aggregate.pending.Some? && aggregate.pending.value.request == request && aggregate.pending.value.key == key
    }

    lemma HistorySound()
      requires Synced()
      ensures Sound(aggregate)
    {
      hide Sound, StageFrom, TableOk;
      RunSound(history.aggregates, history.events, |history.events|);
    }

    // _checkpoint_pending_input
    method BindInput(request: Request, key: Option<Key>) returns (r: Option<Refusal>)
      requires Synced() && CheckBinding(aggregate, revision, request, key).None?
      requires RequestOk(request) && request.session == session && FindReceipt(aggregate, key, request).NoReceipt?
      modifies this`aggregate, this`revision, this`history, store
      ensures store.Consistent()
      ensures r.None? ==> Continues() && Carries(request, key) && aggregate.artifact.turnType == old(aggregate.artifact.turnType)
    {
      hide AdaptiveModels.Valid, LoopInv, TableOk, Run;
      HistorySound();
      BindingAdmitsOwnSubmit(aggregate, revision, request, key);
      if aggregate.pending.Some? {
        return None;
      }
      if !AnswersFit(aggregate, request.answers) {
        return Some(BadRequest);
      }
      var ok := Commit(Event.BindInput(request, key, revision), aggregate.(pending := Some(Bound(request, key))));
      return if ok then None else Some(NotWritten);
    }

    // _checkpoint_quiz_answers
    method BindAnswers(request: Request, key: Option<Key>) returns (ok: bool)
      requires Synced() && Carries(request, key) && aggregate.artifact.turnType.QuizTurn? && aggregate.quiz.Some?
      modifies this`aggregate, this`revision, this`history, store
      ensures store.Consistent()
      ensures ok ==> Continues() && Carries(request, key) && aggregate.artifact == old(aggregate.artifact)
      ensures ok ==> aggregate.quiz.Some? && aggregate.quiz.value.status.QuizCompleted?
    {
      hide AdaptiveModels.Valid, LoopInv, TableOk, Run;
      var quiz := aggregate.quiz.value;
      if quiz.status.QuizCompleted? {
        return true;
      }
      quiz := quiz.(answers := aggregate.pending.value.answers);
      quiz := quiz.(status := QuizCompleted);
      ok := Commit(Event.BindAnswers, aggregate.(quiz := Some(quiz)));
    }

    // One checkpoint of grade_quiz_session: whichever grades came back are cached.
    method CacheGrades(request: Request, key: Option<Key>) returns (ok: bool)
      requires Synced() && Carries(request, key) && Grading(aggregate) && aggregate.quiz.value.report.None?
      modifies this`aggregate, this`revision, this`history, store
      ensures store.Consistent()
      ensures ok ==> Continues() && Carries(request, key) && aggregate.artifact == old(aggregate.artifact)
      ensures ok ==> Grading(aggregate) && aggregate.quiz.value.report.None?
    {
      hide AdaptiveModels.Valid, LoopInv, TableOk, Run, GradeMatches;
      var quiz := aggregate.quiz.value;
      assert GradesFor(quiz, map[]);
      var added: map<int, Grade> :| GradesFor(quiz, added);
      if added == map[] {
        return true;
      }
      quiz := quiz.(grades := quiz.grades + added);
      ok := Commit(Event.CacheGrades(added), aggregate.(quiz := Some(quiz)));
    }

    // _grade_checkpointed_quiz: objective questions first, then the judged ones, then the report.
    method GradeQuiz(request: Request, key: Option<Key>) returns (ok: bool)
      requires Synced() && Carries(request, key) && Grading(aggregate)
      modifies this`aggregate, this`revision, this`history, store
      ensures store.Consistent()
      ensures ok ==> Continues() && Carries(request, key) && aggregate.artifact == old(aggregate.artifact)
      ensures ok ==> Grading(aggregate) && aggregate.quiz.value.report.Some? && aggregate.lastReport == aggregate.quiz.value.report
      ensures ok ==> ReportsGrades(aggregate.quiz.value, aggregate.lastReport.value)
    {
      hide AdaptiveModels.Valid, LoopInv, TableOk, Run, BuildReport, GradeMatches, NextScreen, AppendTurn, ScoredTrajectory, GradesFor, ReportsGrades;
      if aggregate.quiz.value.report.None? {
        ok := CacheGrades(request, key);
        if !ok {
          return;
        }
        ok := CacheGrades(request, key);
        if !ok {
          return;
        }
        var quiz := aggregate.quiz.value;
        if !Graded(quiz) {
          return false;
        }
        var report := BuildReport(quiz);
        quiz := quiz.(report := Some(report));
        ok := Commit(PublishReport, aggregate.(quiz := Some(quiz), lastReport := Some(report)));
        if !ok {
          return;
        }
      }
      ok := Commit(RecordReport, aggregate.(lastReport := aggregate.quiz.value.report));
      if ok {
        HistorySound();
        ReportOfSound(aggregate);
      }
    }

    // _write_checkpointed_memory: the marker is set only after memory and audit were written.
    method CommitMemory(request: Request, key: Option<Key>) returns (ok: bool)
      requires Synced() && Carries(request, key) && Grading(aggregate)
      requires aggregate.quiz.value.report.Some? && aggregate.lastReport == aggregate.quiz.value.report
      modifies this`aggregate, this`revision, this`history, store, memory
      ensures store.Consistent()
      ensures ok ==> Continues() && Carries(request, key) && aggregate.artifact == old(aggregate.artifact)
      ensures ok ==> aggregate.quiz.Some? && aggregate.quiz.value.profileWritten && aggregate.lastReport.Some?
      ensures old(memory.reports) <= memory.reports && old(memory.decisions) <= memory.decisions
      ensures old(aggregate.quiz.value.profileWritten) ==> memory.reports == old(memory.reports) && store.rows == old(store.rows)
      ensures ok && !old(aggregate.quiz.value.profileWritten) ==>
                old(aggregate.quiz.value.id) in memory.reports && old(aggregate.quiz.value.id) in memory.decisions
      ensures store.rows != old(store.rows) ==>
                old(aggregate.quiz.value.id) in memory.reports && old(aggregate.quiz.value.id) in memory.decisions
    {
      hide AdaptiveModels.Valid, LoopInv, TableOk, Run;
      var quiz := aggregate.quiz.value;
      if quiz.profileWritten {
        return true;
      }
      var written := memory.Write(quiz.id);
      if !written {
        return false;
      }
      quiz := quiz.(profileWritten := true);
      ok := Commit(Event.CommitMemory, aggregate.(quiz := Some(quiz)));
    }

    lemma ShowsATurn(a: Aggregate)
      requires Sound(a)
      ensures a.artifact.trajectory != []
    {
      hide AdaptiveModels.Valid;
    }

    // _checkpoint_mastery_and_decision
    method DecideTurn(request: Request, key: Option<Key>) returns (ok: bool)
      requires Synced() && Carries(request, key)
      requires aggregate.artifact.turnType.QuizTurn? ==>
                 aggregate.quiz.Some? && aggregate.quiz.value.profileWritten && aggregate.lastReport.Some?
      modifies this`aggregate, this`revision, this`history, store
      ensures store.Consistent()
      ensures ok ==> Continues() && Carries(request, key) && aggregate.pending.value.nextDecision.Some?
      ensures ok && old(aggregate.pending.value.nextDecision.Some?) ==> aggregate == old(aggregate)
    {
      hide AdaptiveModels.Valid, TableOk, Run, LoopInv, AppendTurn, NextDecision;
      if aggregate.pending.value.nextDecision.Some? {
        return true;
      }
      HistorySound();
      ShowsATurn(aggregate);
      var mastery: Option<real> := *;
      var pending := aggregate.pending.value.(mastery := mastery);
      var next := aggregate.(pending := Some(pending));
      if aggregate.artifact.turnType.QuizTurn? {
        next := next.(artifact := next.artifact.(trajectory := ScoredTrajectory(aggregate, mastery)));
      }
      ok := Commit(ReadMastery(mastery), next);
      if !ok {
        return;
      }
      var proposed: Option<Decision> := *;
      var weakPoints: seq<string> := *;
      pending := pending.(nextDecision := Some(NextDecision(aggregate, proposed, weakPoints)));
      ok := Commit(Decide(proposed, weakPoints), aggregate.(pending := Some(pending)));
    }

    // The end of _execute_claimed_submit: build the next screen, drop the pending submit,
    // record the receipt, complete under the claim.
    method FinishTurn(request: Request, key: Option<Key>, content: Content) returns (ok: bool)
      requires Synced() && Carries(request, key) && Enabled(aggregate, Event.FinishTurn(content))
      modifies this`aggregate, this`revision, this`history, store
      ensures store.Consistent()
      ensures ok ==>
                && Synced() && Settled(key, request)
                && old(history.events) <= history.events
                && Submits(history.events) == Submits(old(history.events)) + 1
    {
      hide AdaptiveModels.Valid, LoopInv, TableOk, Run, NextScreen;
      var pending := aggregate.pending.value;
      var screen := NextScreen(aggregate, pending.nextDecision.value, content);
      var next := aggregate.(artifact := screen.artifact, quiz := screen.quiz, status := screen.status, pending := None);
      if key.Some? {
        var receipt := Receipt(key.value, request, pending.turn, pending.revision, screen.artifact);
        next := next.(receipts := next.receipts[key.value := receipt]);
      }
      ok := Commit(Event.FinishTurn(content), next);
    }

    // _execute_claimed_submit: every outcome leaves a run of the pipeline behind; a success settled
    // exactly one turn and its response is what every later retry finds.
    method Execute(request: Request, key: Option<Key>) returns (r: Result<Artifact, Refusal>)
      requires Synced() && RequestOk(request) && request.session == session
      requires FindReceipt(aggregate, key, request).NoReceipt?
      modifies this`aggregate, this`revision, this`history, store, memory
      ensures store.Consistent()
      ensures CheckBinding(old(aggregate), old(revision), request, key).Some? ==>
                r == Err(CheckBinding(old(aggregate), old(revision), request, key).value) && store.rows == old(store.rows)
      ensures r.Ok? ==>
                && Synced() && Settled(key, request) && aggregate.artifact == r.value
                && old(history.events) <= history.events
                && Submits(history.events) == Submits(old(history.events)) + 1
    {
      hide AdaptiveModels.Valid, LoopInv, TableOk, Run, ContentFits, FindReceipt, NextScreen, AppendTurn;
      var refusal := CheckBinding(aggregate, revision, request, key);
      if refusal.Some? {
        return Err(refusal.value);
      }
      refusal := BindInput(request, key);
      if refusal.Some? {
        return Err(refusal.value);
      }
      HistorySound();
      if aggregate.artifact.turnType.QuizTurn? {
        QuizOfPending(aggregate);
        var ok := BindAnswers(request, key);
        if !ok {
          return Err(NotWritten);
        }
        HistorySound();
        QuizOfPending(aggregate);
        ok := GradeQuiz(request, key);
        if !ok {
          return Err(OutsideFailed);
        }
        ok := CommitMemory(request, key);
        if !ok {
          return Err(OutsideFailed);
        }
      }
      var ok := DecideTurn(request, key);
      if !ok {
        return Err(NotWritten);
      }
      var content: Content := *;
      var decision := aggregate.pending.value.nextDecision.value;
      if !ContentFits(ExitReason(aggregate.pending.value.mastery, aggregate.pending.value.turn, decision), decision, content) {
        return Err(OutsideFailed);
      }
      ok := FinishTurn(request, key, content);
      return if ok then Ok(aggregate.artifact) else Err(NotWritten);
    }

    // The durable outcome of a settled submit.
    predicate Settled(key: Option<Key>, request: Request)
      reads this, store
    {
      && session in store.rows && store.rows[session].claim.None?
      && store.rows[session].aggregate == aggregate && aggregate.pending.None?
      && (key.Some? ==> FindReceipt(aggregate, key, request) == Replay(aggregate.artifact))
    }
  }
}
