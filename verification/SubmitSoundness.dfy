// Every stage keeps the aggregate's validator and the loop invariant.

module SubmitSoundness {
  import opened Options
  import opened Text
  import opened AdaptiveModels
  import opened AdaptiveLoop
  import opened SubmitPipeline

  // ---- quizzes on their own ----

  lemma AnsweredQuizOk(q: Quiz, answers: seq<string>)
    requires QuizOk(q) && q.status.QuizActive? && |answers| == |q.questions|
    ensures QuizOk(q.(answers := answers, status := QuizCompleted))
  {
  }

  lemma CachedQuizOk(q: Quiz, added: map<int, Grade>)
    requires QuizOk(q) && q.status.QuizCompleted? && q.report.None? && GradesFor(q, added)
    ensures QuizOk(q.(grades := q.grades + added))
  {
    var r := q.(grades := q.grades + added);
    forall i | i in r.grades ensures GradeMatches(r, i, r.grades[i]) {
      assert i in added ==> GradeMatches(q, i, added[i]);
      assert i !in added ==> GradeMatches(q, i, q.grades[i]);
    }
  }

  lemma ReportedQuizOk(q: Quiz)
    requires QuizOk(q) && q.status.QuizCompleted? && Graded(q)
    ensures ReportOk(BuildReport(q))
    ensures QuizOk(q.(report := Some(BuildReport(q))))
  {
    var report, r := BuildReport(q), q.(report := Some(BuildReport(q)));
    forall i | 0 <= i < report.total ensures report.grades[i].index == i {
      assert GradeMatches(q, i, q.grades[i]);
    }
    forall i | i in r.grades ensures GradeMatches(r, i, r.grades[i]) {
      assert GradeMatches(q, i, q.grades[i]);
    }
    assert QuizReportOk(r, report);
  }

  lemma MarkedQuizOk(q: Quiz)
    requires QuizOk(q) && q.report.Some?
    ensures QuizOk(q.(profileWritten := true))
  {
    var r := q.(profileWritten := true);
    forall i | i in r.grades ensures GradeMatches(r, i, r.grades[i]) {
      assert GradeMatches(q, i, q.grades[i]);
    }
  }

  // ---- stages before the turn is settled ----

  // Replacing the private quiz of a pending quiz turn.
  lemma SetQuizSound(a: Aggregate, q: Quiz, report: Option<Report>)
    requires Sound(a) && a.pending.Some? && a.artifact.turnType.QuizTurn? && a.quiz.Some?
    requires QuizOk(q) && q.questions == a.quiz.value.questions
    requires q.id == a.quiz.value.id && q.user == a.quiz.value.user && q.document == a.quiz.value.document
    requires q.answers == a.pending.value.answers
    requires report == a.lastReport || (report == q.report && report.Some?)
    requires q.report.Some? ==> report == q.report
    requires a.quiz.value.report.Some? ==> q.report.Some?
    requires a.quiz.value.profileWritten ==> q.profileWritten
    ensures Sound(a.(quiz := Some(q), lastReport := report))
  {
    var b := a.(quiz := Some(q), lastReport := report);
    assert QuizBindingOk(b);
    assert PhaseOk(b);
    assert ReceiptsOk(b);
  }

  lemma BindInputSound(a: Aggregate, e: Event)
    requires Sound(a) && e.BindInput? && Enabled(a, e)
    ensures Sound(Apply(a, e))
  {
  }

  lemma BindAnswersSound(a: Aggregate, e: Event)
    requires Sound(a) && e.BindAnswers? && Enabled(a, e)
    ensures Sound(Apply(a, e))
  {
    AnsweredQuizOk(a.quiz.value, a.pending.value.answers);
    SetQuizSound(a, Apply(a, e).quiz.value, a.lastReport);
  }

  lemma CacheGradesSound(a: Aggregate, e: Event)
    requires Sound(a) && e.CacheGrades? && Enabled(a, e)
    ensures Sound(Apply(a, e))
  {
    CachedQuizOk(a.quiz.value, e.added);
    SetQuizSound(a, Apply(a, e).quiz.value, a.lastReport);
  }

  // The report published for a graded quiz: its grades are the cached ones, one for each question with the
  // answer given to it, the correct ones among them are counted, and the score is their share.
  ghost predicate ReportsGrades(q: Quiz, r: Report) {
    && r.quiz == q.id && r.total == |q.questions| == |r.grades|
    && |q.answers| == |q.questions|
    && (forall i :: 0 <= i < |r.grades| ==>
          var g := r.grades[i];
          && i in q.grades && g == q.grades[i] && g.index == i
          && g.question == q.questions[i].text && g.correctAnswer == q.questions[i].answer && g.userAnswer == q.answers[i])
    && r.correct == |CorrectOnes(r.grades)|
    && ScoreIsShare(r.score, |CorrectOnes(r.grades)|, |r.grades|)
  }

  lemma ReportOfQuiz(q: Quiz, r: Report)
    requires QuizOk(q) && q.report == Some(r)
    ensures ReportsGrades(q, r)
  {
    hide ScoreIsShare, QuestionsOk;
    ReportCountsItsGrades(r);
    forall i | 0 <= i < |r.grades| ensures GradeMatches(q, i, r.grades[i]) {
      assert r.grades[i] == q.grades[i];
    }
  }

  lemma PublishReportSound(a: Aggregate, e: Event)
    requires Sound(a) && e.PublishReport? && Enabled(a, e)
    ensures Sound(Apply(a, e))
    ensures var b := Apply(a, e);
            && b.lastReport.Some? && b.quiz == Some(a.quiz.value.(report := b.lastReport))
            && ReportsGrades(a.quiz.value, b.lastReport.value)
  {
    hide ScoreIsShare, RoundedShare, CountCorrect, CorrectOnes;
    ReportedQuizOk(a.quiz.value);
    ReportOfQuiz(Apply(a, e).quiz.value, Apply(a, e).lastReport.value);
    SetQuizSound(a, Apply(a, e).quiz.value, Apply(a, e).lastReport);
  }

  lemma RecordReportSound(a: Aggregate, e: Event)
    requires Sound(a) && e.RecordReport? && Enabled(a, e)
    ensures Sound(Apply(a, e))
  {
    SetQuizSound(a, a.quiz.value, a.quiz.value.report);
  }

  lemma CommitMemorySound(a: Aggregate, e: Event)
    requires Sound(a) && e.CommitMemory? && Enabled(a, e)
    ensures Sound(Apply(a, e))
  {
    MarkedQuizOk(a.quiz.value);
    SetQuizSound(a, Apply(a, e).quiz.value, a.lastReport);
  }

  // ---- mastery and decision ----

  lemma ScoredTrajectoryOk(a: Aggregate, mastery: Option<real>)
    requires Sound(a) && ReadyToDecide(a) && a.artifact.turnType.QuizTurn?
    ensures TrajectoryOk(ScoredTrajectory(a, mastery), a.artifact.turn) <==>
              UnitInterval(mastery) && forall g :: g in ReportGaps(a.lastReport) ==> !Blank(g)
  {
    var old', new' := a.artifact.trajectory, ScoredTrajectory(a, mastery);
    var n, r := a.artifact.turn - 1, a.lastReport.value;
    RoundedShareInUnit(r.correct, r.total);
    assert TurnOk(old'[n]);
    assert new'[n].gaps == ReportGaps(a.lastReport) && |new'[n].gaps| <= r.total;
    assert forall i :: 0 <= i < n ==> new'[i] == old'[i];
  }

  // Recording a mastery or a decision in the pending submit.
  lemma SetPendingValid(a: Aggregate, p: Pending)
    requires Valid(a) && a.pending.Some?
    requires p == a.pending.value.(mastery := p.mastery, nextDecision := p.nextDecision)
    requires a.artifact.turnType.QuizTurn? ==> a.quiz.Some? && a.quiz.value.report.Some? && a.quiz.value.profileWritten
    ensures Valid(a.(pending := Some(p))) <==> PendingSubmitOk(p)
  {
    var b := a.(pending := Some(p));
    assert QuizBindingOk(b) && PendingBindingOk(b) && ReceiptsOk(b);
    assert PhaseOk(b);
  }

  // Rewriting the trajectory shown while a quiz turn is being submitted.
  lemma SetTrajectoryValid(a: Aggregate, trajectory: seq<Turn>)
    requires Valid(a) && a.pending.Some? && a.artifact.turnType.QuizTurn?
    ensures Valid(a.(artifact := a.artifact.(trajectory := trajectory))) <==> TrajectoryOk(trajectory, a.artifact.turn)
  {
    var b := a.(artifact := a.artifact.(trajectory := trajectory));
    assert ArtifactOk(b.artifact) <==> TrajectoryOk(trajectory, a.artifact.turn);
    assert QuizBindingOk(b) && PendingBindingOk(b) && PhaseOk(b);
    assert ReceiptsOk(b);
  }

  lemma ScoredQuizTurnValid(a: Aggregate, e: Event)
    requires Sound(a) && e.ReadMastery? && Enabled(a, e) && a.artifact.turnType.QuizTurn?
    ensures Valid(Apply(a, e)) <==> Acceptable(a, e)
  {
    var trajectory := ScoredTrajectory(a, e.mastery);
    var scored := a.(artifact := a.artifact.(trajectory := trajectory));
    var p := a.pending.value.(mastery := e.mastery);
    ScoredTrajectoryOk(a, e.mastery);
    SetTrajectoryValid(a, trajectory);
    assert Apply(a, e) == scored.(pending := Some(p));
    if TrajectoryOk(trajectory, a.artifact.turn) {
      SetPendingValid(scored, p);
    } else {
      assert !ArtifactOk(Apply(a, e).artifact);
    }
  }

  lemma ReadMasteryLoop(a: Aggregate, e: Event)
    requires LoopInv(a) && !a.artifact.done && e.ReadMastery? && Enabled(a, e)
    ensures LoopInv(Apply(a, e))
  {
    var b := Apply(a, e);
    var old', new', n := a.artifact.trajectory, b.artifact.trajectory, a.artifact.turn;
    assert |new'| == n && forall i :: 0 <= i < n ==> new'[i].action == old'[i].action;
    forall i | 0 <= i < n - 1 && new'[i].action.Teach? ensures !new'[i + 1].action.Teach? {
      assert old'[i].action.Teach? ==> !old'[i + 1].action.Teach?;
    }
    assert ReportIsPast(b);
  }

  // The mastery checkpoint passes its validator exactly when the mastery is a proportion and
  // the graded turn exposes no blank knowledge gap.
  lemma ReadMasterySound(a: Aggregate, e: Event)
    requires Sound(a) && e.ReadMastery? && Enabled(a, e)
    ensures Valid(Apply(a, e)) <==> Acceptable(a, e)
    ensures LoopInv(Apply(a, e))
  {
    ReadMasteryLoop(a, e);
    if a.artifact.turnType.QuizTurn? {
      ScoredQuizTurnValid(a, e);
    } else {
      SetPendingValid(a, a.pending.value.(mastery := e.mastery));
    }
  }

  lemma ReadyQuizIsReported(a: Aggregate)
    requires Valid(a) && ReadyToDecide(a) && a.artifact.turnType.QuizTurn?
    ensures a.quiz.Some? && a.quiz.value.report.Some? && a.quiz.value.profileWritten
  {
    hide ArtifactOk, ReceiptsOk, QuestionsOk, PhaseOk;
  }

  lemma DecideLoop(a: Aggregate, e: Event)
    requires LoopInv(a) && e.Decide? && Enabled(a, e)
    ensures LoopInv(Apply(a, e))
  {
    hide ReceiptsByTurn, ReportIsPast, DecideNext;
    if a.artifact.turnType.TeachTurn? {
      NoTeachWhenForbidden(e.proposed, a.goal, e.weakPoints, ReportScore(a.lastReport));
    }
    assert ReceiptsByTurn(Apply(a, e)) by {
      SameReceipts(a, Apply(a, e));
    }
    assert ReportIsPast(Apply(a, e)) by {
      SameReport(a, Apply(a, e));
    }
  }

  lemma SameReceipts(a: Aggregate, b: Aggregate)
    requires ReceiptsByTurn(a) && b.receipts == a.receipts && b.artifact == a.artifact
    ensures ReceiptsByTurn(b)
  {
  }

  lemma SameReport(a: Aggregate, b: Aggregate)
    requires ReportIsPast(a) && b == a.(pending := b.pending) && a.pending.Some? && b.pending.Some?
    ensures ReportIsPast(b)
  {
  }

  // The decision checkpoint passes exactly when a mastery is on record and the decision is well formed.
  lemma DecideSound(a: Aggregate, e: Event)
    requires Sound(a) && e.Decide? && Enabled(a, e)
    ensures Valid(Apply(a, e)) <==> Acceptable(a, e)
    ensures LoopInv(Apply(a, e))
  {
    hide Valid, LoopInv;
    if a.artifact.turnType.QuizTurn? {
      ReadyQuizIsReported(a);
    }
    DecideLoop(a, e);
    DecideAcceptable(a, e);
  }

  lemma DecideAcceptable(a: Aggregate, e: Event)
    requires Valid(a) && e.Decide? && Enabled(a, e)
    requires a.artifact.turnType.QuizTurn? ==> a.quiz.Some? && a.quiz.value.report.Some? && a.quiz.value.profileWritten
    ensures Valid(Apply(a, e)) <==> Acceptable(a, e)
  {
    hide IdentityOk, QuizBindingOk, PendingBindingOk, PhaseOk, ReceiptsOk, ArtifactOk;
    SetPendingValid(a, a.pending.value.(nextDecision := Some(NextDecision(a, e.proposed, e.weakPoints))));
  }

  // ---- settling the turn ----

  lemma {:induction false} GapsNotEmpty(grades: seq<Grade>)
    ensures forall g :: g in GapsOf(grades) ==> g != ""
  {
    if grades != [] {
      GapsNotEmpty(grades[..|grades| - 1]);
    }
  }

  // Stripping leaves a list of gaps alone exactly when each of them is clean.
  lemma StrippedGaps(report: Option<Report>)
    ensures StripAll(ReportGaps(report)) == ReportGaps(report) <==> CleanGaps(report)
  {
    var gaps := ReportGaps(report);
    if report.Some? {
      GapsNotEmpty(report.value.grades);
    }
    if StripAll(gaps) == gaps {
      forall g | g in gaps ensures Clean(g) {
        var i :| 0 <= i < |gaps| && gaps[i] == g;
        assert StripAll(gaps)[i] == Strip(g);
      }
    }
    if CleanGaps(report) {
      forall i | 0 <= i < |gaps| ensures StripAll(gaps)[i] == gaps[i] {
        assert gaps[i] in gaps;
      }
    }
  }

  predicate Publishable(report: Option<Report>) {
    report.Some? ==>
      && ReportOk(report.value) && report.value.total <= MAX_ADAPTIVE_ANSWERS
      && forall i :: 0 <= i < report.value.total ==> FeedbackOk(FeedbackOf(report.value.grades[i]))
  }

  // What a decided turn has on record can be shown: a lesson still shows the previous report.
  lemma DecidedReportPublishable(a: Aggregate)
    requires Sound(a) && a.pending.Some? && a.pending.value.nextDecision.Some?
    ensures Publishable(a.lastReport)
    ensures a.artifact.turnType.TeachTurn? ==> CleanGaps(a.lastReport)
  {
    if a.artifact.turnType.TeachTurn? {
      if a.lastReport.Some? {
        var grades := a.lastReport.value.grades;
        assert |ReportFeedback(a.lastReport)| == |grades|;
        forall i | 0 <= i < |grades| ensures FeedbackOk(FeedbackOf(grades[i])) {
          assert ReportFeedback(a.lastReport)[i] == FeedbackOf(grades[i]);
        }
      }
    } else {
      QuizReportPublishable(a.quiz.value);
    }
  }

  lemma QuizReportPublishable(q: Quiz)
    requires QuizOk(q) && AnswersOk(q.answers)
    ensures Publishable(q.report)
  {
    if q.report.Some? {
      forall i | 0 <= i < q.report.value.total ensures FeedbackOk(FeedbackOf(q.report.value.grades[i])) {
        assert GradeMatches(q, i, q.grades[i]);
        assert QuestionOk(q.questions[i]) && Clean(q.answers[i]);
      }
    }
  }

  // An artifact projecting a publishable report is acceptable and exact if and only if its gaps are clean.
  lemma ProjectionExactIff(artifact: Artifact, report: Option<Report>)
    requires Publishable(report)
    requires artifact.lastScore == ReportScore(report) && artifact.lastFeedback == ReportFeedback(report)
    requires artifact.lastGaps == StripAll(ReportGaps(report))
    ensures ReportViewOk(artifact) && ShowsReport(artifact, report) <==> CleanGaps(report)
  {
    StrippedGaps(report);
    if report.Some? {
      RoundedShareInUnit(report.value.correct, report.value.total);
      var shown := ReportFeedback(report);
      assert forall i :: 0 <= i < |shown| ==> shown[i] == FeedbackOf(report.value.grades[i]) && shown[i].index == i;
    }
  }

  lemma AppendedTrajectoryOk(trajectory: seq<Turn>, d: Decision)
    requires TrajectoryOk(trajectory, |trajectory|) && DecisionOk(d)
    ensures TrajectoryOk(AppendTurn(trajectory, |trajectory| + 1, d), |trajectory| + 1)
  {
    var extended := AppendTurn(trajectory, |trajectory| + 1, d);
    assert forall i :: 0 <= i < |trajectory| ==> extended[i] == trajectory[i];
  }

  // The artifact of the next screen, whoever decided it.
  lemma TerminalArtifactOk(a: Artifact, reason: Reason, d: Decision)
    requires a.done && a.questions == [] && a.lesson.None? && a.summary.Some? && a.reason == reason && a.decision == d
    requires reason == ExitReason(a.mastery, a.turn, d) && !reason.NoReason?
    requires a.learningPath.Some? <==> reason.PlanSwitch?
    requires DecisionOk(d) && UnitInterval(a.mastery) && 1 <= a.turn <= MAX_TURNS && TrajectoryOk(a.trajectory, a.turn)
    ensures ArtifactOk(a) <==> ReportViewOk(a)
  {
  }

  lemma OngoingArtifactOk(session: string, d: Decision, trajectory: seq<Turn>, mastery: Option<real>,
                          report: Option<Report>, content: Content)
    requires ContentFits(NoReason, d, content) && !d.action.Finish? && !d.action.SwitchToPlan?
    requires DecisionOk(d) && UnitInterval(mastery)
    requires 1 <= |trajectory| <= MAX_TURNS && TrajectoryOk(trajectory, |trajectory|)
    ensures var lesson := if content.LessonContent? then Some(content.text) else None;
            var questions := if content.QuizContent? then WithKind(content.questions, d.questionType) else [];
            var a := OngoingArtifact(session, |trajectory|, d, trajectory, mastery, report, lesson, questions);
            && (ContentOk(d, content) && ReportViewOk(a) ==> ArtifactOk(a))
            && (ArtifactOk(a) ==> ReportViewOk(a) && (content.LessonContent? ==> ContentOk(d, content)))
  {
    if content.LessonContent? {
      StripFacts(content.text);
    }
  }

  predicate Settles(a: Aggregate, e: Event) {
    && e.FinishTurn? && Enabled(a, e)
    && a.status.Active? && !a.artifact.done && 1 <= a.artifact.turn <= MAX_TURNS
    && a.pending.value.turn == a.artifact.turn && a.pending.value.revision >= 1
    && (a.pending.value.key.Some? ==> a.pending.value.key.value !in a.receipts)
  }

  lemma CompletionByTurn(a: Aggregate, e: Event)
    requires Settles(a, e) && ReceiptsByTurn(a)
    ensures ReceiptsByTurn(Apply(a, e))
    ensures Rank(Apply(a, e)) == Rank(a) + 1
  {
    var b, p := Apply(a, e), a.pending.value;
    if p.key.Some? {
      assert b.receipts.Keys == a.receipts.Keys + {p.key.value};
    }
  }

  lemma CompletionReceipts(a: Aggregate, e: Event)
    requires Settles(a, e) && ReceiptsByTurn(a) && ReceiptsOk(a)
    requires ArtifactOk(Apply(a, e).artifact)
    ensures ReceiptsOk(Apply(a, e))
  {
    hide ArtifactOk, StripAll, ReportGaps, ReportFeedback;
    var b, p := Apply(a, e), a.pending.value;
    CompletionByTurn(a, e);
    forall k | k in b.receipts
      ensures var r := b.receipts[k];
              && ReceiptOk(r) && r.key == k && r.response.session == b.session
              && r.turn <= b.artifact.turn && r.response.turn <= b.artifact.turn
              && (r.response.done ==> b.status.Completed? && r.response == b.artifact)
    {
      if k in a.receipts {
        assert p.key != Some(k) && b.receipts[k] == a.receipts[k];
      } else {
        assert b.receipts[k] == Receipt(k, p.request, p.turn, p.revision, b.artifact);
      }
    }
  }

  // The facts about a decided turn that the next artifact is built from.
  lemma DecidedTurn(a: Aggregate)
    requires Sound(a) && a.pending.Some? && a.pending.value.nextDecision.Some?
    ensures DecisionOk(a.pending.value.nextDecision.value) && UnitInterval(a.pending.value.mastery)
    ensures |a.artifact.trajectory| == a.artifact.turn == a.pending.value.turn && 1 <= a.artifact.turn <= MAX_TURNS
    ensures TrajectoryOk(a.artifact.trajectory, a.artifact.turn)
    ensures Publishable(a.lastReport)
  {
    DecidedReportPublishable(a);
  }

  lemma NoStopBeforeLastTurn(mastery: Option<real>, turn: int, d: Decision)
    ensures ExitReason(mastery, turn, d).NoReason? ==> turn < MAX_TURNS && !d.action.Finish? && !d.action.SwitchToPlan?
  {
  }

  lemma TerminalCompletionView(a: Aggregate, e: Event)
    requires Sound(a) && e.FinishTurn? && Enabled(a, e) && Apply(a, e).status.Completed?
    ensures var b := Apply(a, e);
            ArtifactOk(b.artifact) && ShowsReport(b.artifact, b.lastReport) <==> CleanGaps(a.lastReport)
  {
    hide Sound, DecisionOk, TrajectoryOk, ReportViewOk, ShowsReport, CleanGaps, Publishable;
    var p, b := a.pending.value, Apply(a, e);
    var d := p.nextDecision.value;
    DecidedTurn(a);
    ProjectionExactIff(b.artifact, a.lastReport);
    TerminalArtifactOk(b.artifact, ExitReason(p.mastery, p.turn, d), d);
  }

  lemma TerminalCompletionValid(a: Aggregate, e: Event)
    requires Sound(a) && e.FinishTurn? && Enabled(a, e) && Apply(a, e).status.Completed?
    ensures Valid(Apply(a, e)) <==> Acceptable(a, e)
  {
    var b := Apply(a, e);
    TerminalCompletionView(a, e);
    if ArtifactOk(b.artifact) {
      CompletionReceipts(a, e);
      assert QuizBindingOk(b);
      assert DonePhaseOk(b);
    }
  }

  lemma OngoingCompletionView(a: Aggregate, e: Event)
    requires Sound(a) && e.FinishTurn? && Enabled(a, e) && Apply(a, e).status.Active?
    ensures var b := Apply(a, e);
            && (Acceptable(a, e) ==> ArtifactOk(b.artifact) && ShowsReport(b.artifact, b.lastReport))
            && (ArtifactOk(b.artifact) && ShowsReport(b.artifact, b.lastReport) ==>
                  CleanGaps(a.lastReport) && (e.content.LessonContent? ==> Acceptable(a, e)))
  {
    hide Sound, DecisionOk, TrajectoryOk, ReportViewOk, ShowsReport, CleanGaps, Publishable, ContentOk;
    var p, b := a.pending.value, Apply(a, e);
    var d := p.nextDecision.value;
    var trajectory := AppendTurn(a.artifact.trajectory, p.turn + 1, d);
    DecidedTurn(a);
    NoStopBeforeLastTurn(p.mastery, p.turn, d);
    ProjectionExactIff(b.artifact, a.lastReport);
    AppendedTrajectoryOk(a.artifact.trajectory, d);
    OngoingArtifactOk(a.session, d, trajectory, p.mastery, a.lastReport, e.content);
  }

  lemma OngoingCompletionPhase(a: Aggregate, e: Event)
    requires Sound(a) && e.FinishTurn? && Enabled(a, e) && Apply(a, e).status.Active?
    requires OngoingOk(Apply(a, e).artifact)
    ensures var b := Apply(a, e);
            PhaseOk(b) && (QuizBindingOk(b) <==> ContentOk(a.pending.value.nextDecision.value, e.content))
  {
    hide ArtifactOk, ReceiptsOk, TrajectoryOk, DecisionOk, ReportOk;
    var b := Apply(a, e);
    if e.content.QuizContent? {
      assert QuizOk(b.quiz.value) <==> QuestionsOk(b.quiz.value.questions);
    } else {
      StripFacts(e.content.text);
    }
  }

  lemma OngoingCompletionValid(a: Aggregate, e: Event)
    requires Sound(a) && e.FinishTurn? && Enabled(a, e) && Apply(a, e).status.Active?
    ensures Valid(Apply(a, e)) <==> Acceptable(a, e)
  {
    var b := Apply(a, e);
    OngoingCompletionView(a, e);
    if ArtifactOk(b.artifact) {
      CompletionReceipts(a, e);
      OngoingCompletionPhase(a, e);
      assert PendingBindingOk(b) && IdentityOk(b);
    }
  }

  lemma CompletionLessons(a: Aggregate, e: Event)
    requires LoopInv(a) && Settles(a, e)
    requires a.pending.value.nextDecision.value.action.Teach? ==> a.artifact.turnType.QuizTurn? && !a.artifact.decision.action.Teach?
    ensures LessonsAlternate(Apply(a, e).artifact.trajectory)
  {
    var b := Apply(a, e);
    var old', new' := a.artifact.trajectory, b.artifact.trajectory;
    forall i | 0 <= i < |new'| - 1 && new'[i].action.Teach? ensures !new'[i + 1].action.Teach? {
      assert new'[i] == old'[i];
      if i + 1 < |old'| {
        assert old'[i].action.Teach? ==> !old'[i + 1].action.Teach?;
      }
    }
  }

  lemma CompletionLoop(a: Aggregate, e: Event)
    requires Settles(a, e) && LoopInv(a)
    requires a.artifact.turnType.QuizTurn? ==> !a.artifact.decision.action.Teach?
    requires Apply(a, e).pending.None? && ShowsReport(Apply(a, e).artifact, a.lastReport)
    ensures LoopInv(Apply(a, e))
  {
    var b := Apply(a, e);
    CompletionByTurn(a, e);
    CompletionLessons(a, e);
    assert ReportIsPast(b);
  }

  // The completing write passes its validator exactly when the new content is usable and every
  // gap of the recorded report is free of surrounding whitespace.
  lemma FinishTurnSound(a: Aggregate, e: Event)
    requires Sound(a) && e.FinishTurn? && Enabled(a, e)
    ensures Valid(Apply(a, e)) <==> Acceptable(a, e)
    ensures Valid(Apply(a, e)) ==> LoopInv(Apply(a, e))
  {
    if Apply(a, e).status.Completed? {
      TerminalCompletionValid(a, e);
    } else {
      OngoingCompletionValid(a, e);
    }
    if Valid(Apply(a, e)) {
      CompletionLoop(a, e);
    }
  }

  // Main result: from any sound aggregate, a stage passes its validator exactly when the outside
  // world answered acceptably, and whatever passes is sound again.
  lemma StageAccepted(a: Aggregate, e: Event)
    requires Sound(a) && Enabled(a, e)
    ensures Valid(Apply(a, e)) <==> Acceptable(a, e)
    ensures Valid(Apply(a, e)) ==> Sound(Apply(a, e))
  {
    match e
    case BindInput(_, _, _) => BindInputSound(a, e);
    case BindAnswers => BindAnswersSound(a, e);
    case CacheGrades(_) => CacheGradesSound(a, e);
    case PublishReport => PublishReportSound(a, e);
    case RecordReport => RecordReportSound(a, e);
    case CommitMemory => CommitMemorySound(a, e);
    case ReadMastery(_) => ReadMasterySound(a, e);
    case Decide(_, _) => DecideSound(a, e);
    case FinishTurn(_) => FinishTurnSound(a, e);
  }

  // ---- opening a session ----

  lemma OpeningArtifact(o: Owner, mastery: Option<real>, d: Decision, content: Content)
    requires ContentFits(ExitReason(mastery, 1, d), d, content)
    requires UnitInterval(mastery) && DecisionOk(d)
    ensures var a := Opening(o, mastery, d, content).artifact;
            && (ContentOk(d, content) ==> ArtifactOk(a))
            && (ArtifactOk(a) && content.LessonContent? ==> ContentOk(d, content))
            && ShowsReport(a, None)
  {
    var a, history := Opening(o, mastery, d, content).artifact, AppendTurn([], 1, d);
    AppendedTrajectoryOk([], d);
    assert ReportViewOk(a) && ShowsReport(a, None) by {
      ProjectionExactIff(a, None);
    }
    if a.done {
      TerminalArtifactOk(a, ExitReason(mastery, 1, d), d);
    } else {
      OngoingArtifactOk(o.session, d, history, mastery, None, content);
    }
  }

  // A session opens in a sound state exactly when what the outside world supplied is usable.
  lemma OpeningAccepted(o: Owner, mastery: Option<real>, d: Decision, content: Content)
    requires ContentFits(ExitReason(mastery, 1, d), d, content)
    requires Clean(o.session) && Clean(o.user) && Clean(o.document) && Clean(o.goal)
    ensures Valid(Opening(o, mastery, d, content)) <==> UnitInterval(mastery) && DecisionOk(d) && ContentOk(d, content)
    ensures Valid(Opening(o, mastery, d, content)) ==> Sound(Opening(o, mastery, d, content))
  {
    var a := Opening(o, mastery, d, content);
    if UnitInterval(mastery) && DecisionOk(d) {
      OpeningArtifact(o, mastery, d, content);
      if content.QuizContent? {
        assert QuizBindingOk(a) <==> QuestionsOk(a.quiz.value.questions);
      }
      assert PhaseOk(a) <==> (ArtifactOk(a.artifact) ==> PhaseOk(a));
    }
  }
}
