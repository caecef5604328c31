// What a settled submit shows and records, said without the functions that build it.

module SubmitOutcome {
  import opened Options
  import opened Text
  import opened AdaptiveModels
  import opened AdaptiveLoop
  import opened SubmitPipeline
  import opened SubmitSoundness
  import opened SubmitRuns

  // A turn is the last one when the agent says so, mastery is reached, or it is the fifth.
  predicate Ends(mastery: Option<real>, turn: int, d: Decision) {
    d.action == SwitchToPlan || d.action == Finish || (mastery.Some? && mastery.value >= 0.85) || turn >= 5
  }

  // The planning switch is named before the agent's wish, that before mastery, mastery before the number of turns.
  function NamedReason(mastery: Option<real>, d: Decision): Reason {
    match d.action
    case SwitchToPlan => PlanSwitch
    case Finish => AgentFinish
    case _ => if mastery.Some? && mastery.value >= 0.85 then MasteryReached else MaxTurns
  }

  // The closing screen of a session with this history.
  predicate ClosingScreen(history: seq<Turn>, turn: int, mastery: Option<real>, d: Decision, content: Content, shown: Artifact) {
    && shown.done && shown.turn == turn && shown.trajectory == history
    && shown.decision == d && shown.mastery == mastery
    && shown.questions == [] && shown.lesson.None?
    && shown.reason == NamedReason(mastery, d)
    && shown.learningPath == (if content.PlanContent? then Some(content.path) else None)
    && shown.summary.Some?
    && var s := shown.summary.value;
       && s.reason == shown.reason && s.mastery == mastery && s.evaluation == d.reason
       && |s.scores| == |history| && forall i :: 0 <= i < |s.scores| ==> s.scores[i] == history[i].score
  }

  // The screen that opens a turn adds the decision behind it to the history.
  predicate TurnScreen(history: seq<Turn>, turn: int, mastery: Option<real>, d: Decision, shown: Artifact) {
    && !shown.done && shown.turn == turn && |shown.trajectory| == |history| + 1
    && shown.decision == d && shown.mastery == mastery
    && (forall i :: 0 <= i < |history| ==> shown.trajectory[i] == history[i])
    && shown.trajectory[|history|] == Turn(turn, d.action, d.topic, d.difficultyScore, d.reason, None, None, [])
    && shown.summary.None? && shown.reason.NoReason? && shown.learningPath.None?
  }

  // The quiz of a new turn asks the generated questions, in the kind decided, and nobody has answered it.
  predicate FreshlyAsked(o: Owner, turn: int, d: Decision, asked: seq<Question>, q: Quiz) {
    && q.id == QuizId(o.session, turn) && q.user == o.user && q.document == o.document
    && |q.questions| == |asked|
    && (forall i :: 0 <= i < |asked| ==>
          q.questions[i].text == asked[i].text && q.questions[i].options == asked[i].options
          && q.questions[i].answer == asked[i].answer && q.questions[i].kind == d.questionType)
    && q.status.QuizActive? && q.answers == [] && q.grades == map[] && q.report.None? && !q.profileWritten
  }

  predicate ShowsQuestions(q: Quiz, shown: Artifact) {
    && |shown.questions| == |q.questions|
    && forall i :: 0 <= i < |q.questions| ==>
         var view := shown.questions[i];
         view.index == i && view.text == q.questions[i].text && view.options == q.questions[i].options && view.kind == q.questions[i].kind
  }

  // A lesson is shown without a quiz; a quiz is asked as generated and shown without its answers.
  predicate ShowsContent(o: Owner, turn: int, d: Decision, content: Content, shown: Artifact, quiz: Option<Quiz>) {
    if d.action == Teach then
      && content.LessonContent? && shown.turnType.TeachTurn? && quiz.None? && shown.questions == []
      && shown.lesson == if Strip(content.text) == "" then None else Some(Strip(content.text))
    else
      && content.QuizContent? && shown.turnType.QuizTurn? && quiz.Some? && shown.lesson.None?
      && FreshlyAsked(o, turn, d, content.questions, quiz.value) && ShowsQuestions(quiz.value, shown)
  }

  // The last report as the learner sees it: its score, every answer beside the right one, its gaps stripped.
  predicate ShowsLastReport(report: Option<Report>, shown: Artifact) {
    if report.None? then shown.lastScore.None? && shown.lastFeedback == [] && shown.lastGaps == []
    else
      var grades, gaps := report.value.grades, GapsOf(report.value.grades);
      && shown.lastScore == Some(report.value.score)
      && |shown.lastFeedback| == |grades|
      && (forall i :: 0 <= i < |grades| ==>
            shown.lastFeedback[i] == Feedback(grades[i].index, grades[i].question, grades[i].userAnswer,
                                              grades[i].correctAnswer, grades[i].isCorrect, grades[i].aiFeedback, grades[i].gap))
      && |shown.lastGaps| == |gaps|
      && forall k :: 0 <= k < |gaps| ==> shown.lastGaps[k] == Strip(gaps[k])
  }

  // Settling a turn closes the session or opens the next turn, exactly by the decision, the mastery and the turn.
  lemma SettledScreen(a: Aggregate, e: Event)
    requires e.FinishTurn? && Enabled(a, e)
    ensures var b, p := Apply(a, e), a.pending.value;
            var d := p.nextDecision.value;
            && b.pending.None? && b.lastReport == a.lastReport
            && (b.status.Completed? <==> Ends(p.mastery, p.turn, d))
            && (if Ends(p.mastery, p.turn, d) then
                  ClosingScreen(a.artifact.trajectory, p.turn, p.mastery, d, e.content, b.artifact) && b.quiz == a.quiz
                else TurnScreen(a.artifact.trajectory, p.turn + 1, p.mastery, d, b.artifact))
  {
  }

  lemma SettledContent(a: Aggregate, e: Event)
    requires e.FinishTurn? && Enabled(a, e)
    ensures var b, p := Apply(a, e), a.pending.value;
            var d := p.nextDecision.value;
            && ShowsLastReport(a.lastReport, b.artifact)
            && (!Ends(p.mastery, p.turn, d) ==> ShowsContent(OwnerOf(a), p.turn + 1, d, e.content, b.artifact, b.quiz))
  {
    if e.content.LessonContent? {
      StripFacts(e.content.text);
    }
  }

  // A session opens by the same rules, before anything was answered.
  lemma OpeningScreen(o: Owner, mastery: Option<real>, d: Decision, content: Content)
    requires ContentFits(ExitReason(mastery, 1, d), d, content)
    ensures var b := Opening(o, mastery, d, content);
            && OwnerOf(b) == o && b.pending.None? && b.lastReport.None? && b.receipts == map[]
            && ShowsLastReport(None, b.artifact)
            && (b.status.Completed? <==> Ends(mastery, 1, d))
            && (if Ends(mastery, 1, d) then
                  b.artifact.trajectory == [Turn(1, d.action, d.topic, d.difficultyScore, d.reason, None, None, [])] && b.quiz.None?
                  && ClosingScreen(b.artifact.trajectory, 1, mastery, d, content, b.artifact)
                else TurnScreen([], 1, mastery, d, b.artifact) && ShowsContent(o, 1, d, content, b.artifact, b.quiz))
  {
    if content.LessonContent? {
      StripFacts(content.text);
    }
  }

  // What every other stage puts on record, and that it leaves the rest alone.
  lemma StageRecords(a: Aggregate, e: Event)
    requires Enabled(a, e) && !e.FinishTurn?
    ensures var b := Apply(a, e);
            && b == a.(pending := b.pending, quiz := b.quiz, lastReport := b.lastReport, artifact := b.artifact)
            && b.artifact == a.artifact.(trajectory := b.artifact.trajectory)
            && (!e.ReadMastery? ==> b.artifact == a.artifact)
            && (e.BindInput? || e.ReadMastery? || e.Decide? ==> b.quiz == a.quiz && b.lastReport == a.lastReport)
            && (!e.BindInput? && !e.ReadMastery? && !e.Decide? ==> b.pending == a.pending)
            && match e
               case BindInput(request, key, revision) =>
                 b.pending == Some(Pending(key, request, request.turn, request.revision, request.answers, None, None))
               case BindAnswers =>
                 b.quiz == Some(a.quiz.value.(answers := a.pending.value.answers, status := QuizCompleted)) && b.lastReport == a.lastReport
               case CacheGrades(added) =>
                 && b.lastReport == a.lastReport && b.quiz.Some? && b.quiz == Some(a.quiz.value.(grades := b.quiz.value.grades))
                 && (forall i :: i in b.quiz.value.grades <==> i in a.quiz.value.grades || i in added)
                 && (forall i :: i in b.quiz.value.grades ==>
                       b.quiz.value.grades[i] == if i in added then added[i] else a.quiz.value.grades[i])
               case RecordReport => b.lastReport == a.quiz.value.report && b.quiz == a.quiz
               case CommitMemory => b.quiz == Some(a.quiz.value.(profileWritten := true)) && b.lastReport == a.lastReport
               case ReadMastery(mastery) => b.pending == Some(a.pending.value.(mastery := mastery))
               case _ => true
  {
  }

  // A usable proposal is decided as it is; only a second lesson in a row becomes a repetition. Without one the
  // decision follows the score of the last report.
  lemma DecisionStands(a: Aggregate, e: Event)
    requires e.Decide? && Enabled(a, e)
    ensures var b := Apply(a, e);
            && b.pending.Some? && b.pending.value.nextDecision.Some?
            && b.pending == Some(a.pending.value.(nextDecision := b.pending.value.nextDecision))
            && var d := b.pending.value.nextDecision.value;
               && (e.proposed.Some? && DecisionOk(e.proposed.value) ==>
                     d == if e.proposed.value.action == Teach && a.artifact.turnType == TeachTurn
                          then e.proposed.value.(action := Remediate) else e.proposed.value)
               && (e.proposed.None? ==>
                     d.topic == a.goal
                     && d.action == if a.lastReport.None? then Continue else if a.lastReport.value.score < 0.5 then Remediate else Advance)
  {
  }

  // ---- what the history records of a settled turn ----

  // As long as a quiz turn carries a mastery, its entry holds the score and the gaps of its report.
  predicate TurnScored(a: Aggregate) {
    a.pending.Some? && a.pending.value.mastery.Some? && a.artifact.turnType.QuizTurn? ==>
      && a.lastReport.Some? && a.artifact.trajectory != []
      && var entry := a.artifact.trajectory[|a.artifact.trajectory| - 1];
         && entry.score == Some(a.lastReport.value.score)
         && entry.masteryAfter == a.pending.value.mastery
         && entry.gaps == GapsOf(a.lastReport.value.grades)
  }

  // A quiz turn with a mastery on record is graded and written to memory.
  lemma MasteryComesLast(a: Aggregate)
    requires Sound(a) && a.pending.Some? && a.pending.value.mastery.Some? && a.artifact.turnType.QuizTurn?
    ensures a.quiz.Some? && a.quiz.value.status.QuizCompleted? && a.quiz.value.profileWritten
    ensures a.quiz.value.report.Some? && a.lastReport == a.quiz.value.report
  {
    hide LoopInv, ArtifactOk, ReceiptsOk, PendingSubmitOk, QuestionsOk;
  }

  lemma StageKeepsScored(a: Aggregate, e: Event)
    requires Sound(a) && Enabled(a, e) && TurnScored(a)
    ensures TurnScored(Apply(a, e))
  {
    hide Sound, ContentFits, ExitReason, NextScreen, CanBind;
    if a.pending.Some? && a.pending.value.mastery.Some? && a.artifact.turnType.QuizTurn? {
      MasteryComesLast(a);
    }
  }

  lemma {:induction false} ScoredInRun(h: seq<Aggregate>, es: seq<Event>, i: nat)
    requires Run(h, es) && i < |h| && h[0].pending.None?
    ensures TurnScored(h[i])
  {
    hide Sound, Apply, Enabled, Valid, TurnScored;
    if i > 0 {
      ScoredInRun(h, es, i - 1);
      RunSound(h, es, i - 1);
      assert StageFrom(h[i - 1], es[i - 1], h[i]);
      StageKeepsScored(h[i - 1], es[i - 1]);
    } else {
      NothingScored(h[0]);
    }
  }

  lemma NothingScored(a: Aggregate)
    requires a.pending.None?
    ensures TurnScored(a)
  {
  }

  lemma StageKeepsEntry(a: Aggregate, e: Event, k: nat)
    requires Sound(a) && Enabled(a, e) && k + 1 < Rank(a)
    ensures k < |a.artifact.trajectory| && k < |Apply(a, e).artifact.trajectory|
    ensures Apply(a, e).artifact.trajectory[k] == a.artifact.trajectory[k]
  {
    hide Valid;
    LivingStage(a, e);
  }

  lemma LivingStage(a: Aggregate, e: Event)
    requires Sound(a) && Enabled(a, e)
    ensures !a.artifact.done
  {
    hide Sound;
    if a.artifact.done {
      DoneIsFinal(a, e);
    }
  }

  lemma {:induction false} EntriesAreKept(h: seq<Aggregate>, es: seq<Event>, i: nat, j: nat, k: nat)
    requires Run(h, es) && i <= j < |h| && k < |h[i].artifact.trajectory| && k + 1 < Rank(h[i])
    ensures k < |h[j].artifact.trajectory| && h[j].artifact.trajectory[k] == h[i].artifact.trajectory[k]
    decreases j - i
  {
    hide Sound, Apply, Enabled, Valid;
    if i < j {
      EntriesAreKept(h, es, i, j - 1, k);
      RanksGrow(h, es, i, j - 1);
      RunSound(h, es, j - 1);
      assert StageFrom(h[j - 1], es[j - 1], h[j]);
      StageKeepsEntry(h[j - 1], es[j - 1], k);
    }
  }

  lemma SettledEntry(a: Aggregate, e: Event)
    requires Sound(a) && e.FinishTurn? && Enabled(a, e) && a.artifact.turnType.QuizTurn? && TurnScored(a)
    ensures var b, t := Apply(a, e), a.artifact.turn;
            && a.quiz.Some? && a.lastReport.Some? && ReportsGrades(a.quiz.value, a.lastReport.value)
            && t >= 1 && |b.artifact.trajectory| >= t && Rank(b) == t + 1
            && b.artifact.trajectory[t - 1].score == Some(a.lastReport.value.score)
            && b.artifact.trajectory[t - 1].masteryAfter == a.pending.value.mastery
            && b.artifact.trajectory[t - 1].gaps == GapsOf(a.lastReport.value.grades)
  {
    hide Valid, ReportsGrades;
    DecidedQuiz(a);
    ReportOfQuiz(a.quiz.value, a.lastReport.value);
    DecidedTurn(a);
    DecisionHasMastery(a);
    StageRank(a, e);
    LivingStage(a, e);
  }

  lemma DecisionHasMastery(a: Aggregate)
    requires Sound(a) && a.pending.Some? && a.pending.value.nextDecision.Some?
    ensures a.pending.value.mastery.Some?
  {
    hide LoopInv, ArtifactOk, ReceiptsOk, QuizBindingOk, PhaseOk;
  }

  // Main result: from the moment a quiz turn is settled, its entry in the history shows for ever the score of
  // the report on its quiz, which is the share of correct answers, the mastery read then and the gaps it exposed.
  lemma SettledTurnsAreRecorded(h: seq<Aggregate>, es: seq<Event>, i: nat, j: nat)
    requires Run(h, es) && h[0].pending.None? && i < |es| && i < j < |h| && es[i].FinishTurn? && h[i].artifact.turnType.QuizTurn?
    ensures var a, t := h[i], h[i].artifact.turn;
            && a.quiz.Some? && a.lastReport.Some? && a.pending.Some? && ReportsGrades(a.quiz.value, a.lastReport.value)
            && 1 <= t <= |h[j].artifact.trajectory|
            && h[j].artifact.trajectory[t - 1].score == Some(a.lastReport.value.score)
            && h[j].artifact.trajectory[t - 1].masteryAfter == a.pending.value.mastery
            && h[j].artifact.trajectory[t - 1].gaps == GapsOf(a.lastReport.value.grades)
  {
    hide Sound, Apply, Valid, TurnScored, ReportsGrades;
    RunSound(h, es, i);
    assert StageFrom(h[i], es[i], h[i + 1]);
    ScoredInRun(h, es, i);
    SettledEntry(h[i], es[i]);
    EntriesAreKept(h, es, i + 1, j, h[i].artifact.turn - 1);
  }
}
