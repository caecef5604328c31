// The stages of a claimed submit as functions on the durable aggregate. One event is
// one checkpoint (or the completing write); its payload carries what grading, memory
// and the model answered.

module SubmitPipeline {
  import opened Options
  import opened Text
  import opened AdaptiveModels
  import opened AdaptiveLoop

  datatype Content = NoContent | PlanContent(path: string) | LessonContent(text: string) | QuizContent(questions: seq<Question>)

  datatype Event =
    | BindInput(request: Request, key: Option<Key>, revision: int)
    | BindAnswers
    | CacheGrades(added: map<int, Grade>)
    | PublishReport
    | RecordReport
    | CommitMemory
    | ReadMastery(mastery: Option<real>)
    | Decide(proposed: Option<Decision>, weakPoints: seq<string>)
    | FinishTurn(content: Content)

  // ---- building artifacts ----

  function AppendTurn(trajectory: seq<Turn>, turn: int, d: Decision): seq<Turn> {
    trajectory + [Turn(turn, d.action, d.topic, d.difficultyScore, d.reason, None, None, [])]
  }

  function StripAll(texts: seq<string>): seq<string> {
    seq(|texts|, i requires 0 <= i < |texts| => Strip(texts[i]))
  }

  function Scores(trajectory: seq<Turn>): seq<Option<real>> {
    seq(|trajectory|, i requires 0 <= i < |trajectory| => trajectory[i].score)
  }

  function TerminalArtifact(session: string, turn: int, d: Decision, trajectory: seq<Turn>, mastery: Option<real>,
                            report: Option<Report>, reason: Reason, path: Option<string>): Artifact {
    Artifact(session, turn, true, QuizTurn, [], None, d, ReportScore(report), StripAll(ReportGaps(report)),
             ReportFeedback(report), mastery, trajectory,
             Some(Summary(reason, Scores(trajectory), mastery, d.reason)), reason, path)
  }

  // The artifact's lesson is stripped, and a blank one counts as missing.
  function NormalizedLesson(lesson: Option<string>): Option<string> {
    if lesson.Some? && !Blank(lesson.value) then Some(Strip(lesson.value)) else None
  }

  function OngoingArtifact(session: string, turn: int, d: Decision, trajectory: seq<Turn>, mastery: Option<real>,
                           report: Option<Report>, lesson: Option<string>, questions: seq<Question>): Artifact {
    Artifact(session, turn, false, if lesson.Some? then TeachTurn else QuizTurn, QuestionViews(questions),
             NormalizedLesson(lesson), d, ReportScore(report), StripAll(ReportGaps(report)),
             ReportFeedback(report), mastery, trajectory, None, NoReason, None)
  }

  function WithKind(questions: seq<Question>, kind: QuestionType): seq<Question> {
    seq(|questions|, i requires 0 <= i < |questions| => questions[i].(kind := kind))
  }

  function FreshQuiz(session: string, turn: int, document: string, user: string, questions: seq<Question>): Quiz {
    Quiz(QuizId(session, turn), document, user, questions, [], QuizActive, map[], None, false)
  }

  // Why a turn ends the session: a planning decision comes before every other exit.
  function ExitReason(mastery: Option<real>, turn: int, d: Decision): Reason {
    if d.action.SwitchToPlan? then PlanSwitch else ShouldTerminate(mastery, turn, d)
  }

  predicate ContentFits(reason: Reason, d: Decision, content: Content) {
    match reason
    case PlanSwitch => content.PlanContent?
    case NoReason => if d.action.Teach? then content.LessonContent? else content.QuizContent?
    case _ => content.NoContent?
  }

  datatype Screen = Screen(artifact: Artifact, quiz: Option<Quiz>, status: Status)

  datatype Owner = Owner(session: string, user: string, document: string, goal: string)

  function OwnerOf(a: Aggregate): Owner {
    Owner(a.session, a.user, a.document, a.goal)
  }

  function ShowNext(o: Owner, turn: int, d: Decision, trajectory: seq<Turn>, mastery: Option<real>,
                    report: Option<Report>, content: Content): Screen
    requires ContentFits(NoReason, d, content)
  {
    match content
    case LessonContent(text) =>
      Screen(OngoingArtifact(o.session, turn, d, trajectory, mastery, report, Some(text), []), None, Active)
    case QuizContent(questions) =>
      var asked := WithKind(questions, d.questionType);
      Screen(OngoingArtifact(o.session, turn, d, trajectory, mastery, report, None, asked),
             Some(FreshQuiz(o.session, turn, o.document, o.user, asked)), Active)
  }

  // _opening_state
  function Opening(o: Owner, mastery: Option<real>, d: Decision, content: Content): Aggregate
    requires ContentFits(ExitReason(mastery, 1, d), d, content)
  {
    var reason, history := ExitReason(mastery, 1, d), AppendTurn([], 1, d);
    var screen :=
      if !reason.NoReason? then
        Screen(TerminalArtifact(o.session, 1, d, history, mastery, None, reason,
                                if reason.PlanSwitch? then Some(content.path) else None), None, Completed)
      else ShowNext(o, 1, d, history, mastery, None, content);
    Aggregate(o.session, o.user, o.document, o.goal, screen.status, screen.quiz, None, screen.artifact, None, map[])
  }

  // _next_artifact
  function NextScreen(a: Aggregate, d: Decision, content: Content): Screen
    requires a.pending.Some?
    requires ContentFits(ExitReason(a.pending.value.mastery, a.pending.value.turn, d), d, content)
  {
    var p := a.pending.value;
    var reason := ExitReason(p.mastery, p.turn, d);
    if !reason.NoReason? then
      Screen(TerminalArtifact(a.session, p.turn, d, a.artifact.trajectory, p.mastery, a.lastReport, reason,
                              if reason.PlanSwitch? then Some(content.path) else None),
             a.quiz, Completed)
    else
      ShowNext(OwnerOf(a), p.turn + 1, d, AppendTurn(a.artifact.trajectory, p.turn + 1, d), p.mastery, a.lastReport, content)
  }

  // ---- the stages ----

  predicate GradesFor(q: Quiz, added: map<int, Grade>) {
    forall i :: i in added ==> i !in q.grades && GradeMatches(q, i, added[i])
  }

  predicate Graded(q: Quiz) {
    forall i :: 0 <= i < |q.questions| ==> i in q.grades
  }

  function GradeSequence(q: Quiz): seq<Grade>
    requires Graded(q)
  {
    seq(|q.questions|, i requires 0 <= i < |q.questions| => q.grades[i])
  }

  function BuildReport(q: Quiz): Report
    requires Graded(q) && q.questions != []
  {
    var grades := GradeSequence(q);
    Report(q.id, |grades|, CountCorrect(grades), RoundedShare(CountCorrect(grades), |grades|), grades)
  }

  predicate Grading(a: Aggregate) {
    && a.pending.Some? && a.artifact.turnType.QuizTurn? && a.quiz.Some?
    && a.quiz.value.status.QuizCompleted? && a.quiz.value.questions != []
  }

  // A quiz turn may decide only after its report was graded and written to memory.
  predicate ReadyToDecide(a: Aggregate) {
    && a.pending.Some? && a.pending.value.nextDecision.None?
    && a.artifact.trajectory != []
    && (a.artifact.turnType.QuizTurn? ==> a.quiz.Some? && a.quiz.value.profileWritten && a.lastReport.Some?)
  }

  predicate AnswersFit(a: Aggregate, answers: seq<string>) {
    match a.artifact.turnType
    case TeachTurn => answers == []
    case QuizTurn => a.quiz.Some? && |answers| == |a.quiz.value.questions|
  }

  predicate CanBind(a: Aggregate, request: Request, key: Option<Key>, revision: int) {
    && a.status.Active? && a.pending.None?
    && RequestOk(request) && request.session == a.session
    && request.turn == a.artifact.turn && request.revision == revision
    && (key.Some? ==> key.value !in a.receipts)
    && AnswersFit(a, request.answers)
  }

  function NextDecision(a: Aggregate, proposed: Option<Decision>, weakPoints: seq<string>): Decision {
    DecideNext(proposed, a.goal, weakPoints, ReportScore(a.lastReport), !a.artifact.turnType.TeachTurn?)
  }

  predicate Enabled(a: Aggregate, e: Event) {
    match e
    case BindInput(request, key, revision) => CanBind(a, request, key, revision)
    case BindAnswers => a.pending.Some? && a.artifact.turnType.QuizTurn? && a.quiz.Some? && a.quiz.value.status.QuizActive?
    case CacheGrades(added) => Grading(a) && a.quiz.value.report.None? && GradesFor(a.quiz.value, added)
    case PublishReport => Grading(a) && a.quiz.value.report.None? && Graded(a.quiz.value)
    case RecordReport => Grading(a) && a.quiz.value.report.Some?
    case CommitMemory => Grading(a) && a.quiz.value.report.Some? && a.lastReport == a.quiz.value.report && !a.quiz.value.profileWritten
    case ReadMastery(_) => ReadyToDecide(a)
    case Decide(_, _) => ReadyToDecide(a)
    case FinishTurn(content) =>
      && a.pending.Some? && a.pending.value.nextDecision.Some?
      && ContentFits(ExitReason(a.pending.value.mastery, a.pending.value.turn, a.pending.value.nextDecision.value),
                     a.pending.value.nextDecision.value, content)
  }

  function Bound(request: Request, key: Option<Key>): Pending {
    Pending(key, request, request.turn, request.revision, request.answers, None, None)
  }

  function ScoredTrajectory(a: Aggregate, mastery: Option<real>): seq<Turn>
    requires a.artifact.trajectory != [] && a.lastReport.Some?
  {
    var n := |a.artifact.trajectory| - 1;
    a.artifact.trajectory[n := a.artifact.trajectory[n].(
      score := Some(a.lastReport.value.score), masteryAfter := mastery, gaps := ReportGaps(a.lastReport))]
  }

  function WithMastery(a: Aggregate, mastery: Option<real>): Aggregate
    requires ReadyToDecide(a)
  {
    var b := a.(pending := Some(a.pending.value.(mastery := mastery)));
    if a.artifact.turnType.TeachTurn? then b
    else b.(artifact := a.artifact.(trajectory := ScoredTrajectory(a, mastery)))
  }

  function Completion(a: Aggregate, content: Content): Aggregate
    requires Enabled(a, FinishTurn(content))
  {
    var p := a.pending.value;
    var next := NextScreen(a, p.nextDecision.value, content);
    a.(artifact := next.artifact, quiz := next.quiz, status := next.status, pending := None,
       receipts := if p.key.None? then a.receipts
                   else a.receipts[p.key.value := Receipt(p.key.value, p.request, p.turn, p.revision, next.artifact)])
  }

  function Apply(a: Aggregate, e: Event): Aggregate
    requires Enabled(a, e)
  {
    match e
    case BindInput(request, key, _) => a.(pending := Some(Bound(request, key)))
    case BindAnswers => a.(quiz := Some(a.quiz.value.(answers := a.pending.value.answers, status := QuizCompleted)))
    case CacheGrades(added) => a.(quiz := Some(a.quiz.value.(grades := a.quiz.value.grades + added)))
    case PublishReport =>
      var report := Some(BuildReport(a.quiz.value));
      a.(quiz := Some(a.quiz.value.(report := report)), lastReport := report)
    case RecordReport => a.(lastReport := a.quiz.value.report)
    case CommitMemory => a.(quiz := Some(a.quiz.value.(profileWritten := true)))
    case ReadMastery(mastery) => WithMastery(a, mastery)
    case Decide(proposed, weakPoints) =>
      a.(pending := Some(a.pending.value.(nextDecision := Some(NextDecision(a, proposed, weakPoints)))))
    case FinishTurn(content) => Completion(a, content)
  }

  // ---- what every reachable aggregate keeps beyond its own validator ----

  predicate LessonsAlternate(trajectory: seq<Turn>) {
    forall i :: 0 <= i < |trajectory| - 1 && trajectory[i].action.Teach? ==> !trajectory[i + 1].action.Teach?
  }

  // The last report belongs to this session and, before its turn is being submitted, to an earlier turn.
  predicate ReportIsPast(a: Aggregate) {
    a.lastReport.Some? ==>
      var id := a.lastReport.value.quiz;
      && id.session == a.session && 1 <= id.turn <= a.artifact.turn
      && (!a.artifact.done && (a.artifact.turnType.TeachTurn? || a.pending.None?) ==> id.turn < a.artifact.turn)
  }

  // Submits already settled: one per turn left behind, plus the one that ended the session.
  function Rank(a: Aggregate): int {
    a.artifact.turn + if a.artifact.done then 1 else 0
  }

  predicate ReceiptsByTurn(a: Aggregate) {
    && |a.receipts| <= Rank(a) - 1
    && (forall k :: k in a.receipts ==> a.receipts[k].turn < Rank(a))
    && (forall k, l :: k in a.receipts && l in a.receipts && k != l ==> a.receipts[k].turn != a.receipts[l].turn)
  }

  predicate PendingIsRequest(p: Pending) {
    p.turn == p.request.turn && p.revision == p.request.revision && p.answers == p.request.answers
  }

  predicate LoopInv(a: Aggregate) {
    && 1 <= a.artifact.turn <= MAX_TURNS && |a.artifact.trajectory| == a.artifact.turn
    && LessonsAlternate(a.artifact.trajectory)
    && ReportIsPast(a)
    && ReceiptsByTurn(a)
    && (!a.artifact.done ==> a.artifact.trajectory[a.artifact.turn - 1].action == a.artifact.decision.action)
    && (!a.artifact.done && a.artifact.turnType.TeachTurn? ==>
         a.artifact.trajectory[a.artifact.turn - 1].score.None? && ShowsReport(a.artifact, a.lastReport))
    && (a.pending.Some? ==> PendingIsRequest(a.pending.value))
    && (a.pending.Some? && a.pending.value.nextDecision.Some? && a.pending.value.nextDecision.value.action.Teach? ==>
         a.artifact.turnType.QuizTurn?)
  }

  predicate Sound(a: Aggregate) {
    Valid(a) && LoopInv(a)
  }

  // ---- which results of the outside world the validator accepts ----

  predicate CleanGaps(report: Option<Report>) {
    forall g :: g in ReportGaps(report) ==> Clean(g)
  }

  predicate ContentOk(d: Decision, content: Content) {
    match content
    case LessonContent(text) => !Blank(text)
    case QuizContent(questions) => QuestionsOk(WithKind(questions, d.questionType))
    case _ => true
  }

  predicate Acceptable(a: Aggregate, e: Event)
    requires Enabled(a, e)
  {
    match e
    case ReadMastery(mastery) =>
      UnitInterval(mastery) && (a.artifact.turnType.QuizTurn? ==> forall g :: g in ReportGaps(a.lastReport) ==> !Blank(g))
    case Decide(proposed, weakPoints) =>
      a.pending.value.mastery.Some? && DecisionOk(NextDecision(a, proposed, weakPoints))
    case FinishTurn(content) =>
      ContentOk(a.pending.value.nextDecision.value, content) && CleanGaps(a.lastReport)
    case _ => true
  }
}
