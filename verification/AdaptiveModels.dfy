// The durable Adaptive aggregate and the validators every write must pass.
// Hashes are modelled by the hashed value itself, identifiers built from a
// session id and a turn by the pair of the two.

module AdaptiveModels {
  import opened Options
  import opened Text

  const MAX_ADAPTIVE_ANSWERS: nat := 10
  const MAX_SUBMIT_RECEIPTS: nat := 16
  const MAX_TRAJECTORY_TURNS: nat := 100

  type Key = string

  datatype Action = Advance | Remediate | Teach | Continue | SwitchToPlan | Finish | UnknownAction(text: string)

  datatype Difficulty = Easy | Medium | Hard | UnknownDifficulty(text: string)

  datatype QuestionType = Choice | TrueFalse | ShortAnswer | UnknownType(text: string)

  datatype Reason = NoReason | AgentFinish | MasteryReached | MaxTurns | PlanSwitch

  datatype Decision = Decision(
    action: Action, topic: string, difficulty: Difficulty, difficultyScore: real,
    questionType: QuestionType, count: int, weakPoints: seq<string>, reason: string)

  datatype Turn = Turn(
    turn: int, action: Action, topic: string, difficultyScore: real, reason: string,
    score: Option<real>, masteryAfter: Option<real>, gaps: seq<string>)

  datatype Question = Question(text: string, options: Option<seq<string>>, answer: string, kind: QuestionType)

  datatype QuestionView = QuestionView(index: int, text: string, options: Option<seq<string>>, kind: QuestionType)

  datatype Grade = Grade(
    index: int, question: string, userAnswer: string, correctAnswer: string,
    isCorrect: bool, aiFeedback: Option<string>, gap: Option<string>)

  datatype Feedback = Feedback(
    index: int, question: string, yourAnswer: string, correctAnswer: string,
    isCorrect: bool, aiFeedback: Option<string>, gap: Option<string>)

  datatype QuizId = QuizId(session: string, turn: int)

  datatype Report = Report(quiz: QuizId, total: int, correct: int, score: real, grades: seq<Grade>)

  datatype QuizStatus = QuizActive | QuizCompleted

  datatype Quiz = Quiz(
    id: QuizId, document: string, user: string, questions: seq<Question>, answers: seq<string>,
    status: QuizStatus, grades: map<int, Grade>, report: Option<Report>, profileWritten: bool)

  datatype TurnType = QuizTurn | TeachTurn

  // The closing text of a session, kept as the values it is formatted from.
  datatype Summary = Summary(reason: Reason, scores: seq<Option<real>>, mastery: Option<real>, evaluation: string)

  datatype Artifact = Artifact(
    session: string, turn: int, done: bool, turnType: TurnType, questions: seq<QuestionView>,
    lesson: Option<string>, decision: Decision, lastScore: Option<real>, lastGaps: seq<string>,
    lastFeedback: seq<Feedback>, mastery: Option<real>, trajectory: seq<Turn>,
    summary: Option<Summary>, reason: Reason, learningPath: Option<string>)

  datatype Request = Request(session: string, turn: int, revision: int, answers: seq<string>)

  datatype Pending = Pending(
    key: Option<Key>, request: Request, turn: int, revision: int, answers: seq<string>,
    nextDecision: Option<Decision>, mastery: Option<real>)

  datatype Receipt = Receipt(key: Key, request: Request, turn: int, revision: int, response: Artifact)

  datatype Status = Active | Completed

  datatype Aggregate = Aggregate(
    session: string, user: string, document: string, goal: string, status: Status,
    quiz: Option<Quiz>, lastReport: Option<Report>, artifact: Artifact,
    pending: Option<Pending>, receipts: map<Key, Receipt>)

  // ---- scores ----

  predicate UnitInterval(x: Option<real>) {
    x.Some? ==> 0.0 <= x.value <= 1.0
  }

  function CountCorrect(grades: seq<Grade>): (n: nat)
    ensures n <= |grades|
  {
    if grades == [] then 0
    else CountCorrect(grades[..|grades| - 1]) + if grades[|grades| - 1].isCorrect then 1 else 0
  }

  // The grades the correct ones are counted among, by position.
  ghost function CorrectOnes(grades: seq<Grade>): set<int> {
    set i | 0 <= i < |grades| && grades[i].isCorrect
  }

  lemma {:induction false} CorrectOnesAreCounted(grades: seq<Grade>)
    ensures CountCorrect(grades) == |CorrectOnes(grades)|
  {
    if grades != [] {
      var last := |grades| - 1;
      CorrectOnesAreCounted(grades[..last]);
      assert CorrectOnes(grades) == CorrectOnes(grades[..last]) + if grades[last].isCorrect then {last} else {};
    }
  }

  // round(correct / total, 2): hundredths, ties to even.
  function RoundedShare(correct: int, total: int): real
    requires total > 0
  {
    var quotient, rest := 100 * correct / total, 100 * correct % total;
    (if 2 * rest > total || (2 * rest == total && quotient % 2 == 1) then quotient + 1 else quotient) as real / 100.0
  }

  lemma NonNegativeFactor(t: int, x: int)
    requires t > 0 && t * x >= 0
    ensures x >= 0
  {
  }

  lemma RoundedShareInUnit(correct: int, total: int)
    requires 0 <= correct <= total && total > 0
    ensures 0.0 <= RoundedShare(correct, total) <= 1.0
  {
    var quotient, rest := 100 * correct / total, 100 * correct % total;
    assert total * (100 - quotient) == 100 * total - 100 * correct + rest;
    NonNegativeFactor(total, 100 - quotient);
    assert quotient == 100 ==> rest == 0;
  }

  // The hundredths nearest to correct / total, the even ones of two equally near.
  predicate NearestHundredths(c: int, correct: int, total: int) {
    && -total <= 2 * (100 * correct - c * total) <= total
    && (2 * (100 * correct - c * total) == total || 2 * (100 * correct - c * total) == -total ==> c % 2 == 0)
  }

  // The score of a report is the share of correct answers to the nearest hundredth: 1 if all are
  // correct, 0 if none is.
  ghost predicate ScoreIsShare(score: real, correct: int, total: int) {
    && 0.0 <= score <= 1.0
    && (exists c: int :: score == c as real / 100.0 && NearestHundredths(c, correct, total))
    && (correct == total ==> score == 1.0)
    && (correct == 0 ==> score == 0.0)
  }

  lemma NearestIsRounded(correct: int, total: int, quotient: int, rest: int)
    requires 100 * correct == quotient * total + rest && 0 <= rest < total
    ensures NearestHundredths(if 2 * rest > total || (2 * rest == total && quotient % 2 == 1) then quotient + 1 else quotient, correct, total)
  {
    assert (quotient + 1) * total == quotient * total + total;
  }

  lemma WholeQuotient(total: int, quotient: int, rest: int)
    requires 100 * total == quotient * total + rest && 0 <= rest < total
    ensures quotient == 100 && rest == 0
  {
    assert total * (100 - quotient) == rest;
    NonNegativeFactor(total, 100 - quotient);
    assert total * (quotient - 99) == total - rest;
    NonNegativeFactor(total, quotient - 99);
  }

  lemma RoundedShareIsNearest(correct: int, total: int)
    requires 0 <= correct <= total && total > 0
    ensures ScoreIsShare(RoundedShare(correct, total), correct, total)
  {
    hide NearestHundredths;
    var quotient, rest := 100 * correct / total, 100 * correct % total;
    RoundedShareInUnit(correct, total);
    assert 100 * correct == quotient * total + rest && 0 <= rest < total;
    NearestIsRounded(correct, total, quotient, rest);
    if correct == total {
      WholeQuotient(total, quotient, rest);
    }
    if correct == 0 {
      assert quotient == 0 && rest == 0;
    }
  }

  // What a report that passes the validator says: it counts its own correct grades, and its score is their share.
  lemma ReportCountsItsGrades(r: Report)
    requires ReportOk(r)
    ensures r.total == |r.grades| && r.correct == |CorrectOnes(r.grades)|
    ensures ScoreIsShare(r.score, |CorrectOnes(r.grades)|, |r.grades|)
  {
    CorrectOnesAreCounted(r.grades);
    RoundedShareIsNearest(r.correct, r.total);
  }

  // ---- projections of a report ----

  function FeedbackOf(g: Grade): Feedback {
    Feedback(g.index, g.question, g.userAnswer, g.correctAnswer, g.isCorrect, g.aiFeedback, g.gap)
  }

  predicate ExposesGap(g: Grade) {
    !g.isCorrect && g.gap.Some? && g.gap.value != ""
  }

  function GapsOf(grades: seq<Grade>): (gaps: seq<string>)
    ensures |gaps| <= |grades|
  {
    if grades == [] then []
    else
      var last := grades[|grades| - 1];
      GapsOf(grades[..|grades| - 1]) + if ExposesGap(last) then [last.gap.value] else []
  }

  function ReportGaps(report: Option<Report>): seq<string> {
    if report.None? then [] else GapsOf(report.value.grades)
  }

  function ReportFeedback(report: Option<Report>): seq<Feedback> {
    if report.None? then [] else seq(|report.value.grades|, i requires 0 <= i < |report.value.grades| => FeedbackOf(report.value.grades[i]))
  }

  function ReportScore(report: Option<Report>): Option<real> {
    if report.None? then None else Some(report.value.score)
  }

  function QuestionViews(questions: seq<Question>): seq<QuestionView> {
    seq(|questions|, i requires 0 <= i < |questions| =>
      QuestionView(i, questions[i].text, questions[i].options, questions[i].kind))
  }

  // The gaps shown are those of the wrong answers that name one, in the order of the questions:
  // `at` lists the positions they come from.
  ghost predicate GapsComeFrom(grades: seq<Grade>, gaps: seq<string>, at: seq<int>) {
    && |at| == |gaps|
    && (forall k :: 0 <= k < |at| ==>
          0 <= at[k] < |grades| && !grades[at[k]].isCorrect && grades[at[k]].gap == Some(gaps[k]) && gaps[k] != "")
    && (forall k, l :: 0 <= k < l < |at| ==> at[k] < at[l])
    && (forall i :: 0 <= i < |grades| && !grades[i].isCorrect && grades[i].gap.Some? && grades[i].gap.value != "" ==> i in at)
  }

  lemma NoGaps()
    ensures GapsComeFrom([], [], [])
  {
  }

  lemma OneMoreGap(grades: seq<Grade>, gaps: seq<string>, at: seq<int>, last: Grade)
    requires GapsComeFrom(grades, gaps, at)
    ensures ExposesGap(last) ==> GapsComeFrom(grades + [last], gaps + [last.gap.value], at + [|grades|])
    ensures !ExposesGap(last) ==> GapsComeFrom(grades + [last], gaps, at)
  {
    var more := grades + [last];
    assert forall i :: 0 <= i < |grades| ==> more[i] == grades[i];
    forall i | 0 <= i < |grades| && ExposesGap(more[i]) ensures i in at && i in at + [|grades|] {
      assert !grades[i].isCorrect;
    }
  }

  lemma {:induction false} GapsAreThoseOfWrongAnswers(grades: seq<Grade>)
    ensures exists at :: GapsComeFrom(grades, GapsOf(grades), at)
  {
    hide GapsComeFrom;
    if grades == [] {
      NoGaps();
      assert GapsOf(grades) == [];
    } else {
      var front, last := grades[..|grades| - 1], grades[|grades| - 1];
      GapsAreThoseOfWrongAnswers(front);
      var at :| GapsComeFrom(front, GapsOf(front), at);
      assert grades == front + [last];
      OneMoreGap(front, GapsOf(front), at, last);
      assert GapsOf(grades) == if ExposesGap(last) then GapsOf(front) + [last.gap.value] else GapsOf(front);
    }
  }

  // What the learner sees of a question does not depend on its answer.
  lemma ViewsHideAnswers(questions: seq<Question>, others: seq<Question>)
    requires |questions| == |others|
    requires forall i :: 0 <= i < |questions| ==> others[i] == questions[i].(answer := others[i].answer)
    ensures QuestionViews(questions) == QuestionViews(others)
    ensures |QuestionViews(questions)| == |questions|
    ensures forall i :: 0 <= i < |questions| ==>
              var q, v := questions[i], QuestionViews(questions)[i];
              v.index == i && v.text == q.text && v.options == q.options && v.kind == q.kind
  {
    forall i | 0 <= i < |questions| ensures QuestionViews(questions)[i] == QuestionViews(others)[i] {
      assert others[i].text == questions[i].text;
    }
  }

  // ---- decisions and artifacts ----

  predicate WeakPointsOk(points: seq<string>) {
    |points| <= 100 && forall p :: p in points ==> !Blank(p)
  }

  predicate DecisionOk(d: Decision) {
    && !d.action.UnknownAction?
    && !d.difficulty.UnknownDifficulty?
    && !d.questionType.UnknownType?
    && 0.0 <= d.difficultyScore <= 1.0
    && 1 <= d.count <= MAX_ADAPTIVE_ANSWERS
    && !Blank(d.topic)
    && WeakPointsOk(d.weakPoints)
  }

  predicate TurnOk(t: Turn) {
    && !t.action.UnknownAction?
    && 0.0 <= t.difficultyScore <= 1.0
    && UnitInterval(t.score)
    && UnitInterval(t.masteryAfter)
    && !Blank(t.topic)
    && |t.gaps| <= 100
    && forall g :: g in t.gaps ==> !Blank(g)
  }

  predicate TrajectoryOk(trajectory: seq<Turn>, turn: int) {
    && |trajectory| == turn
    && forall i :: 0 <= i < |trajectory| ==> trajectory[i].turn == i + 1 && TurnOk(trajectory[i])
  }

  predicate FeedbackOk(f: Feedback) {
    0 <= f.index < MAX_ADAPTIVE_ANSWERS && f.question != "" && f.yourAnswer != "" && f.correctAnswer != ""
  }

  predicate ReportViewOk(a: Artifact) {
    && UnitInterval(a.lastScore)
    && |a.lastGaps| <= 100
    && (forall g :: g in a.lastGaps ==> Clean(g))
    && |a.lastFeedback| <= MAX_ADAPTIVE_ANSWERS
    && (forall f :: f in a.lastFeedback ==> FeedbackOk(f))
    && (forall i, j :: 0 <= i < j < |a.lastFeedback| ==> a.lastFeedback[i].index != a.lastFeedback[j].index)
  }

  predicate TerminalOk(a: Artifact) {
    && a.questions == [] && a.lesson.None?
    && a.summary.Some? && !a.reason.NoReason?
    && (a.decision.action.Finish? <==> a.reason.AgentFinish?)
    && (a.decision.action.SwitchToPlan? <==> a.reason.PlanSwitch?)
    && (a.reason.PlanSwitch? <==> a.learningPath.Some?)
  }

  predicate OngoingOk(a: Artifact) {
    && a.summary.None? && a.reason.NoReason? && a.learningPath.None?
    && !a.decision.action.Finish? && !a.decision.action.SwitchToPlan?
    && match a.turnType
       case QuizTurn => a.questions != [] && a.lesson.None? && !a.decision.action.Teach?
       case TeachTurn => a.questions == [] && a.lesson.Some? && a.decision.action.Teach?
  }

  // AdaptiveTurnArtifact.validate_artifact with its field validators.
  predicate ArtifactOk(a: Artifact) {
    && 1 <= a.turn <= MAX_TRAJECTORY_TURNS
    && DecisionOk(a.decision)
    && TrajectoryOk(a.trajectory, a.turn)
    && ReportViewOk(a)
    && UnitInterval(a.mastery)
    && |a.questions| <= MAX_ADAPTIVE_ANSWERS
    && (forall i :: 0 <= i < |a.questions| ==> a.questions[i].index == i)
    && (a.lesson.Some? ==> Clean(a.lesson.value))
    && if a.done then TerminalOk(a) else OngoingOk(a)
  }

  // ---- quizzes and reports ----

  predicate QuestionOk(q: Question) {
    && !Blank(q.text) && !Blank(q.answer)
    && (q.options.Some? ==> |q.options.value| <= 20 && forall o :: o in q.options.value ==> !Blank(o))
  }

  predicate QuestionsOk(questions: seq<Question>) {
    1 <= |questions| <= MAX_ADAPTIVE_ANSWERS && forall q :: q in questions ==> QuestionOk(q)
  }

  // A cached grade belongs to the question and answer at its index.
  predicate GradeMatches(q: Quiz, index: int, g: Grade) {
    && 0 <= index < |q.questions| && index < |q.answers|
    && g.index == index
    && g.question == q.questions[index].text
    && g.userAnswer == q.answers[index]
    && g.correctAnswer == q.questions[index].answer
  }

  predicate ReportOk(r: Report) {
    && r.total > 0 && |r.grades| == r.total
    && (forall i :: 0 <= i < r.total ==> r.grades[i].index == i)
    && r.correct == CountCorrect(r.grades)
    && r.score == RoundedShare(r.correct, r.total)
  }

  predicate QuizReportOk(q: Quiz, r: Report) {
    && q.status.QuizCompleted?
    && r.quiz == q.id && r.total == |q.questions|
    && ReportOk(r)
    && (forall i :: i in q.grades ==> 0 <= i < r.total)
    && (forall i :: 0 <= i < r.total ==> i in q.grades && r.grades[i] == q.grades[i])
  }

  // AdaptiveSessionAggregate._validate_quiz_integrity
  predicate QuizOk(q: Quiz) {
    && QuestionsOk(q.questions)
    && (q.status.QuizActive? ==> q.answers == [] && q.grades == map[] && q.report.None?)
    && (q.status.QuizCompleted? ==> |q.answers| == |q.questions|)
    && (forall i :: i in q.grades ==> GradeMatches(q, i, q.grades[i]))
    && (q.report.Some? ==> QuizReportOk(q, q.report.value))
    && (q.profileWritten ==> q.report.Some?)
  }

  // ---- pending submits and receipts ----

  predicate AnswersOk(answers: seq<string>) {
    |answers| <= MAX_ADAPTIVE_ANSWERS && forall x :: x in answers ==> Clean(x)
  }

  predicate RequestOk(r: Request) {
    1 <= r.turn <= MAX_TRAJECTORY_TURNS && r.revision >= 1 && AnswersOk(r.answers)
  }

  predicate PendingSubmitOk(p: Pending) {
    && 1 <= p.turn <= MAX_TRAJECTORY_TURNS && p.revision >= 1 && AnswersOk(p.answers)
    && UnitInterval(p.mastery)
    && (p.nextDecision.Some? ==> DecisionOk(p.nextDecision.value) && p.mastery.Some?)
  }

  predicate ReceiptOk(r: Receipt) {
    && 1 <= r.turn <= MAX_TRAJECTORY_TURNS && r.revision >= 1
    && ArtifactOk(r.response)
    && (r.response.turn == r.turn || r.response.turn == r.turn + 1)
  }

  // ---- AdaptiveSessionAggregate.validate_state_machine, in the order of its checks ----

  predicate IdentityOk(a: Aggregate) {
    && a.artifact.session == a.session
    && (a.status.Completed? <==> a.artifact.done)
  }

  predicate QuizBindingOk(a: Aggregate) {
    && (a.lastReport.Some? ==> ReportOk(a.lastReport.value))
    && (a.quiz.Some? ==>
         var q := a.quiz.value;
         && q.id == QuizId(a.session, a.artifact.turn)
         && q.user == a.user && q.document == a.document
         && QuizOk(q)
         && (q.status.QuizCompleted? && q.report.Some? ==>
              if q.profileWritten || a.artifact.done then a.lastReport == q.report
              else a.lastReport.Some? && a.lastReport.value.quiz == q.id ==> a.lastReport == q.report))
  }

  predicate PendingBindingOk(a: Aggregate) {
    a.pending.Some? ==>
      && !a.artifact.done
      && a.pending.value.turn == a.artifact.turn
      && (a.pending.value.key.Some? ==> a.pending.value.key.value !in a.receipts)
  }

  // The public artifact shows exactly the canonical report.
  predicate ShowsReport(artifact: Artifact, report: Option<Report>) {
    && artifact.lastScore == ReportScore(report)
    && artifact.lastGaps == ReportGaps(report)
    && artifact.lastFeedback == ReportFeedback(report)
    && (forall f :: f in ReportFeedback(report) ==> FeedbackOk(f))
  }

  predicate DonePhaseOk(a: Aggregate) {
    var answered :=
      || (a.lastReport.Some? && a.lastReport.value.quiz == QuizId(a.session, a.artifact.turn))
      || (|a.artifact.trajectory| > 0 && a.artifact.trajectory[|a.artifact.trajectory| - 1].score.Some?);
    && a.pending.None?
    && (a.quiz.None? ==> !answered)
    && (a.quiz.Some? ==> a.quiz.value.status.QuizCompleted? && a.quiz.value.report.Some? && a.quiz.value.profileWritten)
  }

  predicate QuizPhaseOk(a: Aggregate) {
    && a.quiz.Some?
    && a.artifact.questions == QuestionViews(a.quiz.value.questions)
    && (a.pending.None? ==> a.quiz.value.status.QuizActive?)
    && (a.pending.Some? ==>
         var p, q := a.pending.value, a.quiz.value;
         && |p.answers| == |q.questions|
         && (q.status.QuizCompleted? ==> q.answers == p.answers)
         && (p.mastery.Some? || p.nextDecision.Some? ==> q.report.Some? && q.profileWritten))
  }

  predicate TeachPhaseOk(a: Aggregate) {
    a.quiz.None? && (a.pending.Some? ==> a.pending.value.answers == [])
  }

  predicate PhaseOk(a: Aggregate) {
    if a.artifact.done then DonePhaseOk(a)
    else match a.artifact.turnType
      case QuizTurn => QuizPhaseOk(a)
      case TeachTurn => TeachPhaseOk(a)
  }

  predicate ReceiptsOk(a: Aggregate) {
    && |a.receipts| <= MAX_SUBMIT_RECEIPTS
    && forall k :: k in a.receipts ==>
         var r := a.receipts[k];
         && ReceiptOk(r)
         && r.key == k
         && r.response.session == a.session
         && r.turn <= a.artifact.turn && r.response.turn <= a.artifact.turn
         && (r.response.done ==> a.status.Completed? && r.response == a.artifact)
  }

  predicate Valid(a: Aggregate) {
    && Clean(a.session) && Clean(a.user) && Clean(a.document) && Clean(a.goal)
    && ArtifactOk(a.artifact)
    && (a.pending.Some? ==> PendingSubmitOk(a.pending.value))
    && IdentityOk(a)
    && QuizBindingOk(a)
    && PendingBindingOk(a)
    && (a.pending.None? ==> ShowsReport(a.artifact, a.lastReport))
    && PhaseOk(a)
    && ReceiptsOk(a)
  }

  // What every stored aggregate is bound to, whatever the model and the learner supplied: decisions within their
  // ranges, usable questions, stripped answers and lessons, and bounded lists.
  lemma StoredContentIsBounded(a: Aggregate)
    requires Valid(a)
    ensures var d := a.artifact.decision;
            && d.action in {Advance, Remediate, Teach, Continue, SwitchToPlan, Finish} && d.difficulty in {Easy, Medium, Hard}
            && d.questionType in {Choice, TrueFalse, ShortAnswer} && 0.0 <= d.difficultyScore <= 1.0 && 1 <= d.count <= 10
            && Strip(d.topic) != "" && |d.weakPoints| <= 100 && forall p :: p in d.weakPoints ==> Strip(p) != ""
    ensures a.quiz.Some? ==>
              && 1 <= |a.quiz.value.questions| <= 10
              && forall q :: q in a.quiz.value.questions ==>
                   Strip(q.text) != "" && Strip(q.answer) != ""
                   && (q.options.Some? ==> |q.options.value| <= 20 && forall o :: o in q.options.value ==> Strip(o) != "")
    ensures a.pending.Some? ==>
              && |a.pending.value.answers| <= 10 && a.pending.value.revision >= 1 && a.pending.value.turn == a.artifact.turn
              && (forall x :: x in a.pending.value.answers ==> x != "" && Strip(x) == x)
              && (a.pending.value.nextDecision.Some? ==> a.pending.value.mastery.Some?)
              && (a.pending.value.mastery.Some? ==> 0.0 <= a.pending.value.mastery.value <= 1.0)
    ensures a.artifact.lesson.Some? ==> a.artifact.lesson.value != "" && Strip(a.artifact.lesson.value) == a.artifact.lesson.value
    ensures 1 <= a.artifact.turn <= 100 && |a.artifact.trajectory| == a.artifact.turn && |a.receipts| <= 16
    ensures forall k :: 0 <= k < |a.artifact.trajectory| ==>
              var t := a.artifact.trajectory[k];
              && t.turn == k + 1 && 0.0 <= t.difficultyScore <= 1.0 && Strip(t.topic) != ""
              && (t.score.Some? ==> 0.0 <= t.score.value <= 1.0) && (t.masteryAfter.Some? ==> 0.0 <= t.masteryAfter.value <= 1.0)
    ensures forall x :: x in [a.session, a.user, a.document, a.goal] ==> x != "" && Strip(x) == x
    ensures a.status.Completed? <==> a.artifact.done
  {
    hide Strip, Blank, QuizReportOk, GradeMatches, ReportOk, ReceiptOk, FeedbackOk;
    forall s: string ensures Blank(s) <==> Strip(s) == "" {
      StripFacts(s);
    }
  }
}
