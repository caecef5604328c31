// Where a submit cannot be completed: runs of the stages that end in an aggregate whose completing
// write is refused whatever the model answers next.

module SubmitLimits {
  import opened Options
  import opened Text
  import opened AdaptiveModels
  import opened AdaptiveLoop
  import opened SubmitPipeline
  import opened SubmitSoundness

  // No content the outside world could supply lets the pending turn be completed.
  ghost predicate Stuck(a: Aggregate) {
    forall content :: Enabled(a, FinishTurn(content)) ==> !Valid(Apply(a, FinishTurn(content)))
  }

  // Some content that fits a decision and is usable.
  function Usable(reason: Reason, d: Decision): Content {
    match reason
    case PlanSwitch => PlanContent("p")
    case NoReason => if d.action.Teach? then LessonContent("l") else QuizContent([OneQuestion()])
    case _ => NoContent
  }

  lemma UsableIsOk(reason: Reason, d: Decision)
    ensures ContentFits(reason, d, Usable(reason, d)) && ContentOk(d, Usable(reason, d))
  {
    assert "l"[0] == 'l' && "q"[0] == 'q' && "a"[0] == 'a' && !IsSpace('l') && !IsSpace('q') && !IsSpace('a');
  }

  // Main result: a decided turn is stuck exactly when its report holds a gap with surrounding
  // whitespace; grades, report, memory marker and decision are durable by then, so every retry
  // meets the same gap.
  lemma StuckIffUntrimmedGap(a: Aggregate)
    requires Sound(a) && a.pending.Some? && a.pending.value.nextDecision.Some?
    ensures Stuck(a) <==> !CleanGaps(a.lastReport)
  {
    hide Sound, Valid, Apply, CleanGaps, ContentOk;
    forall content | Enabled(a, FinishTurn(content)) && !CleanGaps(a.lastReport) ensures !Valid(Apply(a, FinishTurn(content))) {
      StageAccepted(a, FinishTurn(content));
      assert !Acceptable(a, FinishTurn(content));
    }
    if CleanGaps(a.lastReport) {
      var p := a.pending.value;
      var reason := ExitReason(p.mastery, p.turn, p.nextDecision.value);
      UsableIsOk(reason, p.nextDecision.value);
      var content := Usable(reason, p.nextDecision.value);
      assert Enabled(a, FinishTurn(content)) && Acceptable(a, FinishTurn(content));
      StageAccepted(a, FinishTurn(content));
    }
  }

  // No mastery that could be read lets the graded turn record its score.
  ghost predicate Unscorable(a: Aggregate) {
    forall mastery :: Enabled(a, ReadMastery(mastery)) ==> !Valid(Apply(a, ReadMastery(mastery)))
  }

  // Main result: a graded turn cannot record its score exactly when its report exposes a blank gap.
  lemma UnscorableIffBlankGap(a: Aggregate)
    requires Sound(a) && ReadyToDecide(a) && a.artifact.turnType.QuizTurn?
    ensures Unscorable(a) <==> exists g :: g in ReportGaps(a.lastReport) && Blank(g)
  {
    hide Sound, Valid, Apply, ReadyToDecide;
    forall mastery ensures Valid(Apply(a, ReadMastery(mastery))) <==> Acceptable(a, ReadMastery(mastery)) {
      StageAccepted(a, ReadMastery(mastery));
    }
    if !(exists g :: g in ReportGaps(a.lastReport) && Blank(g)) {
      assert Acceptable(a, ReadMastery(None));
    }
  }

  // No decision the model could make is checkpointed.
  ghost predicate Undecidable(a: Aggregate) {
    forall proposed, weakPoints :: Enabled(a, Decide(proposed, weakPoints)) ==> !Valid(Apply(a, Decide(proposed, weakPoints)))
  }

  // Main result: no decision can be checkpointed exactly while no mastery is on record.
  lemma UndecidableIffNoMastery(a: Aggregate)
    requires Sound(a) && ReadyToDecide(a)
    ensures Undecidable(a) <==> a.pending.value.mastery.None?
  {
    hide Sound, Valid, Apply, DecisionOk;
    forall proposed, weakPoints
      ensures Valid(Apply(a, Decide(proposed, weakPoints))) <==> Acceptable(a, Decide(proposed, weakPoints))
    {
      StageAccepted(a, Decide(proposed, weakPoints));
    }
    if a.pending.value.mastery.Some? {
      GoalNotBlank(a);
      DecisionAcceptedIff(Some(Plan()), a.goal, [], ReportScore(a.lastReport), !a.artifact.turnType.TeachTurn?);
      assert Acceptable(a, Decide(Some(Plan()), []));
    }
  }

  lemma GoalNotBlank(a: Aggregate)
    requires Sound(a)
    ensures !Blank(a.goal)
  {
    hide LoopInv, ArtifactOk, ReceiptsOk, PhaseOk, QuizBindingOk;
    StripFacts(a.goal);
  }

  // ---- runs that get there ----

  function Plan(): Decision {
    Decision(Continue, "t", Medium, 0.5, Choice, 1, [], "r")
  }

  function OneQuestion(): Question {
    Question("q", None, "a", Choice)
  }

  // Judged wrong, with this gap.
  function WrongAnswer(gap: string): Grade {
    Grade(0, "q", "b", "a", false, None, Some(gap))
  }

  function Opened(): Aggregate {
    Opening(Owner("s", "u", "d", "g"), None, Plan(), QuizContent([OneQuestion()]))
  }

  lemma OpenedSound()
    ensures Sound(Opened())
  {
    assert !IsSpace('s') && !IsSpace('u') && !IsSpace('d') && !IsSpace('g') && !IsSpace('t') && !IsSpace('q') && !IsSpace('a');
    assert Clean("s") && Clean("u") && Clean("d") && Clean("g");
    hide Sound, Valid, LoopInv;
    var content := QuizContent([OneQuestion()]);
    var asked := WithKind(content.questions, Plan().questionType);
    assert asked == [OneQuestion()];
    assert "q"[0] == 'q' && "a"[0] == 'a' && "t"[0] == 't';
    assert !Blank("q") && !Blank("a") && !Blank("t");
    OpeningAccepted(Owner("s", "u", "d", "g"), None, Plan(), content);
  }

  lemma Step(a: Aggregate, e: Event)
    requires Sound(a) && Enabled(a, e) && Acceptable(a, e)
    ensures Sound(Apply(a, e))
  {
    hide Sound, Valid, Apply, Enabled, Acceptable;
    StageAccepted(a, e);
  }

  // The first turn up to its graded answers.
  lemma GradedRun(gap: string) returns (a: Aggregate)
    ensures Sound(a) && Grading(a) && a.quiz.value.report.None? && Graded(a.quiz.value) && a.pending.value.nextDecision.None?
    ensures GradeSequence(a.quiz.value) == [WrongAnswer(gap)] && !a.quiz.value.profileWritten
    ensures a.artifact.turnType.QuizTurn? && a.artifact.trajectory != [] && a.pending.value.turn == 1
  {
    hide Sound;
    OpenedSound();
    var request := Request("s", 1, 1, ["b"]);
    assert !IsSpace('b') && Clean("b");
    var open := Opened();
    Step(open, BindInput(request, None, 1));
    var bound := Apply(open, BindInput(request, None, 1));
    Step(bound, BindAnswers);
    var answered := Apply(bound, BindAnswers);
    var grades := map[0 := WrongAnswer(gap)];
    Step(answered, CacheGrades(grades));
    a := Apply(answered, CacheGrades(grades));
    assert |a.quiz.value.questions| == 1;
  }

  // On to the memory marker.
  lemma MarkedRun(gap: string) returns (a: Aggregate)
    requires gap != ""
    ensures Sound(a) && ReadyToDecide(a) && a.artifact.turnType.QuizTurn? && ReportGaps(a.lastReport) == [gap]
    ensures a.pending.value.turn == 1
  {
    hide Sound, Valid;
    var graded := GradedRun(gap);
    Step(graded, PublishReport);
    var reported := Apply(graded, PublishReport);
    GapOfWrongAnswer(reported.lastReport.value.grades, gap);
    Step(reported, CommitMemory);
    a := Apply(reported, CommitMemory);
  }

  // And on to the decision.
  lemma DecidedRun() returns (a: Aggregate)
    ensures Sound(a) && a.pending.Some? && ReportGaps(a.lastReport) == [" x"]
    ensures a.pending.value.nextDecision == Some(Plan()) && a.pending.value.mastery == Some(0.0) && a.pending.value.turn == 1
  {
    hide Sound, Valid;
    var marked := MarkedRun(" x");
    assert " x"[1] == 'x' && !IsSpace('x');
    Step(marked, ReadMastery(Some(0.0)));
    var measured := Apply(marked, ReadMastery(Some(0.0)));
    assert "t"[0] == 't' && !IsSpace('t');
    assert NextDecision(measured, Some(Plan()), []) == Plan();
    Step(measured, Decide(Some(Plan()), []));
    a := Apply(measured, Decide(Some(Plan()), []));
  }

  lemma GapOfWrongAnswer(grades: seq<Grade>, gap: string)
    requires grades == [WrongAnswer(gap)] && gap != ""
    ensures GapsOf(grades) == [gap]
  {
    assert grades[1..] == [];
  }

  // Main result: such a session is reachable. The validator strips the gaps it is shown and compares
  // them with the recorded ones as they are.
  lemma UntrimmedGapIsReachable() returns (a: Aggregate)
    ensures Sound(a) && a.pending.Some? && a.pending.value.nextDecision.Some? && Stuck(a)
    ensures Enabled(a, FinishTurn(QuizContent([OneQuestion()])))
  {
    hide Sound, Stuck;
    a := DecidedRun();
    assert " x" in ReportGaps(a.lastReport);
    assert IsSpace(' ') && Strip(" x") != " x" by {
      assert " x"[1..] == "x" && !IsSpace('x');
    }
    StuckIffUntrimmedGap(a);
  }

  // A graded turn whose only gap is a blank is reachable, and records no score whatever mastery is read.
  lemma BlankGapIsReachable() returns (a: Aggregate)
    ensures Sound(a) && ReadyToDecide(a) && a.artifact.turnType.QuizTurn? && Unscorable(a)
    ensures Enabled(a, ReadMastery(Some(0.0)))
  {
    hide Sound, Unscorable;
    a := MarkedRun(" ");
    assert " " in ReportGaps(a.lastReport) && Blank(" ");
    UnscorableIffBlankGap(a);
  }

  // A first lesson whose learner has no mastery yet is reachable, and no decision can follow it.
  lemma LessonWithoutMasteryIsReachable() returns (a: Aggregate)
    ensures Sound(a) && ReadyToDecide(a) && a.artifact.turnType.TeachTurn? && a.pending.value.mastery.None? && Undecidable(a)
    ensures Enabled(a, Decide(Some(Plan()), []))
  {
    hide Sound, Undecidable, Valid;
    var taught := OpenedLesson();
    var request := Request("s", 1, 1, []);
    Step(taught, BindInput(request, None, 1));
    var bound := Apply(taught, BindInput(request, None, 1));
    Step(bound, ReadMastery(None));
    a := Apply(bound, ReadMastery(None));
    UndecidableIffNoMastery(a);
  }

  lemma OpenedLesson() returns (a: Aggregate)
    ensures Sound(a) && a.status.Active? && a.pending.None? && a.session == "s" && a.artifact.turn == 1
    ensures a.artifact.turnType.TeachTurn? && a.artifact.trajectory != []
  {
    hide Sound, Valid, LoopInv;
    var lesson := Plan().(action := Teach);
    assert !IsSpace('s') && !IsSpace('u') && !IsSpace('d') && !IsSpace('g') && !IsSpace('t') && !IsSpace('l');
    assert Clean("s") && Clean("u") && Clean("d") && Clean("g");
    assert "l"[0] == 'l' && "t"[0] == 't';
    OpeningAccepted(Owner("s", "u", "d", "g"), None, lesson, LessonContent("l"));
    a := Opening(Owner("s", "u", "d", "g"), None, lesson, LessonContent("l"));
  }
}
