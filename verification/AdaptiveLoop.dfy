// The teaching decision: clean-up of what the model proposed, the rule
// fallback and the termination test.

module AdaptiveLoop {
  import opened Options
  import opened Text
  import opened AdaptiveModels

  const MASTERY_TARGET: real := 0.85
  const MAX_TURNS: nat := 5

  function Clamp(lo: int, hi: int, x: int): int {
    if x < lo then lo else if x > hi then hi else x
  }

  function ClampReal(x: real): real {
    if x < 0.0 then 0.0 else if x > 1.0 then 1.0 else x
  }

  function NormalizedAction(action: Action, allowTeach: bool): Action {
    match action
    case UnknownAction(_) => Continue
    case Teach => if allowTeach then Teach else Remediate
    case _ => action
  }

  function Normalized(d: Decision, goal: string, allowTeach: bool): Decision {
    Decision(
      NormalizedAction(d.action, allowTeach),
      if Blank(d.topic) then goal else d.topic,
      if d.difficulty.UnknownDifficulty? then Medium else d.difficulty,
      ClampReal(d.difficultyScore),
      if d.questionType.UnknownType? then Choice else d.questionType,
      Clamp(1, 10, if d.count == 0 then 3 else d.count),
      d.weakPoints, d.reason)
  }

  // _normalize: overwrites one field of the decision after the other.
  method Normalize(proposed: Decision, goal: string, allowTeach: bool) returns (d: Decision)
    ensures d == Normalized(proposed, goal, allowTeach)
  {
    d := proposed;
    if d.action.UnknownAction? {
      d := d.(action := Continue);
    }
    if d.action.Teach? && !allowTeach {
      d := d.(action := Remediate);
    }
    if d.difficulty.UnknownDifficulty? {
      d := d.(difficulty := Medium);
    }
    if d.questionType.UnknownType? {
      d := d.(questionType := Choice);
    }
    d := d.(difficultyScore := ClampReal(d.difficultyScore));
    d := d.(count := Clamp(1, 10, if d.count == 0 then 3 else d.count));
    if Blank(d.topic) {
      d := d.(topic := goal);
    }
  }

  function Take(xs: seq<string>, n: nat): seq<string> {
    if |xs| <= n then xs else xs[..n]
  }

  function RuleFallback(lastScore: Option<real>, goal: string, weakPoints: seq<string>): Decision {
    if lastScore.None? then
      Decision(Continue, goal, Medium, 0.5, Choice, 3, [], "cold start")
    else if lastScore.value < 0.5 then
      Decision(Remediate, goal, Easy, 0.3, Choice, 3, Take(weakPoints, 3), "low score")
    else
      Decision(Advance, goal, Hard, 0.75, Choice, 3, [], "good score")
  }

  // decide_next_step; `proposed` is what the model answered, None when the call failed.
  function DecideNext(proposed: Option<Decision>, goal: string, weakPoints: seq<string>,
                      lastScore: Option<real>, allowTeach: bool): Decision {
    if proposed.Some? then Normalized(proposed.value, goal, allowTeach)
    else RuleFallback(lastScore, goal, weakPoints)
  }

  function ShouldTerminate(mastery: Option<real>, turn: int, decision: Decision): Reason {
    if decision.action.Finish? then AgentFinish
    else if mastery.Some? && mastery.value >= MASTERY_TARGET then MasteryReached
    else if turn >= MAX_TURNS then MaxTurns
    else NoReason
  }

  // Whatever the model proposes, the decision passes the validator exactly when the one
  // part the clean-up leaves alone, the weak points it carries, is acceptable.
  lemma DecisionAcceptedIff(proposed: Option<Decision>, goal: string, weakPoints: seq<string>,
                            lastScore: Option<real>, allowTeach: bool)
    requires !Blank(goal)
    ensures var d := DecideNext(proposed, goal, weakPoints, lastScore, allowTeach);
            DecisionOk(d) <==>
              WeakPointsOk(if proposed.Some? then proposed.value.weakPoints
                           else if lastScore.Some? && lastScore.value < 0.5 then Take(weakPoints, 3) else [])
  {
  }

  // A lesson is never followed by a second lesson.
  lemma NoTeachWhenForbidden(proposed: Option<Decision>, goal: string, weakPoints: seq<string>, lastScore: Option<real>)
    ensures !DecideNext(proposed, goal, weakPoints, lastScore, false).action.Teach?
  {
  }

  // What the clean-up leaves of a proposal: every usable field as it was, a fixed default for any other.
  lemma NormalizingRepairs(proposed: Decision, goal: string, allowTeach: bool)
    ensures var d := Normalized(proposed, goal, allowTeach);
            && d.weakPoints == proposed.weakPoints && d.reason == proposed.reason
            && (DecisionOk(proposed) && (proposed.action.Teach? ==> allowTeach) ==> d == proposed)
            && d.action == (if proposed.action.UnknownAction? then Continue
                            else if proposed.action == Teach && !allowTeach then Remediate else proposed.action)
            && d.topic == (if Strip(proposed.topic) == "" then goal else proposed.topic)
            && d.difficulty == (if proposed.difficulty in {Easy, Medium, Hard} then proposed.difficulty else Medium)
            && d.questionType == (if proposed.questionType in {Choice, TrueFalse, ShortAnswer} then proposed.questionType else Choice)
            && 0.0 <= d.difficultyScore <= 1.0 && 1 <= d.count <= 10
            && (0.0 <= proposed.difficultyScore <= 1.0 ==> d.difficultyScore == proposed.difficultyScore)
            && (proposed.difficultyScore < 0.0 ==> d.difficultyScore == 0.0) && (proposed.difficultyScore > 1.0 ==> d.difficultyScore == 1.0)
            && (1 <= proposed.count <= 10 ==> d.count == proposed.count)
            && (proposed.count < 0 ==> d.count == 1) && (proposed.count == 0 ==> d.count == 3) && (proposed.count > 10 ==> d.count == 10)
  {
    StripFacts(proposed.topic);
  }

  // Without a proposal the rule consolidates at the start, goes back after a score below one half, with at most
  // three weak points, and goes on otherwise; the harder the better the score was.
  lemma FallbackFollowsScore(goal: string, weakPoints: seq<string>, lastScore: Option<real>, allowTeach: bool)
    ensures var d := DecideNext(None, goal, weakPoints, lastScore, allowTeach);
            && d.topic == goal && d.count == 3 && d.questionType == Choice
            && (d.action == Continue <==> lastScore.None?)
            && (d.action == Remediate <==> lastScore.Some? && lastScore.value < 0.5)
            && (d.action == Advance <==> lastScore.Some? && lastScore.value >= 0.5)
            && (d.action == Continue ==> d.difficulty == Medium && d.difficultyScore == 0.5 && d.weakPoints == [])
            && (d.action == Remediate ==> d.difficulty == Easy && d.difficultyScore == 0.3
                                          && d.weakPoints <= weakPoints && |d.weakPoints| == if |weakPoints| < 3 then |weakPoints| else 3)
            && (d.action == Advance ==> d.difficulty == Hard && d.difficultyScore == 0.75 && d.weakPoints == [])
  {
  }

  // A session goes on exactly before its fifth turn, below a mastery of 0.85, while the agent does not finish it;
  // the agent's wish is named before the mastery, the mastery before the number of turns.
  lemma TerminationThresholds(mastery: Option<real>, turn: int, d: Decision)
    ensures var mastered, reason := mastery.Some? && mastery.value >= 0.85, ShouldTerminate(mastery, turn, d);
            && (reason == NoReason <==> d.action != Finish && !mastered && turn < 5)
            && (reason == AgentFinish <==> d.action == Finish)
            && (reason == MasteryReached <==> d.action != Finish && mastered)
            && (reason == MaxTurns <==> d.action != Finish && !mastered && turn >= 5)
  {
  }
}
