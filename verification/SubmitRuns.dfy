// Whole runs of the sequential pipeline: what a session's durable aggregates keep from
// checkpoint to checkpoint, across retries and turns.

module SubmitRuns {
  import opened Options
  import opened Text
  import opened AdaptiveModels
  import opened AdaptiveLoop
  import opened SubmitPipeline
  import opened SubmitSoundness

  // The durable aggregates of a session, each obtained from the one before by one stage that
  // passed the validator.
  ghost predicate Run(h: seq<Aggregate>, es: seq<Event>) {
    && |h| == |es| + 1
    && Sound(h[0])
    && forall i :: 0 <= i < |es| ==> StageFrom(h[i], es[i], h[i + 1])
  }

  predicate StageFrom(a: Aggregate, e: Event, b: Aggregate) {
    Enabled(a, e) && b == Apply(a, e) && Valid(b)
  }

  lemma {:induction false} RunSound(h: seq<Aggregate>, es: seq<Event>, i: nat)
    requires Run(h, es) && i < |h|
    ensures Sound(h[i])
  {
    hide Sound, Apply, Enabled, Valid;
    if i > 0 {
      RunSound(h, es, i - 1);
      assert StageFrom(h[i - 1], es[i - 1], h[i]);
      StageAccepted(h[i - 1], es[i - 1]);
    }
  }

  // ---- one stage ----

  // What one turn has on record is never recomputed while that turn is being submitted.
  predicate KeepsQuiz(q: Quiz, r: Quiz) {
    && r.questions == q.questions && r.id == q.id
    && (q.status.QuizCompleted? ==> r.status.QuizCompleted? && r.answers == q.answers)
    && (forall i :: i in q.grades ==> i in r.grades && r.grades[i] == q.grades[i])
    && (q.report.Some? ==> r.report == q.report)
    && (q.profileWritten ==> r.profileWritten)
  }

  predicate KeepsPending(p: Pending, r: Pending) {
    && r.key == p.key && r.request == p.request && r.turn == p.turn && r.revision == p.revision && r.answers == p.answers
    && (p.nextDecision.Some? ==> r.nextDecision == p.nextDecision && r.mastery == p.mastery)
  }

  predicate Keeps(a: Aggregate, b: Aggregate) {
    && a.pending.Some? && b.pending.Some? && KeepsPending(a.pending.value, b.pending.value)
    && b.artifact.turnType == a.artifact.turnType
    && (a.quiz.None? <==> b.quiz.None?)
    && (a.quiz.Some? && b.quiz.Some? ==> KeepsQuiz(a.quiz.value, b.quiz.value))
  }

  lemma StageKeeps(a: Aggregate, e: Event)
    requires Sound(a) && Enabled(a, e) && a.pending.Some? && !e.FinishTurn?
    ensures Keeps(a, Apply(a, e))
  {
  }

  lemma StageRank(a: Aggregate, e: Event)
    requires Sound(a) && Enabled(a, e)
    ensures Rank(Apply(a, e)) == Rank(a) + if e.FinishTurn? then 1 else 0
    ensures e.FinishTurn? ==> !a.artifact.done
  {
    if e.FinishTurn? {
      CompletionByTurn(a, e);
    }
  }

  lemma ReceiptsGrow(a: Aggregate, e: Event)
    requires Enabled(a, e) && PendingBindingOk(a)
    ensures forall k :: k in a.receipts ==> k in Apply(a, e).receipts && Apply(a, e).receipts[k] == a.receipts[k]
  {
  }

  lemma StageReceipts(a: Aggregate, e: Event)
    requires Sound(a) && Enabled(a, e)
    ensures forall k :: k in a.receipts ==> k in Apply(a, e).receipts && Apply(a, e).receipts[k] == a.receipts[k]
  {
    ReceiptsGrow(a, e);
  }

  lemma FinishRecords(a: Aggregate, e: Event, k: Key)
    requires Sound(a) && e.FinishTurn? && Enabled(a, e) && SubmittedUnder(a, k)
    ensures k !in a.receipts && k in Apply(a, e).receipts
    ensures var r := Apply(a, e).receipts[k]; r.request == a.pending.value.request && r.response == Apply(a, e).artifact
  {
  }

  // The quiz of a decided turn: graded on the pending answers, and the last report is its report.
  lemma DecidedQuiz(a: Aggregate)
    requires Sound(a) && a.pending.Some? && a.pending.value.nextDecision.Some? && a.artifact.turnType.QuizTurn?
    ensures a.quiz.Some? && a.quiz.value.report.Some? && a.lastReport == a.quiz.value.report
    ensures QuizOk(a.quiz.value) && a.quiz.value.answers == a.pending.value.answers
  {
    hide LoopInv, ArtifactOk, ReceiptsOk, PendingSubmitOk, QuestionsOk;
  }

  lemma FinishShowsReport(a: Aggregate, e: Event)
    requires e.FinishTurn? && Enabled(a, e)
    ensures Apply(a, e).artifact.lastFeedback == ReportFeedback(a.lastReport)
  {
  }

  lemma ReportShowsAnswers(q: Quiz)
    requires QuizOk(q) && q.report.Some?
    ensures var shown := ReportFeedback(q.report);
            |shown| == |q.answers| && forall k :: 0 <= k < |q.answers| ==> shown[k].yourAnswer == q.answers[k] && shown[k].index == k
  {
    forall k | 0 <= k < |q.questions| ensures q.grades[k].userAnswer == q.answers[k] {
      assert GradeMatches(q, k, q.grades[k]);
    }
  }

  lemma FinishShowsAnswers(a: Aggregate, e: Event)
    requires Sound(a) && e.FinishTurn? && Enabled(a, e) && a.artifact.turnType.QuizTurn?
    ensures var shown, answers := Apply(a, e).artifact.lastFeedback, a.pending.value.answers;
            |shown| == |answers| && forall k :: 0 <= k < |answers| ==> shown[k].yourAnswer == answers[k] && shown[k].index == k
  {
    hide Sound, Apply, QuizOk, ReportFeedback;
    DecidedQuiz(a);
    FinishShowsReport(a, e);
    ReportShowsAnswers(a.quiz.value);
  }

  // Reading a receipt back.
  predicate SubmittedUnder(a: Aggregate, k: Key) {
    a.pending.Some? && a.pending.value.key == Some(k)
  }

  lemma {:induction false} KeepsTransitive(a: Aggregate, b: Aggregate, c: Aggregate)
    requires Keeps(a, b) && Keeps(b, c)
    ensures Keeps(a, c)
  {
  }

  lemma KeepsPendingSome(a: Aggregate, b: Aggregate)
    requires Keeps(a, b)
    ensures b.pending.Some?
  {
  }

  lemma KeepsReflexive(a: Aggregate)
    requires a.pending.Some?
    ensures Keeps(a, a)
  {
  }

  // A finished session accepts no further stage.
  lemma DoneIsFinal(a: Aggregate, e: Event)
    requires Sound(a) && a.artifact.done
    ensures !Enabled(a, e)
  {
  }

  // ---- bounded sessions ----

  function Submits(es: seq<Event>): nat {
    if es == [] then 0 else Submits(es[..|es| - 1]) + if es[|es| - 1].FinishTurn? then 1 else 0
  }

  lemma {:induction false} RanksCountSubmits(h: seq<Aggregate>, es: seq<Event>, n: nat)
    requires Run(h, es) && n <= |es|
    ensures Rank(h[n]) == Rank(h[0]) + Submits(es[..n])
  {
    hide Sound, Apply, Enabled, Valid;
    if n > 0 {
      RanksCountSubmits(h, es, n - 1);
      RunSound(h, es, n - 1);
      assert es[..n][..n - 1] == es[..n - 1];
      assert StageFrom(h[n - 1], es[n - 1], h[n]);
      StageRank(h[n - 1], es[n - 1]);
    }
  }

  // Every session is over within MAX_TURNS accepted submits, whatever the model decides.
  lemma SessionsAreBounded(h: seq<Aggregate>, es: seq<Event>)
    requires Run(h, es) && h[0].artifact.turn == 1
    ensures Submits(es) <= MAX_TURNS
    ensures Submits(es) == MAX_TURNS ==> h[|es|].artifact.done
    ensures |h[|es|].receipts| <= Rank(h[0]) - 1 + Submits(es)
    ensures !h[|es|].artifact.done ==> h[|es|].artifact.turn == 1 + Submits(es)
  {
    RanksCountSubmits(h, es, |es|);
    assert es[..|es|] == es;
    RunSound(h, es, |es|);
    RunSound(h, es, 0);
    if h[0].artifact.done && |es| > 0 {
      assert StageFrom(h[0], es[0], h[1]);
      DoneIsFinal(h[0], es[0]);
    }
  }

  lemma {:induction false} RanksGrow(h: seq<Aggregate>, es: seq<Event>, i: nat, j: nat)
    requires Run(h, es) && i <= j < |h|
    ensures Rank(h[i]) <= Rank(h[j])
    decreases j - i
  {
    hide Sound, Apply, Enabled, Valid;
    if i < j {
      RanksGrow(h, es, i, j - 1);
      RunSound(h, es, j - 1);
      assert StageFrom(h[j - 1], es[j - 1], h[j]);
      StageRank(h[j - 1], es[j - 1]);
    }
  }

  // At most one submit settles a turn.
  lemma OneSubmitPerTurn(h: seq<Aggregate>, es: seq<Event>, i: nat, j: nat)
    requires Run(h, es) && i < j < |es| && es[i].FinishTurn? && es[j].FinishTurn?
    ensures h[i].artifact.turn < h[j].artifact.turn
  {
    hide Sound, Apply, Enabled, Valid;
    RunSound(h, es, i);
    RunSound(h, es, j);
    assert StageFrom(h[i], es[i], h[i + 1]) && StageFrom(h[j], es[j], h[j + 1]);
    StageRank(h[i], es[i]);
    StageRank(h[j], es[j]);
    RanksGrow(h, es, i + 1, j);
  }

  predicate WellShaped(a: Artifact) {
    && |a.trajectory| == a.turn <= MAX_TURNS
    && (forall k :: 0 <= k < a.turn ==> a.trajectory[k].turn == k + 1)
    && (forall k :: 0 <= k < a.turn - 1 && a.trajectory[k].action.Teach? ==> !a.trajectory[k + 1].action.Teach?)
    && (a.done ==> (a.reason.AgentFinish? <==> a.decision.action.Finish?) && (a.reason.PlanSwitch? <==> a.decision.action.SwitchToPlan?))
  }

  lemma SoundIsWellShaped(a: Aggregate)
    requires Sound(a)
    ensures WellShaped(a.artifact)
  {
  }

  // The trajectory numbers the turns 1..n, lessons never follow each other, and a finished
  // session names the reason its last decision calls for, at every point of a run.
  lemma SessionShape(h: seq<Aggregate>, es: seq<Event>, i: nat)
    requires Run(h, es) && i < |h|
    ensures WellShaped(h[i].artifact)
  {
    hide Sound, WellShaped, StageFrom;
    RunSound(h, es, i);
    SoundIsWellShaped(h[i]);
  }

  // ---- crash and resume ----

  // A pending turn keeps everything it decided for as long as it is that turn, through any
  // number of crashed and resumed submits.
  lemma {:induction false} PendingTurnIsKept(h: seq<Aggregate>, es: seq<Event>, i: nat, j: nat)
    requires Run(h, es) && i <= j < |h| && h[i].pending.Some? && Rank(h[j]) == Rank(h[i])
    ensures Keeps(h[i], h[j])
    decreases j - i
  {
    hide Sound, Apply, Enabled, Valid, Keeps;
    if i < j {
      RanksGrow(h, es, i, j - 1);
      RanksGrow(h, es, j - 1, j);
      PendingTurnIsKept(h, es, i, j - 1);
      RunSound(h, es, j - 1);
      assert StageFrom(h[j - 1], es[j - 1], h[j]);
      StageRank(h[j - 1], es[j - 1]);
      KeepsPendingSome(h[i], h[j - 1]);
      StageKeeps(h[j - 1], es[j - 1]);
      KeepsTransitive(h[i], h[j - 1], h[j]);
    } else {
      KeepsReflexive(h[i]);
    }
  }

  lemma BoundTurn(a: Aggregate, e: Event)
    requires Sound(a) && e.BindInput? && Enabled(a, e)
    ensures var b := Apply(a, e);
            b.pending.Some? && b.pending.value.answers == e.request.answers && b.artifact == a.artifact && Rank(b) == a.artifact.turn
  {
  }

  lemma KeptTurn(a: Aggregate, b: Aggregate)
    requires Keeps(a, b)
    ensures a.pending.Some? && b.pending.Some?
    ensures a.pending.value.answers == b.pending.value.answers && a.artifact.turnType == b.artifact.turnType
  {
  }

  // What is graded and shown for a quiz turn are the answers of the first accepted submit.
  lemma ShownAnswersAreTheFirstAccepted(h: seq<Aggregate>, es: seq<Event>, i: nat, j: nat)
    requires Run(h, es) && i < j < |es| && es[i].BindInput? && es[j].FinishTurn?
    requires h[i].artifact.turn == h[j].artifact.turn && h[i].artifact.turnType.QuizTurn?
    ensures var shown, answers := h[j + 1].artifact.lastFeedback, es[i].request.answers;
            |shown| == |answers| && forall k :: 0 <= k < |answers| ==> shown[k].yourAnswer == answers[k] && shown[k].index == k
  {
    hide Sound, Apply, Enabled, Valid, Keeps;
    RunSound(h, es, i);
    RunSound(h, es, j);
    assert StageFrom(h[i], es[i], h[i + 1]) && StageFrom(h[j], es[j], h[j + 1]);
    BoundTurn(h[i], es[i]);
    StageRank(h[j], es[j]);
    PendingTurnIsKept(h, es, i + 1, j);
    KeptTurn(h[i + 1], h[j]);
    FinishShowsAnswers(h[j], es[j]);
  }

  // ---- receipts ----

  datatype Lookup = NoReceipt | PayloadMismatch | Replay(response: Artifact)

  function FindReceipt(a: Aggregate, key: Option<Key>, request: Request): Lookup {
    if key.None? || key.value !in a.receipts then NoReceipt
    else if a.receipts[key.value].request != request then PayloadMismatch
    else Replay(a.receipts[key.value].response)
  }

  lemma {:induction false} ReceiptsAreKept(h: seq<Aggregate>, es: seq<Event>, i: nat, j: nat, k: Key)
    requires Run(h, es) && i <= j < |h| && k in h[i].receipts
    ensures k in h[j].receipts && h[j].receipts[k] == h[i].receipts[k]
    decreases j - i
  {
    hide Sound, Apply, Enabled, Valid;
    if i < j {
      ReceiptsAreKept(h, es, i, j - 1, k);
      RunSound(h, es, j - 1);
      assert StageFrom(h[j - 1], es[j - 1], h[j]);
      StageReceipts(h[j - 1], es[j - 1]);
    }
  }

  // Once a keyed submit is settled, its key and payload replay that first response for ever,
  // the key with any other payload is refused, and the key never settles a second submit.
  lemma SettledKeysReplay(h: seq<Aggregate>, es: seq<Event>, i: nat, j: nat, k: Key, other: Request)
    requires Run(h, es) && i < |es| && i < j < |h| && es[i].FinishTurn? && SubmittedUnder(h[i], k)
    ensures FindReceipt(h[j], Some(k), h[i].pending.value.request) == Replay(h[i + 1].artifact)
    ensures other != h[i].pending.value.request ==> FindReceipt(h[j], Some(k), other) == PayloadMismatch
    ensures j < |es| && es[j].FinishTurn? ==> !SubmittedUnder(h[j], k)
  {
    hide Sound, Apply, Enabled, Valid;
    RunSound(h, es, i);
    assert StageFrom(h[i], es[i], h[i + 1]);
    FinishRecords(h[i], es[i], k);
    ReceiptsAreKept(h, es, i + 1, j, k);
    RunSound(h, es, j);
    if j < |es| && es[j].FinishTurn? && SubmittedUnder(h[j], k) {
      assert StageFrom(h[j], es[j], h[j + 1]);
      FinishRecords(h[j], es[j], k);
    }
  }
}
