// Runs of the concurrent system, from the empty table: every session's durable history is
// a run of the sequential pipeline, fenced workers write nothing, finished rows freeze.

module ConcurrentRuns {
  import opened Options
  import opened AdaptiveModels
  import opened AdaptiveLoop
  import opened SubmitPipeline
  import opened SubmitSoundness
  import opened SubmitRuns
  import opened SessionStore
  import opened SubmitProtocol

  ghost predicate Follows(c: Config, s: System, step: Step, next: System) {
    Possible(c, s, step) && next == After(c, s, step)
  }

  ghost predicate SystemRun(c: Config, states: seq<System>, steps: seq<Step>) {
    && ConfigOk(c) && |states| == |steps| + 1
    && states[0] == System(map[], map[])
    && forall i :: 0 <= i < |steps| ==> Follows(c, states[i], steps[i], states[i + 1])
  }

  lemma {:induction false} ReachableInv(c: Config, states: seq<System>, steps: seq<Step>, i: nat)
    requires SystemRun(c, states, steps) && i < |states|
    ensures Inv(states[i])
  {
    hide Possible, After;
    if i > 0 {
      ReachableInv(c, states, steps, i - 1);
      assert Follows(c, states[i - 1], steps[i - 1], states[i]);
      StepKeepsInv(c, states[i - 1], steps[i - 1]);
    }
  }

  // The session stays in the table from the i-th state to the j-th.
  ghost predicate Stays(states: seq<System>, k: SessionId, i: nat, j: nat)
    requires i <= j < |states|
  {
    forall m :: i <= m <= j ==> k in states[m].rows
  }

  lemma StepOfRow(c: Config, states: seq<System>, steps: seq<Step>, k: SessionId, m: nat)
    requires SystemRun(c, states, steps) && m < |steps| && k in states[m].rows && k in states[m + 1].rows
    ensures RowStep(states[m].rows[k], MadeDurable(c, states[m], steps[m], k), states[m + 1].rows[k])
  {
    hide Inv, Possible, After, RowStep;
    ReachableInv(c, states, steps, m);
    assert Follows(c, states[m], steps[m], states[m + 1]);
    StepKeepsInv(c, states[m], steps[m]);
  }

  // ---- the table ----

  lemma StepKeepsCapacity(c: Config, s: System, step: Step)
    requires ConfigOk(c) && Possible(c, s, step) && |s.rows| <= c.maxCount
    ensures |After(c, s, step).rows| <= c.maxCount
  {
    hide Sound, Serves, Enabled, Apply, AdaptiveModels.Valid, EvictsOldest, StaleRows, Overflow, NewRow;
    var after := After(c, s, step);
    if step.OpenSession? {
      KeptRows(s.rows, step.now, step.after - {step.opening.session}, c);
      ShrinkByOne(step.after, step.opening.session);
    } else {
      assert after.rows.Keys == s.rows.Keys;
      assert |after.rows| == |after.rows.Keys| && |s.rows| == |s.rows.Keys|;
    }
  }

  lemma TableHolds(s: System)
    requires Inv(s)
    ensures StartKeysUnique(s.rows)
    ensures forall k :: k in s.rows && s.rows[k].claim.Some? ==> s.rows[k].claim.value.until <= s.rows[k].expiresAt && !Done(s.rows[k])
  {
    hide StartKeysUnique, Sound, ClaimTraced, WorkerOk, AdaptiveModels.Valid;
    assert forall k :: k in s.rows ==> RowSound(k, s.rows[k]);
  }

  // In every reachable state the table holds at most maxCount sessions and one per start key, a claim
  // ends no later than its session, and a finished session carries none.
  lemma {:induction false} ClaimsNestInSessions(c: Config, states: seq<System>, steps: seq<Step>, i: nat)
    requires SystemRun(c, states, steps) && i < |states|
    ensures |states[i].rows| <= c.maxCount && StartKeysUnique(states[i].rows)
    ensures forall k :: k in states[i].rows && states[i].rows[k].claim.Some? ==>
              states[i].rows[k].claim.value.until <= states[i].rows[k].expiresAt && !Done(states[i].rows[k])
  {
    hide Possible, After, Inv, Done;
    ReachableInv(c, states, steps, i);
    TableHolds(states[i]);
    if i > 0 {
      ClaimsNestInSessions(c, states, steps, i - 1);
      assert Follows(c, states[i - 1], steps[i - 1], states[i]);
      StepKeepsCapacity(c, states[i - 1], steps[i - 1]);
    }
  }

  // ---- refinement ----

  datatype History = History(aggregates: seq<Aggregate>, events: seq<Event>)

  // What the writes that landed made of a session's durable aggregate.
  ghost function DurableHistory(c: Config, states: seq<System>, steps: seq<Step>, k: SessionId, i: nat, j: nat): History
    requires i <= j < |states| && |states| == |steps| + 1 && Stays(states, k, i, j)
    decreases j - i
  {
    if i == j then History([states[i].rows[k].aggregate], [])
    else
      var before := DurableHistory(c, states, steps, k, i, j - 1);
      match MadeDurable(c, states[j - 1], steps[j - 1], k)
      case None => before
      case Some(e) => History(before.aggregates + [states[j].rows[k].aggregate], before.events + [e])
  }

  // `h` is a pipeline run from one state of a row to another, one revision per stage.
  ghost predicate LinksRows(h: History, first: Row, last: Row) {
    && Run(h.aggregates, h.events) && |h.aggregates| == |h.events| + 1
    && h.aggregates[0] == first.aggregate
    && h.aggregates[|h.events|] == last.aggregate
    && last.revision == first.revision + |h.events|
  }

  lemma LinkItself(r: Row)
    requires Sound(r.aggregate)
    ensures LinksRows(History([r.aggregate], []), r, r)
  {
    hide Sound;
  }

  lemma ExtendLink(h: History, first: Row, middle: Row, e: Option<Event>, last: Row)
    requires LinksRows(h, first, middle) && RowStep(middle, e, last)
    ensures e.None? ==> LinksRows(h, first, last)
    ensures e.Some? ==> LinksRows(History(h.aggregates + [last.aggregate], h.events + [e.value]), first, last)
  {
    hide Run, StageFrom;
    if e.Some? {
      ExtendRun(h.aggregates, h.events, e.value, last.aggregate);
    }
  }

  // Main result: under any interleaving of workers, late calls, lost acknowledgements, cancellations
  // and clock readings, a session's durable aggregates are a run of the single-worker pipeline,
  // and its revision counts the stages of that run.
  lemma {:induction false} ConcurrentSubmitsRefinePipeline(c: Config, states: seq<System>, steps: seq<Step>, k: SessionId, i: nat, j: nat)
    requires SystemRun(c, states, steps) && i <= j < |states| && Stays(states, k, i, j)
    ensures LinksRows(DurableHistory(c, states, steps, k, i, j), states[i].rows[k], states[j].rows[k])
    decreases j - i
  {
    hide Inv, Sound, MadeDurable, LinksRows, RowStep, Follows;
    if i == j {
      ReachableInv(c, states, steps, i);
      SoundRow(states[i], k);
      LinkItself(states[i].rows[k]);
    } else {
      assert Stays(states, k, i, j - 1);
      ConcurrentSubmitsRefinePipeline(c, states, steps, k, i, j - 1);
      StepOfRow(c, states, steps, k, j - 1);
      ExtendLink(DurableHistory(c, states, steps, k, i, j - 1), states[i].rows[k], states[j - 1].rows[k],
                 MadeDurable(c, states[j - 1], steps[j - 1], k), states[j].rows[k]);
    }
  }

  lemma SoundRow(s: System, k: SessionId)
    requires Inv(s) && k in s.rows
    ensures Sound(s.rows[k].aggregate)
  {
    hide Sound;
    assert RowSound(k, s.rows[k]);
  }

  lemma ExtendRun(h: seq<Aggregate>, es: seq<Event>, e: Event, a: Aggregate)
    requires Run(h, es) && StageFrom(h[|es|], e, a)
    ensures Run(h + [a], es + [e])
  {
    hide Sound, StageFrom;
    var g, fs := h + [a], es + [e];
    forall i | 0 <= i < |fs| ensures StageFrom(g[i], fs[i], g[i + 1]) {
      if i < |es| {
        assert StageFrom(h[i], es[i], h[i + 1]);
      }
    }
  }

  // However many workers race, a session ends within MAX_TURNS settled submits.
  lemma ConcurrentSessionsAreBounded(c: Config, states: seq<System>, steps: seq<Step>, k: SessionId, i: nat, j: nat)
    requires SystemRun(c, states, steps) && i <= j < |states| && Stays(states, k, i, j)
    requires states[i].rows[k].aggregate.artifact.turn == 1
    ensures var settled := Submits(DurableHistory(c, states, steps, k, i, j).events);
            && settled <= MAX_TURNS
            && (settled == MAX_TURNS ==> states[j].rows[k].aggregate.artifact.done)
  {
    hide Run, Follows;
    var h := DurableHistory(c, states, steps, k, i, j);
    ConcurrentSubmitsRefinePipeline(c, states, steps, k, i, j);
    SessionsAreBounded(h.aggregates, h.events);
  }

  // ---- at most once ----

  // A receipt that became durable is returned to every later retry of its key and payload, from
  // any worker, and refuses the key with another payload, for as long as the session exists.
  lemma {:induction false} ReceiptsSurvive(c: Config, states: seq<System>, steps: seq<Step>, k: SessionId, i: nat, j: nat, key: Key, other: Request)
    requires SystemRun(c, states, steps) && i <= j < |states| && Stays(states, k, i, j)
    requires key in states[i].rows[k].aggregate.receipts
    ensures var r := states[i].rows[k].aggregate.receipts[key];
            && FindReceipt(states[j].rows[k].aggregate, Some(key), r.request) == Replay(r.response)
            && (other != r.request ==> FindReceipt(states[j].rows[k].aggregate, Some(key), other) == PayloadMismatch)
  {
    hide Run, Follows;
    var h := DurableHistory(c, states, steps, k, i, j);
    ConcurrentSubmitsRefinePipeline(c, states, steps, k, i, j);
    ReceiptsAreKept(h.aggregates, h.events, 0, |h.events|, key);
  }

  // ---- fencing ----

  // The worker's claim was granted or refused, and no row carries its token any more.
  ghost predicate Fenced(s: System, t: Token) {
    && t in s.workers && s.workers[t].call != Some(ClaimCall)
    && forall k :: k in s.rows ==> !Holds(s.rows[k], t)
  }

  lemma FencedStep(c: Config, s: System, step: Step, t: Token)
    requires ConfigOk(c) && Inv(s) && Possible(c, s, step) && Fenced(s, t)
    ensures Fenced(After(c, s, step), t)
    ensures step.LandWrite? && step.token == t ==> After(c, s, step).rows == s.rows
  {
    hide RowSound, StageFrom, WorkerOk, InsertedInto, Sound, Serves, Enabled, Apply, AdaptiveModels.Valid;
    if step.OpenSession? {
      OpenTable(s.rows, step.after, step.opening, step.start, step.now, c);
    }
  }

  // A worker whose claim was superseded or released never lands another write.
  lemma {:induction false} FencedForEver(c: Config, states: seq<System>, steps: seq<Step>, t: Token, i: nat, j: nat)
    requires SystemRun(c, states, steps) && i <= j < |states| && Fenced(states[i], t)
    ensures Fenced(states[j], t)
    ensures j < |steps| && steps[j].LandWrite? && steps[j].token == t ==> states[j + 1].rows == states[j].rows
    decreases j - i
  {
    hide Inv, Possible, After, Fenced;
    if i < j {
      FencedForEver(c, states, steps, t, i, j - 1);
      ReachableInv(c, states, steps, j - 1);
      assert Follows(c, states[j - 1], steps[j - 1], states[j]);
      FencedStep(c, states[j - 1], steps[j - 1], t);
    }
    if j < |steps| {
      ReachableInv(c, states, steps, j);
      assert Follows(c, states[j], steps[j], states[j + 1]);
      FencedStep(c, states[j], steps[j], t);
    }
  }

  // ---- whose submit is settled ----

  lemma FinishSettlesPending(a: Aggregate, e: Event)
    requires e.FinishTurn? && Enabled(a, e)
    ensures var p, b := a.pending.value, Apply(a, e);
            p.key.Some? ==> p.key.value in b.receipts && b.receipts[p.key.value].request == p.request && b.receipts[p.key.value].response == b.artifact
  {
  }

  lemma BindRecordsRequest(a: Aggregate, e: Event)
    requires e.BindInput? && Enabled(a, e)
    ensures var b := Apply(a, e); b.pending.Some? && b.pending.value.request == e.request && b.pending.value.key == e.key
  {
  }

  // What a worker makes durable is its own submit: it binds its own request and key, continues no other, and the
  // turn it settles is settled for its request, under its key if it has one.
  lemma WorkersSettleTheirOwn(c: Config, states: seq<System>, steps: seq<Step>, i: nat)
    requires SystemRun(c, states, steps) && i < |steps| && steps[i].LandWrite?
    requires steps[i].token in states[i].workers && states[i].workers[steps[i].token].call.Some?
    requires states[i].workers[steps[i].token].call.value.WriteCall? && states[i].workers[steps[i].token].view.Some?
    requires Lands(states[i], steps[i].token, steps[i].now)
    ensures var w := states[i].workers[steps[i].token];
            && w.session in states[i].rows && w.session in states[i + 1].rows
            && var before, after := states[i].rows[w.session].aggregate, states[i + 1].rows[w.session].aggregate;
               && (!w.call.value.event.BindInput? ==>
                     before.pending.Some? && before.pending.value.request == w.request && before.pending.value.key == w.key)
               && (w.call.value.event.BindInput? ==>
                     after.pending.Some? && after.pending.value.request == w.request && after.pending.value.key == w.key)
               && (w.call.value.event.FinishTurn? && w.key.Some? ==>
                     && w.key.value in after.receipts && after.receipts[w.key.value].request == w.request
                     && after.receipts[w.key.value].response == after.artifact)
  {
    hide Enabled, Apply, AdaptiveModels.Valid, LoopInv, StartKeysUnique, RowSound, InsertedInto;
    var s, t := states[i], steps[i].token;
    var w := s.workers[t];
    ReachableInv(c, states, steps, i);
    assert Follows(c, s, steps[i], states[i + 1]);
    assert WorkerOk(s.rows, t, w);
    assert StageFrom(w.view.value.base, w.call.value.event, w.call.value.next);
    if w.call.value.event.FinishTurn? {
      FinishSettlesPending(w.view.value.base, w.call.value.event);
    } else if w.call.value.event.BindInput? {
      BindRecordsRequest(w.view.value.base, w.call.value.event);
    }
  }

  // ---- the lease ----

  // Worker `t` holds session `k` until `until`, at the revision it last saw.
  ghost predicate HoldsUntil(s: System, k: SessionId, t: Token, until: real) {
    && k in s.rows && s.rows[k].claim == Some(Claim(t, until))
    && t in s.workers && s.workers[t].session == k && s.workers[t].view.Some?
    && s.workers[t].view.value.revision == s.rows[k].revision
  }

  // The holder neither writes nor releases, and claims and openings read the clock before the lease is over.
  predicate DuringLease(step: Step, t: Token, until: real) {
    match step
    case LandClaim(_, now) => now < until
    case OpenSession(_, _, now, _) => now < until
    case LandWrite(u, _, _) => u != t
    case LandRelease(u, _) => u != t
    case _ => true
  }

  // A granted claim and an acknowledged checkpoint each hold the session for one lease from their clock reading.
  lemma AcknowledgedHolds(c: Config, s: System, step: Step)
    requires ConfigOk(c) && Inv(s) && Possible(c, s, step)
    ensures step.LandClaim? && CanClaim(s.rows, s.workers[step.token].session, step.now) ==>
              HoldsUntil(After(c, s, step), s.workers[step.token].session, step.token, step.now + c.lease)
    ensures step.LandWrite? && step.acknowledged && Lands(s, step.token, step.now) && !s.workers[step.token].call.value.event.FinishTurn? ==>
              HoldsUntil(After(c, s, step), s.workers[step.token].session, step.token, step.now + c.lease)
  {
    hide RowSound, ClaimTraced, WorkerOk, StartKeysUnique, InsertedInto, Sound, Serves, Enabled, Apply, AdaptiveModels.Valid;
  }

  lemma HoldStep(c: Config, s: System, step: Step, k: SessionId, t: Token, until: real)
    requires ConfigOk(c) && Inv(s) && Possible(c, s, step) && HoldsUntil(s, k, t, until) && DuringLease(step, t, until)
    ensures HoldsUntil(After(c, s, step), k, t, until)
    ensures After(c, s, step).rows[k] == s.rows[k] && After(c, s, step).workers[t].view == s.workers[t].view
  {
    hide StageFrom, InsertedInto, Sound, Serves, Enabled, Apply, AdaptiveModels.Valid, StartKeysUnique, EvictsOldest, StaleRows;
    assert WorkerOk(s.rows, t, s.workers[t]) && ClaimTraced(s.workers, k, s.rows[k]);
    if step.OpenSession? {
      HeldIsKept(c, s, step, k);
    }
  }

  lemma HeldIsKept(c: Config, s: System, step: Step, k: SessionId)
    requires ConfigOk(c) && step.OpenSession? && Possible(c, s, step) && k in s.rows && Busy(s.rows[k], step.now)
    ensures k in step.after && step.after[k] == s.rows[k]
  {
    hide Sound, EvictsOldest, StaleRows, Overflow, NewRow, AdaptiveModels.Valid;
    KeptRows(s.rows, step.now, step.after - {step.opening.session}, c);
  }

  // For as long as the lease runs the session is the holder's: whatever else happens, its row does not change
  // and a write the holder sent lands exactly before the lease is over.
  lemma {:induction false} LeaseIsExclusive(c: Config, states: seq<System>, steps: seq<Step>, k: SessionId, t: Token, until: real, i: nat, j: nat)
    requires SystemRun(c, states, steps) && i <= j < |states| && HoldsUntil(states[i], k, t, until)
    requires forall m :: i <= m < j ==> DuringLease(steps[m], t, until)
    ensures HoldsUntil(states[j], k, t, until) && states[j].rows[k] == states[i].rows[k]
    ensures var call := states[j].workers[t].call;
            call.Some? && call.value.WriteCall? ==> forall now: real :: Lands(states[j], t, now) <==> now < until
    decreases j - i
  {
    hide Inv, Possible, After, HoldsUntil, DuringLease;
    ReachableInv(c, states, steps, j);
    if i < j {
      LeaseIsExclusive(c, states, steps, k, t, until, i, j - 1);
      ReachableInv(c, states, steps, j - 1);
      assert Follows(c, states[j - 1], steps[j - 1], states[j]);
      HoldStep(c, states[j - 1], steps[j - 1], k, t, until);
    }
    HolderWrites(states[j], k, t, until);
  }

  lemma HolderWrites(s: System, k: SessionId, t: Token, until: real)
    requires Inv(s) && HoldsUntil(s, k, t, until)
    ensures var call := s.workers[t].call;
            call.Some? && call.value.WriteCall? ==> forall now: real :: Lands(s, t, now) <==> now < until
  {
    hide Sound, AdaptiveModels.Valid, StartKeysUnique, Enabled, Apply;
    var w := s.workers[t];
    assert RowSound(k, s.rows[k]) && WorkerOk(s.rows, t, w);
    if w.call.Some? && w.call.value.WriteCall? {
      assert StageFrom(w.view.value.base, w.call.value.event, w.call.value.next);
      StageIdentity(w.view.value.base, w.call.value.event);
    }
  }

  // ---- finished sessions ----

  lemma FrozenStep(c: Config, s: System, step: Step, k: SessionId)
    requires ConfigOk(c) && Inv(s) && Possible(c, s, step)
    requires k in s.rows && Done(s.rows[k]) && k in After(c, s, step).rows
    ensures After(c, s, step).rows[k] == s.rows[k]
  {
    hide StageFrom, WorkerOk, InsertedInto, Sound, Serves, Enabled, Apply, AdaptiveModels.Valid;
    assert RowSound(k, s.rows[k]);
    if step.OpenSession? {
      OpenTable(s.rows, step.after, step.opening, step.start, step.now, c);
    }
  }

  // A finished row never changes again, except by being deleted.
  lemma {:induction false} FinishedRowsFreeze(c: Config, states: seq<System>, steps: seq<Step>, k: SessionId, i: nat, j: nat)
    requires SystemRun(c, states, steps) && i <= j < |states| && Stays(states, k, i, j) && Done(states[i].rows[k])
    ensures states[j].rows[k] == states[i].rows[k]
    decreases j - i
  {
    hide Inv, Possible, After, Done;
    if i < j {
      assert Stays(states, k, i, j - 1);
      FinishedRowsFreeze(c, states, steps, k, i, j - 1);
      ReachableInv(c, states, steps, j - 1);
      assert Follows(c, states[j - 1], steps[j - 1], states[j]);
      FrozenStep(c, states[j - 1], steps[j - 1], k);
    }
  }

  // ---- the learning path a finished session publishes ----

  // What the publication fingerprint covers.
  datatype Fingerprint = Fingerprint(session: string, user: string, document: string, goal: string, sourceCreatedAt: real, path: string)

  // _adaptive_path_binding: nothing to publish, a refusal, or the fingerprint.
  function PathBinding(r: Row, now: real, shown: Artifact): Result<Option<Fingerprint>, ()> {
    var a := r.aggregate;
    if !shown.reason.PlanSwitch? then Ok(None)
    else if Busy(r, now) || a.status.Active? || shown != a.artifact || a.artifact.learningPath.None? then Err(())
    else Ok(Some(Fingerprint(a.session, a.user, a.document, a.goal, r.updatedAt, a.artifact.learningPath.value)))
  }

  // Only an idle finished session binds a path, only for the screen it ends with, and only the path shown there.
  lemma PathBindingChecks(r: Row, now: real, shown: Artifact)
    ensures PathBinding(r, now, shown) == Ok(None) <==> shown.reason != PlanSwitch
    ensures PathBinding(r, now, shown).Ok? && PathBinding(r, now, shown).value.Some? <==>
              && shown.reason == PlanSwitch && r.aggregate.status.Completed? && shown == r.aggregate.artifact && shown.learningPath.Some?
              && !(r.claim.Some? && r.claim.value.until > now)
    ensures PathBinding(r, now, shown).Ok? && PathBinding(r, now, shown).value.Some? ==>
              var bound := PathBinding(r, now, shown).value.value;
              && bound.session == r.aggregate.session && bound.user == r.aggregate.user && bound.document == r.aggregate.document
              && bound.goal == r.aggregate.goal && bound.sourceCreatedAt == r.updatedAt && Some(bound.path) == shown.learningPath
  {
  }

  // A replayed receipt of a session that switched to planning binds the same path every time:
  // whichever worker replays it, whenever, and whatever its clock reads.
  lemma ReplaysPublishTheSamePath(c: Config, states: seq<System>, steps: seq<Step>, k: SessionId, i: nat, j: nat, now: real, later: real, key: Key)
    requires SystemRun(c, states, steps) && i <= j < |states| && Stays(states, k, i, j)
    requires key in states[i].rows[k].aggregate.receipts
    requires states[i].rows[k].aggregate.receipts[key].response.reason.PlanSwitch?
    ensures var shown := states[i].rows[k].aggregate.receipts[key].response;
            && PathBinding(states[i].rows[k], now, shown).Ok?
            && PathBinding(states[i].rows[k], now, shown).value.Some?
            && PathBinding(states[j].rows[k], later, shown) == PathBinding(states[i].rows[k], now, shown)
  {
    hide SystemRun, Inv;
    ReachableInv(c, states, steps, i);
    PlanReceiptIsCanonical(states[i], k, key);
    FinishedRowsFreeze(c, states, steps, k, i, j);
  }

  lemma PlanReceiptIsCanonical(s: System, k: SessionId, key: Key)
    requires Inv(s) && k in s.rows && key in s.rows[k].aggregate.receipts
    requires s.rows[k].aggregate.receipts[key].response.reason.PlanSwitch?
    ensures var r := s.rows[k];
            && Done(r) && r.claim.None? && r.aggregate.receipts[key].response == r.aggregate.artifact
            && r.aggregate.artifact.learningPath.Some?
  {
    hide LoopInv, WorkerOk, StageFrom, TrajectoryOk, ReportViewOk;
    assert RowSound(k, s.rows[k]);
    PlanReceipt(s.rows[k].aggregate, key);
  }

  lemma PlanReceipt(a: Aggregate, key: Key)
    requires ReceiptsOk(a) && IdentityOk(a) && ArtifactOk(a.artifact)
    requires key in a.receipts && a.receipts[key].response.reason.PlanSwitch?
    ensures a.status.Completed? && a.receipts[key].response == a.artifact && a.artifact.learningPath.Some?
  {
    hide TrajectoryOk, ReportViewOk, DecisionOk;
    assert ReceiptOk(a.receipts[key]);
  }
}
