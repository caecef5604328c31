// Any number of submit workers over the shared session table. A worker is one claimed
// submit, named by its claim token. Its database calls are sent and land separately, so
// a call may land after its worker was cancelled, its acknowledgement may be lost, and
// every transaction reads its own clock.

module SubmitProtocol {
  import opened Options
  import opened AdaptiveModels
  import opened SubmitPipeline
  import opened SubmitSoundness
  import opened SubmitRuns
  import opened SessionStore

  datatype Call = ClaimCall | WriteCall(event: Event, next: Aggregate)

  // The record a worker last had acknowledged.
  datatype View = View(revision: int, base: Aggregate)

  datatype Worker = Worker(
    session: SessionId, key: Option<Key>, request: Request, alive: bool, call: Option<Call>, view: Option<View>)

  datatype System = System(rows: Rows, workers: map<Token, Worker>)

  datatype Step =
    | OpenSession(opening: Aggregate, start: Option<StartKey>, now: real, after: Rows)
    | StartWorker(token: Token, session: SessionId, key: Option<Key>, request: Request)
    | LandClaim(token: Token, now: real)
    | SendWrite(token: Token, event: Event)
    | LandWrite(token: Token, now: real, acknowledged: bool)
    | Cancel(token: Token)
    | LandRelease(token: Token, now: real)

  // _validate_submit_binding: the event continues the submit this worker carries.
  predicate Serves(w: Worker, v: View, e: Event) {
    if e.BindInput? then e.request == w.request && e.key == w.key && e.revision == v.revision
    else v.base.pending.Some? && v.base.pending.value.request == w.request && v.base.pending.value.key == w.key
  }

  ghost predicate Possible(c: Config, s: System, step: Step) {
    match step
    case OpenSession(opening, start, now, after) =>
      Sound(opening) && (start.Some? ==> !KeyTaken(s.rows, start.value.key)) && InsertedInto(s.rows, after, opening, start, now, c)
    case StartWorker(token, _, _, _) => token !in s.workers
    case LandClaim(token, _) => token in s.workers && s.workers[token].call == Some(ClaimCall)
    case SendWrite(token, e) =>
      && token in s.workers && s.workers[token].alive && s.workers[token].call.None? && s.workers[token].view.Some?
      && var v := s.workers[token].view.value;
         Serves(s.workers[token], v, e) && Enabled(v.base, e) && Valid(Apply(v.base, e))
    case LandWrite(token, _, _) =>
      && token in s.workers && s.workers[token].call.Some? && s.workers[token].call.value.WriteCall?
      && s.workers[token].view.Some?
    case Cancel(token) => token in s.workers
    case LandRelease(token, _) => token in s.workers && !s.workers[token].alive && s.workers[token].call != Some(ClaimCall)
  }

  function Landed(c: Config, s: System, token: Token, now: real): Rows
    requires token in s.workers && s.workers[token].call.Some? && s.workers[token].call.value.WriteCall? && s.workers[token].view.Some?
  {
    var w := s.workers[token];
    AfterWrite(s.rows, w.session, token, w.view.value.revision, w.call.value.next, w.call.value.event.FinishTurn?, now, c)
  }

  predicate Lands(s: System, token: Token, now: real)
    requires token in s.workers && s.workers[token].call.Some? && s.workers[token].call.value.WriteCall? && s.workers[token].view.Some?
  {
    var w := s.workers[token];
    CanWrite(s.rows, w.session, token, w.view.value.revision, w.call.value.next, now)
  }

  function WorkerAfterClaim(s: System, token: Token, now: real): Worker
    requires token in s.workers
  {
    var w := s.workers[token];
    if CanClaim(s.rows, w.session, now) then
      w.(call := None, view := Some(View(s.rows[w.session].revision, s.rows[w.session].aggregate)))
    else w.(call := None, alive := false)
  }

  function WorkerAfterWrite(s: System, token: Token, now: real, acknowledged: bool): Worker
    requires token in s.workers && s.workers[token].call.Some? && s.workers[token].call.value.WriteCall? && s.workers[token].view.Some?
  {
    var w := s.workers[token];
    if Lands(s, token, now) && acknowledged && !w.call.value.event.FinishTurn? then
      w.(call := None, view := Some(View(w.view.value.revision + 1, w.call.value.next)))
    else w.(call := None, alive := false)
  }

  ghost function After(c: Config, s: System, step: Step): System
    requires Possible(c, s, step)
  {
    match step
    case OpenSession(_, _, _, after) => s.(rows := after)
    case StartWorker(token, session, key, request) =>
      s.(workers := s.workers[token := Worker(session, key, request, true, Some(ClaimCall), None)])
    case LandClaim(token, now) =>
      System(AfterClaim(s.rows, s.workers[token].session, token, now, c), s.workers[token := WorkerAfterClaim(s, token, now)])
    case SendWrite(token, e) =>
      var w := s.workers[token];
      s.(workers := s.workers[token := w.(call := Some(WriteCall(e, Apply(w.view.value.base, e))))])
    case LandWrite(token, now, acknowledged) =>
      System(Landed(c, s, token, now), s.workers[token := WorkerAfterWrite(s, token, now, acknowledged)])
    case Cancel(token) => s.(workers := s.workers[token := s.workers[token].(alive := false)])
    case LandRelease(token, now) => s.(rows := AfterRelease(s.rows, s.workers[token].session, token, now))
  }

  // ---- the invariant ----

  predicate Holds(r: Row, t: Token) {
    r.claim.Some? && r.claim.value.token == t
  }

  // A durable row is sound, and a finished session carries no claim.
  predicate RowSound(s: SessionId, r: Row) {
    RowOk(s, r) && Sound(r.aggregate) && (Done(r) ==> r.claim.None?)
  }

  // A claim in the table was taken by the worker of that session.
  predicate ClaimTraced(workers: map<Token, Worker>, s: SessionId, r: Row) {
    r.claim.Some? ==>
      var t := r.claim.value.token;
      t in workers && workers[t].session == s && workers[t].call != Some(ClaimCall)
  }

  // What a worker has seen or sent is one stage of what it last saw, and as long as it holds
  // the claim at that revision, what it saw is what is stored.
  predicate WorkerOk(rows: Rows, t: Token, w: Worker) {
    && (w.call == Some(ClaimCall) ==> w.view.None?)
    && (w.call.Some? && w.call.value.WriteCall? ==>
         && w.view.Some?
         && StageFrom(w.view.value.base, w.call.value.event, w.call.value.next)
         && Serves(w, w.view.value, w.call.value.event))
    && (w.view.Some? && w.session in rows && Holds(rows[w.session], t) ==>
         && w.view.value.revision <= rows[w.session].revision
         && (w.view.value.revision == rows[w.session].revision ==> rows[w.session].aggregate == w.view.value.base))
  }

  ghost predicate Inv(s: System) {
    && StartKeysUnique(s.rows)
    && (forall k :: k in s.rows ==> RowSound(k, s.rows[k]) && ClaimTraced(s.workers, k, s.rows[k]))
    && (forall t :: t in s.workers ==> WorkerOk(s.rows, t, s.workers[t]))
  }

  // The stage a step makes durable.
  ghost function MadeDurable(c: Config, s: System, step: Step, k: SessionId): Option<Event> {
    if step.LandWrite? && Possible(c, s, step) && s.workers[step.token].session == k && Lands(s, step.token, step.now)
    then Some(s.workers[step.token].call.value.event) else None
  }

  // What one step does to a row that stays in the table.
  ghost predicate RowStep(r: Row, e: Option<Event>, q: Row) {
    && q.identity == r.identity
    && if e.None? then q.aggregate == r.aggregate && q.revision == r.revision
       else StageFrom(r.aggregate, e.value, q.aggregate) && q.revision == r.revision + 1
  }

  // ---- every step keeps the invariant, and makes durable at most one stage ----

  ghost predicate StepOk(c: Config, s: System, step: Step)
    requires Possible(c, s, step)
  {
    && Inv(After(c, s, step))
    && forall k :: k in s.rows && k in After(c, s, step).rows ==> RowStep(s.rows[k], MadeDurable(c, s, step, k), After(c, s, step).rows[k])
  }

  lemma OpenTable(rows: Rows, after: Rows, a: Aggregate, start: Option<StartKey>, now: real, c: Config)
    requires ConfigOk(c) && InsertedInto(rows, after, a, start, now, c)
    requires StartKeysUnique(rows) && (start.Some? ==> !KeyTaken(rows, start.value.key))
    ensures a.session in after && after.Keys <= rows.Keys + {a.session} && after[a.session] == NewRow(a, start, now, c)
    ensures forall k :: k in rows && k in after ==> after[k] == rows[k]
    ensures StartKeysUnique(after)
  {
    hide EvictsOldest, StaleRows, NewRow;
    var kept := after - {a.session};
    KeptRows(rows, now, kept, c);
    forall k | k in after && k != a.session ensures k in rows && after[k] == rows[k] {
      assert k in kept;
    }
    OpenStartKeys(rows, after, a, start, now, c);
  }

  lemma OpenStartKeys(rows: Rows, after: Rows, a: Aggregate, start: Option<StartKey>, now: real, c: Config)
    requires StartKeysUnique(rows) && (start.Some? ==> !KeyTaken(rows, start.value.key))
    requires a.session in after && after[a.session] == NewRow(a, start, now, c)
    requires forall k :: k in after && k != a.session ==> k in rows && after[k] == rows[k]
    ensures StartKeysUnique(after)
  {
    assert start.Some? ==> forall l :: l in rows ==> !HasStartKey(rows[l], start.value.key);
    forall k, l | k in after && l in after && SameStartKey(after[k], after[l]) ensures k == l {
    }
  }

  lemma OpenStep(c: Config, s: System, step: Step)
    requires ConfigOk(c) && Inv(s) && step.OpenSession? && Possible(c, s, step)
    ensures StepOk(c, s, step)
  {
    hide LoopInv, AdaptiveModels.Valid, InsertedInto, StageFrom, StartKeysUnique;
    var a, after := step.opening, step.after;
    OpenTable(s.rows, after, a, step.start, step.now, c);
    assert RowSound(a.session, after[a.session]);
    forall t | t in s.workers ensures WorkerOk(after, t, s.workers[t]) {
      assert WorkerOk(s.rows, t, s.workers[t]);
    }
  }

  lemma StartStep(c: Config, s: System, step: Step)
    requires Inv(s) && step.StartWorker? && Possible(c, s, step)
    ensures StepOk(c, s, step)
  {
    hide RowSound, StageFrom, StartKeysUnique;
  }

  lemma CancelStep(c: Config, s: System, step: Step)
    requires Inv(s) && step.Cancel? && Possible(c, s, step)
    ensures StepOk(c, s, step)
  {
    hide RowSound, StageFrom, StartKeysUnique;
    var after := After(c, s, step);
    forall t | t in after.workers ensures WorkerOk(s.rows, t, after.workers[t]) {
      assert WorkerOk(s.rows, t, s.workers[t]);
    }
  }

  lemma SendStep(c: Config, s: System, step: Step)
    requires Inv(s) && step.SendWrite? && Possible(c, s, step)
    ensures StepOk(c, s, step)
  {
    hide RowSound, Enabled, Apply, AdaptiveModels.Valid, StartKeysUnique;
    var after := After(c, s, step);
    forall t | t in after.workers ensures WorkerOk(s.rows, t, after.workers[t]) {
      assert WorkerOk(s.rows, t, s.workers[t]);
    }
  }

  lemma SameStartKeys(rows: Rows, k: SessionId, r: Row)
    requires StartKeysUnique(rows) && k in rows && r.start == rows[k].start
    ensures StartKeysUnique(rows[k := r])
  {
  }

  lemma ClaimStep(c: Config, s: System, step: Step)
    requires ConfigOk(c) && Inv(s) && step.LandClaim? && Possible(c, s, step)
    ensures StepOk(c, s, step)
  {
    hide Sound, AdaptiveModels.Valid, StageFrom, StartKeysUnique;
    var t, w, after := step.token, s.workers[step.token], After(c, s, step);
    if CanClaim(s.rows, w.session, step.now) {
      SameStartKeys(s.rows, w.session, after.rows[w.session]);
    }
    forall u | u in after.workers ensures WorkerOk(after.rows, u, after.workers[u]) {
      assert WorkerOk(s.rows, u, s.workers[u]);
    }
  }

  lemma ReleaseStep(c: Config, s: System, step: Step)
    requires Inv(s) && step.LandRelease? && Possible(c, s, step)
    ensures StepOk(c, s, step)
  {
    hide Sound, AdaptiveModels.Valid, StageFrom, StartKeysUnique;
    var t, w, after := step.token, s.workers[step.token], After(c, s, step);
    if CanRelease(s.rows, w.session, t) {
      SameStartKeys(s.rows, w.session, after.rows[w.session]);
    }
    forall u | u in after.workers ensures WorkerOk(after.rows, u, after.workers[u]) {
      assert WorkerOk(s.rows, u, s.workers[u]);
    }
  }

  lemma StageStatus(a: Aggregate, e: Event)
    requires Enabled(a, e) && !e.FinishTurn?
    ensures Apply(a, e).status == a.status
  {
  }

  lemma StageIdentity(a: Aggregate, e: Event)
    requires Enabled(a, e)
    ensures IdentityOf(Apply(a, e)) == IdentityOf(a)
  {
  }

  // A landed write is one stage of what was stored.
  lemma LandedRow(c: Config, s: System, step: Step)
    requires ConfigOk(c) && Inv(s) && step.LandWrite? && Possible(c, s, step) && Lands(s, step.token, step.now)
    ensures var w := s.workers[step.token];
            var r, q := s.rows[w.session], Landed(c, s, step.token, step.now)[w.session];
            && StageFrom(r.aggregate, w.call.value.event, q.aggregate) && RowSound(w.session, q)
            && q == WrittenRow(r, step.token, w.call.value.next, w.call.value.event.FinishTurn?, step.now, c)
  {
    hide LoopInv, AdaptiveModels.Valid, Enabled, Apply, StartKeysUnique;
    var w := s.workers[step.token];
    var r, e := s.rows[w.session], w.call.value.event;
    assert WorkerOk(s.rows, step.token, w) && RowSound(w.session, r);
    StageAccepted(r.aggregate, e);
    StageIdentity(r.aggregate, e);
    if !e.FinishTurn? {
      StageStatus(r.aggregate, e);
    }
  }

  lemma WriteStep(c: Config, s: System, step: Step)
    requires ConfigOk(c) && Inv(s) && step.LandWrite? && Possible(c, s, step)
    ensures StepOk(c, s, step)
  {
    hide RowSound, StageFrom, StartKeysUnique;
    var t, w, after := step.token, s.workers[step.token], After(c, s, step);
    if Lands(s, t, step.now) {
      LandedRow(c, s, step);
      SameStartKeys(s.rows, w.session, after.rows[w.session]);
    }
    forall u | u in after.workers ensures WorkerOk(after.rows, u, after.workers[u]) {
      assert WorkerOk(s.rows, u, s.workers[u]);
    }
  }

  lemma StepKeepsInv(c: Config, s: System, step: Step)
    requires ConfigOk(c) && Inv(s) && Possible(c, s, step)
    ensures StepOk(c, s, step)
  {
    hide Inv, Possible, After, StepOk;
    match step
    case OpenSession(_, _, _, _) => OpenStep(c, s, step);
    case StartWorker(_, _, _, _) => StartStep(c, s, step);
    case LandClaim(_, _) => ClaimStep(c, s, step);
    case SendWrite(_, _) => SendStep(c, s, step);
    case LandWrite(_, _, _) => WriteStep(c, s, step);
    case Cancel(_) => CancelStep(c, s, step);
    case LandRelease(_, _) => ReleaseStep(c, s, step);
  }
}
