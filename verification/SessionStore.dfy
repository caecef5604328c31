// The durable table of Adaptive sessions: one row per session, written only under a
// short claim. Every method is one transaction and reads the clock once; nothing is
// assumed about how successive clock readings relate.

module SessionStore {
  import opened Options
  import opened AdaptiveModels

  type SessionId = string
  type Token = nat

  datatype Config = Config(ttl: real, lease: real, maxCount: nat)

  // What the immutable hash covers.
  datatype Identity = Identity(session: string, user: string, document: string, goal: string)

  datatype Claim = Claim(token: Token, until: real)

  datatype StartKey = StartKey(key: Key, request: string)

  datatype Row = Row(
    aggregate: Aggregate, identity: Identity, revision: int, start: Option<StartKey>,
    createdAt: real, updatedAt: real, expiresAt: real, claim: Option<Claim>)

  type Rows = map<SessionId, Row>

  predicate ConfigOk(c: Config) {
    c.ttl > 0.0 && c.lease > 0.0 && c.maxCount > 0
  }

  function IdentityOf(a: Aggregate): Identity {
    Identity(a.session, a.user, a.document, a.goal)
  }

  predicate Done(r: Row) {
    r.aggregate.status.Completed?
  }

  predicate Busy(r: Row, now: real) {
    r.claim.Some? && r.claim.value.until > now
  }

  predicate Expired(r: Row, now: real) {
    r.expiresAt <= now
  }

  // A row the store would read back: its payload is valid and is the one the row names,
  // and a claim never outlives the session it may commit.
  predicate RowOk(s: SessionId, r: Row) {
    && Valid(r.aggregate)
    && r.aggregate.session == s
    && r.identity == IdentityOf(r.aggregate)
    && r.revision >= 1
    && (r.claim.Some? ==> r.claim.value.until <= r.expiresAt)
  }

  predicate HasStartKey(r: Row, key: Key) {
    r.start.Some? && r.start.value.key == key
  }

  predicate SameStartKey(r: Row, q: Row) {
    r.start.Some? && HasStartKey(q, r.start.value.key)
  }

  ghost predicate StartKeysUnique(rows: Rows) {
    forall s, t :: s in rows && t in rows && SameStartKey(rows[s], rows[t]) ==> s == t
  }

  ghost predicate TableOk(rows: Rows) {
    (forall s :: s in rows ==> RowOk(s, rows[s])) && StartKeysUnique(rows)
  }

  // ---- the transactions as functions on the table ----

  function Longer(a: real, b: real): real {
    if a >= b then a else b
  }

  predicate CanClaim(rows: Rows, s: SessionId, now: real) {
    s in rows && !Expired(rows[s], now) && !Done(rows[s]) && !Busy(rows[s], now)
  }

  function ClaimedRow(r: Row, token: Token, now: real, c: Config): Row {
    r.(claim := Some(Claim(token, now + c.lease)), updatedAt := now, expiresAt := now + Longer(c.ttl, c.lease))
  }

  function AfterClaim(rows: Rows, s: SessionId, token: Token, now: real, c: Config): Rows {
    if CanClaim(rows, s, now) then rows[s := ClaimedRow(rows[s], token, now, c)] else rows
  }

  // The fence every write passes.
  predicate CanWrite(rows: Rows, s: SessionId, token: Token, expected: int, a: Aggregate, now: real) {
    && s in rows
    && rows[s].claim.Some? && rows[s].claim.value.token == token
    && rows[s].claim.value.until > now && rows[s].expiresAt > now
    && rows[s].identity == IdentityOf(a)
    && rows[s].revision == expected
    && (Done(rows[s]) ==> a.status.Completed?)
  }

  // A checkpoint renews the claim, a completing write drops it.
  function WrittenRow(r: Row, token: Token, a: Aggregate, completes: bool, now: real, c: Config): Row {
    var next := r.(aggregate := a, revision := r.revision + 1, updatedAt := now);
    if completes then next.(expiresAt := now + c.ttl, claim := None)
    else next.(expiresAt := now + Longer(c.ttl, c.lease), claim := Some(Claim(token, now + c.lease)))
  }

  function AfterWrite(rows: Rows, s: SessionId, token: Token, expected: int, a: Aggregate, completes: bool, now: real, c: Config): Rows {
    if CanWrite(rows, s, token, expected, a, now) then rows[s := WrittenRow(rows[s], token, a, completes, now, c)] else rows
  }

  predicate CanRelease(rows: Rows, s: SessionId, token: Token) {
    s in rows && rows[s].claim.Some? && rows[s].claim.value.token == token
  }

  function AfterRelease(rows: Rows, s: SessionId, token: Token, now: real): Rows {
    if CanRelease(rows, s, token) then rows[s := rows[s].(claim := None, updatedAt := now)] else rows
  }

  // ---- what a claim is worth ----

  // Until `until` the session is the holder's alone: nobody claims it, and exactly the holder's writes at this
  // revision land. From then on nobody's write lands, and it may be claimed until `ends` while it is active.
  ghost predicate HeldUntil(rows: Rows, s: SessionId, token: Token, revision: int, until: real, ends: real) {
    && s in rows
    && (forall t: real :: CanClaim(rows, s, t) <==> until <= t < ends && rows[s].aggregate.status.Active?)
    && (forall t: real, other: Token, expected: int, a: Aggregate ::
          CanWrite(rows, s, other, expected, a, t) <==>
            && t < until && other == token && expected == revision
            && a.session == rows[s].identity.session && a.user == rows[s].identity.user
            && a.document == rows[s].identity.document && a.goal == rows[s].identity.goal
            && (rows[s].aggregate.status.Completed? ==> a.status.Completed?))
  }

  // Nobody holds the session: no write lands, and it may be claimed until `ends` while it is active.
  ghost predicate FreeUntil(rows: Rows, s: SessionId, ends: real) {
    && s in rows
    && (forall t: real :: CanClaim(rows, s, t) <==> t < ends && rows[s].aggregate.status.Active?)
    && (forall t: real, other: Token, expected: int, a: Aggregate :: !CanWrite(rows, s, other, expected, a, t))
  }

  // A transaction on one session leaves every other as it was, and of this one what identifies it; the row
  // carries the time of the transaction.
  ghost predicate OnlyTouches(before: Rows, after: Rows, s: SessionId, now: real) {
    && after.Keys == before.Keys
    && (forall k :: k in before && k != s ==> after[k] == before[k])
    && (s in before ==> after[s].identity == before[s].identity && after[s].start == before[s].start
                        && after[s].createdAt == before[s].createdAt && after[s].updatedAt == now)
  }

  // A granted claim holds the session for one lease, counted from its own clock reading, and keeps it alive
  // for the longer of lease and lifetime; what is stored stays.
  ghost predicate Granted(before: Rows, after: Rows, s: SessionId, token: Token, now: real, c: Config) {
    && s in before && OnlyTouches(before, after, s, now)
    && after[s].aggregate == before[s].aggregate && after[s].revision == before[s].revision
    && HeldUntil(after, s, token, before[s].revision, now + c.lease, now + if c.ttl >= c.lease then c.ttl else c.lease)
  }

  // A landed write stores the aggregate at the next revision. A checkpoint holds the session for a new lease,
  // a completing write gives it up for a new lifetime.
  ghost predicate Stored(before: Rows, after: Rows, s: SessionId, token: Token, expected: int, a: Aggregate, completes: bool, now: real, c: Config) {
    && s in before && OnlyTouches(before, after, s, now)
    && after[s].aggregate == a && after[s].revision == expected + 1
    && if completes then FreeUntil(after, s, now + c.ttl)
       else HeldUntil(after, s, token, expected + 1, now + c.lease, now + if c.ttl >= c.lease then c.ttl else c.lease)
  }

  // A release gives the session up at once and neither shortens nor prolongs its life.
  ghost predicate GivenUp(before: Rows, after: Rows, s: SessionId, now: real) {
    && s in before && OnlyTouches(before, after, s, now)
    && after[s].aggregate == before[s].aggregate && after[s].revision == before[s].revision
    && FreeUntil(after, s, before[s].expiresAt)
  }

  // A new session stands at revision 1 under its start key, free for one lifetime.
  ghost predicate Opened(after: Rows, a: Aggregate, start: Option<StartKey>, now: real, c: Config) {
    && a.session in after
    && var r := after[a.session];
       && r.aggregate == a && r.revision == 1 && r.start == start && r.createdAt == now && r.updatedAt == now
       && FreeUntil(after, a.session, now + c.ttl)
  }

  lemma NewRowIsFree(rows: Rows, a: Aggregate, start: Option<StartKey>, now: real, c: Config)
    requires a.session in rows && rows[a.session] == NewRow(a, start, now, c)
    ensures Opened(rows, a, start, now, c)
  {
  }

  lemma ClaimHolds(rows: Rows, s: SessionId, token: Token, now: real, c: Config)
    requires ConfigOk(c) && CanClaim(rows, s, now)
    ensures Granted(rows, AfterClaim(rows, s, token, now, c), s, token, now, c)
  {
  }

  lemma WriteHoldsOrFrees(rows: Rows, s: SessionId, token: Token, expected: int, a: Aggregate, completes: bool, now: real, c: Config)
    requires ConfigOk(c) && CanWrite(rows, s, token, expected, a, now)
    ensures Stored(rows, AfterWrite(rows, s, token, expected, a, completes, now, c), s, token, expected, a, completes, now, c)
  {
  }

  lemma ReleaseFrees(rows: Rows, s: SessionId, token: Token, now: real)
    requires CanRelease(rows, s, token)
    ensures GivenUp(rows, AfterRelease(rows, s, token, now), s, now)
  {
  }

  // Replacing a row by one with the same start key.
  lemma UpdateKeepsTable(rows: Rows, s: SessionId, r: Row)
    requires TableOk(rows) && s in rows && RowOk(s, r) && r.start == rows[s].start
    ensures TableOk(rows[s := r])
  {
    hide RowOk;
  }

  lemma ClaimKeepsTable(rows: Rows, s: SessionId, token: Token, now: real, c: Config)
    requires ConfigOk(c) && TableOk(rows)
    ensures TableOk(AfterClaim(rows, s, token, now, c))
  {
    hide AdaptiveModels.Valid;
    if CanClaim(rows, s, now) {
      UpdateKeepsTable(rows, s, ClaimedRow(rows[s], token, now, c));
    }
  }

  lemma WriteKeepsTable(rows: Rows, s: SessionId, token: Token, expected: int, a: Aggregate, completes: bool, now: real, c: Config)
    requires ConfigOk(c) && TableOk(rows) && Valid(a) && a.session == s
    ensures TableOk(AfterWrite(rows, s, token, expected, a, completes, now, c))
  {
    hide AdaptiveModels.Valid;
    if CanWrite(rows, s, token, expected, a, now) {
      UpdateKeepsTable(rows, s, WrittenRow(rows[s], token, a, completes, now, c));
    }
  }

  lemma ReleaseKeepsTable(rows: Rows, s: SessionId, token: Token, now: real)
    requires TableOk(rows)
    ensures TableOk(AfterRelease(rows, s, token, now))
  {
    hide AdaptiveModels.Valid;
    if CanRelease(rows, s, token) {
      UpdateKeepsTable(rows, s, rows[s].(claim := None, updatedAt := now));
    }
  }

  lemma InsertKeepsTable(rows: Rows, kept: Rows, s: SessionId, r: Row)
    requires TableOk(rows) && kept.Keys <= rows.Keys && (forall t :: t in kept ==> kept[t] == rows[t])
    requires RowOk(s, r) && forall t :: t in rows ==> !SameStartKey(r, rows[t])
    ensures TableOk(kept[s := r])
  {
    hide RowOk;
    assert forall t :: t in rows ==> !SameStartKey(rows[t], r);
  }

  // ---- capacity ----

  function StaleRows(rows: Rows, now: real): set<SessionId> {
    set s | s in rows && Expired(rows[s], now) && !Busy(rows[s], now)
  }

  function Evictable(rows: Rows, now: real): set<SessionId> {
    set s | s in rows && Done(rows[s]) && !Busy(rows[s], now)
  }

  predicate Lex(a: string, b: string) {
    if a == "" then b != ""
    else b != "" && (a[0] < b[0] || (a[0] == b[0] && Lex(a[1..], b[1..])))
  }

  predicate Older(rows: Rows, s: SessionId, t: SessionId)
    requires s in rows && t in rows
  {
    rows[s].updatedAt < rows[t].updatedAt || (rows[s].updatedAt == rows[t].updatedAt && Lex(s, t))
  }

  // More rows would have to go than are done and unclaimed.
  predicate NoRoom(rows: Rows, now: real, c: Config) {
    var live := rows - StaleRows(rows, now);
    Excess(live, c) > 0 && Excess(live, c) > |Evictable(live, now)|
  }

  // How many rows must go so that one more fits.
  function Excess(rows: Rows, c: Config): int {
    |rows| - c.maxCount + 1
  }

  function Overflow(rows: Rows, c: Config): nat {
    if Excess(rows, c) <= 0 then 0 else Excess(rows, c)
  }

  predicate KeyTaken(rows: Rows, key: Key) {
    exists s :: s in rows && HasStartKey(rows[s], key)
  }

  // A session was started by this very key and request.
  predicate Started(rows: Rows, start: Option<StartKey>) {
    exists s :: s in rows && rows[s].start == start
  }

  // The one row with a start key decides whether it was this request that started it.
  lemma OnlyStart(rows: Rows, s: SessionId, start: Option<StartKey>)
    requires StartKeysUnique(rows) && start.Some? && s in rows && HasStartKey(rows[s], start.value.key)
    ensures Started(rows, start) <==> rows[s].start == start
  {
    if t :| t in rows && rows[t].start == start {
      assert SameStartKey(rows[s], rows[t]);
    }
  }

  function NewRow(a: Aggregate, start: Option<StartKey>, now: real, c: Config): Row {
    Row(a, IdentityOf(a), 1, start, now, now, now + c.ttl, None)
  }

  // `kept` is `live` without its `n` oldest rows that are done and unclaimed.
  ghost predicate EvictsOldest(live: Rows, now: real, kept: Rows, n: nat) {
    && kept.Keys <= live.Keys
    && (forall s :: s in kept ==> kept[s] == live[s])
    && live.Keys - kept.Keys <= Evictable(live, now)
    && |kept| == |live| - n
    && forall s, t :: s in live && s !in kept && t in kept && t in Evictable(live, now) ==> Older(live, s, t)
  }

  lemma ShrinkByOne(rows: Rows, s: SessionId)
    requires s in rows
    ensures |rows - {s}| == |rows| - 1
  {
    assert (rows - {s}).Keys == rows.Keys - {s};
    assert |rows.Keys| == |rows| && |(rows - {s}).Keys| == |rows - {s}|;
  }

  // No create removes a session that is still running or still claimed, and one row fits afterwards.
  lemma KeptRows(rows: Rows, now: real, kept: Rows, c: Config)
    requires ConfigOk(c) && EvictsOldest(rows - StaleRows(rows, now), now, kept, Overflow(rows - StaleRows(rows, now), c))
    ensures kept.Keys <= rows.Keys && (forall s :: s in kept ==> kept[s] == rows[s])
    ensures forall s :: s in rows && s !in kept ==> !Busy(rows[s], now) && (Expired(rows[s], now) || Done(rows[s]))
    ensures |kept| < c.maxCount
  {
    hide Older, Busy, Expired, Done;
    var live := rows - StaleRows(rows, now);
    forall s | s in rows && s !in kept
      ensures !Busy(rows[s], now) && (Expired(rows[s], now) || Done(rows[s]))
    {
      if s in live {
        assert s in live.Keys - kept.Keys;
        assert s in Evictable(live, now);
      } else {
        assert s in StaleRows(rows, now);
      }
    }
  }

  // Exactly the expired unclaimed sessions go at once. Of the others only finished unclaimed ones go, only as many
  // as one more row needs, and each of them was last touched before every one of its kind that stays.
  lemma EvictionIsFair(rows: Rows, now: real, kept: Rows, c: Config)
    requires ConfigOk(c) && EvictsOldest(rows - StaleRows(rows, now), now, kept, Overflow(rows - StaleRows(rows, now), c))
    ensures forall s :: s in rows && rows[s].expiresAt <= now && !Busy(rows[s], now) ==> s !in kept
    ensures forall s :: s in rows && s !in kept && rows[s].expiresAt > now ==> rows[s].aggregate.status.Completed? && !Busy(rows[s], now)
    ensures (exists s :: s in rows && s !in kept && rows[s].expiresAt > now) ==> |kept| == c.maxCount - 1
    ensures forall s, t :: s in rows && s !in kept && rows[s].expiresAt > now && t in kept && rows[t].aggregate.status.Completed? && !Busy(rows[t], now) ==>
              rows[s].updatedAt < rows[t].updatedAt || (rows[s].updatedAt == rows[t].updatedAt && Lex(s, t))
  {
    var live := rows - StaleRows(rows, now);
    forall s | s in rows && s !in kept && rows[s].expiresAt > now
      ensures s in live.Keys - kept.Keys && s in Evictable(live, now) && |kept| == c.maxCount - 1
    {
      assert s in live;
      if Excess(live, c) <= 0 {
        assert |live.Keys| == |kept.Keys|;
        SameSize(kept.Keys, live.Keys);
      }
    }
  }

  lemma SameSize(part: set<SessionId>, whole: set<SessionId>)
    requires part <= whole && |part| == |whole|
    ensures part == whole
  {
    assert whole == part + (whole - part);
  }

  // Too little room: the sessions that are not expired and unclaimed fill the table, and those of them that are
  // finished and unclaimed are fewer than would have to go.
  lemma NoRoomMeaning(rows: Rows, now: real, c: Config)
    ensures var live := rows - set s | s in rows && rows[s].expiresAt <= now && !Busy(rows[s], now);
            var finished := set s | s in live && live[s].aggregate.status.Completed? && !Busy(live[s], now);
            NoRoom(rows, now, c) <==> |live| >= c.maxCount && |finished| < |live| - c.maxCount + 1
  {
    var stale := set s | s in rows && rows[s].expiresAt <= now && !Busy(rows[s], now);
    assert stale == StaleRows(rows, now);
    assert (set s | s in (rows - stale) && (rows - stale)[s].aggregate.status.Completed? && !Busy((rows - stale)[s], now)) == Evictable(rows - stale, now);
  }

  // The order of ids: by the first place where they differ, a shorter one before those it begins.
  lemma {:induction false} LexMeaning(a: string, b: string)
    ensures Lex(a, b) <==> (a <= b && a != b) || exists k :: 0 <= k < |a| && k < |b| && a[..k] == b[..k] && a[k] < b[k]
  {
    if a != "" && b != "" {
      var p, q := a[1..], b[1..];
      if a[0] == b[0] {
        LexMeaning(p, q);
        if k :| 0 <= k < |p| && k < |q| && p[..k] == q[..k] && p[k] < q[k] {
          assert a[..k + 1] == [a[0]] + p[..k] && b[..k + 1] == [b[0]] + q[..k] && a[k + 1] < b[k + 1];
        }
        if k :| 0 <= k < |a| && k < |b| && a[..k] == b[..k] && a[k] < b[k] {
          assert p[..k - 1] == a[..k][1..] && q[..k - 1] == b[..k][1..] && p[k - 1] < q[k - 1];
        }
        assert a == [a[0]] + p && b == [b[0]] + q;
      } else {
        assert a[..0] == b[..0];
        if k :| 0 <= k < |a| && k < |b| && a[..k] == b[..k] && a[k] < b[k] {
          assert k > 0 ==> a[..k][0] == b[..k][0];
        }
      }
    }
  }

  // The table after a successful create: the new row beside what capacity left of the old ones.
  ghost predicate InsertedInto(before: Rows, after: Rows, a: Aggregate, start: Option<StartKey>, now: real, c: Config) {
    var live := before - StaleRows(before, now);
    && a.session !in before && a.session in after && after[a.session] == NewRow(a, start, now, c)
    && EvictsOldest(live, now, after - {a.session}, Overflow(live, c))
  }

  lemma InsertedRow(rows: Rows, kept: Rows, a: Aggregate, start: Option<StartKey>, now: real, c: Config)
    requires a.session !in rows && kept.Keys <= rows.Keys
    requires EvictsOldest(rows - StaleRows(rows, now), now, kept, Overflow(rows - StaleRows(rows, now), c))
    ensures InsertedInto(rows, kept[a.session := NewRow(a, start, now, c)], a, start, now, c)
    ensures |kept[a.session := NewRow(a, start, now, c)]| == |kept| + 1
  {
    hide EvictsOldest, StaleRows, Overflow;
    assert kept[a.session := NewRow(a, start, now, c)] - {a.session} == kept;
    ShrinkByOne(kept[a.session := NewRow(a, start, now, c)], a.session);
  }

  lemma NewRowKeepsTable(rows: Rows, kept: Rows, a: Aggregate, start: Option<StartKey>, now: real, c: Config)
    requires TableOk(rows) && kept.Keys <= rows.Keys && (forall s :: s in kept ==> kept[s] == rows[s])
    requires Valid(a) && (start.Some? ==> !KeyTaken(rows, start.value.key))
    ensures TableOk(kept[a.session := NewRow(a, start, now, c)])
  {
    hide AdaptiveModels.Valid;
    InsertKeepsTable(rows, kept, a.session, NewRow(a, start, now, c));
  }

  lemma {:induction false} LexTotal(a: string, b: string)
    ensures a == b || Lex(a, b) || Lex(b, a)
  {
    if a != "" && b != "" && a[0] == b[0] {
      LexTotal(a[1..], b[1..]);
      assert a == [a[0]] + a[1..] && b == [b[0]] + b[1..];
    }
  }

  lemma {:induction false} LexTransitive(a: string, b: string, c: string)
    requires Lex(a, b) && Lex(b, c)
    ensures Lex(a, c)
  {
    if a != "" && a[0] == b[0] && b[0] == c[0] {
      LexTransitive(a[1..], b[1..], c[1..]);
    }
  }

  lemma OlderTransitive(rows: Rows, s: SessionId, t: SessionId, u: SessionId)
    requires s in rows && t in rows && u in rows && Older(rows, s, t) && Older(rows, t, u)
    ensures Older(rows, s, u)
  {
    if Lex(s, t) && Lex(t, u) {
      LexTransitive(s, t, u);
    }
  }

  // ORDER BY updated_at, session_id: the first row of the order.
  method OldestOf(rows: Rows, candidates: set<SessionId>) returns (s: SessionId)
    requires candidates != {} && candidates <= rows.Keys
    ensures s in candidates && forall t :: t in candidates && t != s ==> Older(rows, s, t)
  {
    s :| s in candidates;
    var rest := candidates - {s};
    while rest != {}
      invariant rest <= candidates && s in candidates && s !in rest
      invariant forall t :: t in candidates && t !in rest && t != s ==> Older(rows, s, t)
      decreases |rest|
    {
      var t :| t in rest;
      rest := rest - {t};
      LexTotal(s, t);
      if Older(rows, t, s) {
        forall u | u in candidates && u !in rest && u != t ensures Older(rows, t, u) {
          if u != s {
            OlderTransitive(rows, t, s, u);
          }
        }
        s := t;
      }
    }
  }

  datatype ClaimResult = Missing | SessionExpired | SessionDone | InProgress | Claimed(record: Row)

  datatype CreateResult = StartConflict | Existing(record: Row) | AlreadyExists | CapacityFull | Created(record: Row)

  class AdaptiveStore {
    var rows: Rows
    const config: Config

    ghost predicate Consistent()
      reads this
    {
      ConfigOk(config) && TableOk(rows) && |rows| <= config.maxCount
    }

    constructor (config: Config)
      requires ConfigOk(config)
      ensures Consistent() && rows == map[] && this.config == config
    {
      this.config := config;
      rows := map[];
    }

    // _make_capacity; None is the capacity error, after which the transaction leaves no trace.
    method MakeCapacity(now: real) returns (kept: Option<Rows>)
      ensures kept.None? <==> NoRoom(rows, now, config)
      ensures kept.Some? ==>
                var live := rows - StaleRows(rows, now);
                EvictsOldest(live, now, kept.value, Overflow(live, config))
    {
      var live := rows - StaleRows(rows, now);
      var required := Excess(live, config);
      if required <= 0 {
        return Some(live);
      }
      var candidates := Evictable(live, now);
      if |candidates| < required {
        return None;
      }
      var left, remaining, removed := live, candidates, 0;
      while removed < required
        invariant 0 <= removed <= required
        invariant remaining <= candidates && left == live - (candidates - remaining)
        invariant |remaining| == |candidates| - removed && |left| == |live| - removed
        invariant forall s, t :: s in candidates && s !in remaining && t in remaining ==> Older(live, s, t)
      {
        var oldest := OldestOf(live, remaining);
        ShrinkByOne(left, oldest);
        remaining, left, removed := remaining - {oldest}, left - {oldest}, removed + 1;
        assert left == live - (candidates - remaining);
      }
      return Some(left);
    }

    // The insertion of _create_sync, once neither the start key nor the id is taken.
    method Insert(a: Aggregate, start: Option<StartKey>, now: real) returns (r: CreateResult)
      requires Consistent() && Valid(a) && a.session !in rows
      requires start.Some? ==> !KeyTaken(rows, start.value.key)
      modifies this
      ensures Consistent() && (r.CapacityFull? || r.Created?)
      ensures r.CapacityFull? <==> NoRoom(old(rows), now, config)
      ensures r.CapacityFull? ==> rows == old(rows)
      ensures r.Created? ==> InsertedInto(old(rows), rows, a, start, now, config) && rows[a.session] == r.record
      ensures r.Created? ==> Opened(rows, a, start, now, config)
    {
      hide AdaptiveModels.Valid, EvictsOldest, TableOk, StaleRows, InsertedInto, Opened;
      var kept := MakeCapacity(now);
      if kept.None? {
        return CapacityFull;
      }
      var row := NewRow(a, start, now, config);
      KeptRows(rows, now, kept.value, config);
      NewRowKeepsTable(rows, kept.value, a, start, now, config);
      InsertedRow(rows, kept.value, a, start, now, config);
      rows := kept.value[a.session := row];
      NewRowIsFree(rows, a, start, now, config);
      return Created(row);
    }

    // _create_sync
    method Create(a: Aggregate, start: Option<StartKey>, now: real) returns (r: CreateResult)
      requires Consistent() && Valid(a)
      modifies this
      ensures Consistent()
      ensures !r.Created? ==> rows == old(rows)
      ensures r.Existing? <==> start.Some? && Started(old(rows), start)
      ensures r.StartConflict? <==> start.Some? && KeyTaken(old(rows), start.value.key) && !Started(old(rows), start)
      ensures r.Existing? ==> exists s :: s in rows && r.record == rows[s] && rows[s].start == start
      ensures r.AlreadyExists? <==> !(start.Some? && KeyTaken(old(rows), start.value.key)) && a.session in old(rows)
      ensures r.CapacityFull? <==>
                !(start.Some? && KeyTaken(old(rows), start.value.key)) && a.session !in old(rows) && NoRoom(old(rows), now, config)
      ensures r.Created? ==> InsertedInto(old(rows), rows, a, start, now, config) && rows[a.session] == r.record
      ensures r.Created? ==> Opened(rows, a, start, now, config)
    {
      hide AdaptiveModels.Valid, InsertedInto, NoRoom, RowOk, Opened;
      if start.Some? && KeyTaken(rows, start.value.key) {
        var s :| s in rows && HasStartKey(rows[s], start.value.key);
        OnlyStart(rows, s, start);
        if rows[s].start.value.request != start.value.request {
          return StartConflict;
        }
        return Existing(rows[s]);
      }
      if a.session in rows {
        return AlreadyExists;
      }
      r := Insert(a, start, now);
    }

    // _claim_sync
    method Claim(s: SessionId, token: Token, now: real) returns (r: ClaimResult)
      requires Consistent()
      modifies this
      ensures Consistent() && rows == AfterClaim(old(rows), s, token, now, config)
      ensures r.Claimed? ==> Granted(old(rows), rows, s, token, now, config)
      ensures !r.Claimed? ==> rows == old(rows)
      ensures r.Missing? <==> s !in old(rows)
      ensures r.Claimed? ==> r.record == rows[s]
      ensures s in old(rows) ==>
                var row := old(rows)[s];
                var lives, active, held := row.expiresAt > now, row.aggregate.status.Active?, row.claim.Some? && row.claim.value.until > now;
                && (r.Claimed? <==> lives && active && !held)
                && (r.SessionExpired? <==> !lives)
                && (r.SessionDone? <==> lives && !active)
                && (r.InProgress? <==> lives && active && held)
    {
      hide TableOk, Granted;
      if s !in rows {
        return Missing;
      }
      var row := rows[s];
      if Expired(row, now) {
        return SessionExpired;
      }
      if Done(row) {
        return SessionDone;
      }
      if Busy(row, now) {
        return InProgress;
      }
      ClaimKeepsTable(rows, s, token, now, config);
      ClaimHolds(rows, s, token, now, config);
      row := ClaimedRow(row, token, now, config);
      rows := rows[s := row];
      return Claimed(row);
    }

    // The update shared by _checkpoint_sync and _complete_sync; None when the fence refused it.
    method Write(s: SessionId, token: Token, expected: int, a: Aggregate, completes: bool, now: real) returns (r: Option<Row>)
      requires Consistent() && Valid(a) && a.session == s
      modifies this
      ensures Consistent() && rows == AfterWrite(old(rows), s, token, expected, a, completes, now, config)
      ensures r.Some? <==> CanWrite(old(rows), s, token, expected, a, now)
      ensures r.Some? <==>
                && s in old(rows) && old(rows)[s].claim.Some? && old(rows)[s].claim.value.token == token
                && old(rows)[s].claim.value.until > now && old(rows)[s].expiresAt > now
                && old(rows)[s].identity == Identity(a.session, a.user, a.document, a.goal) && old(rows)[s].revision == expected
                && (old(rows)[s].aggregate.status.Completed? ==> a.status.Completed?)
      ensures r.Some? ==> r.value == rows[s]
      ensures r.Some? ==> Stored(old(rows), rows, s, token, expected, a, completes, now, config)
      ensures r.None? ==> rows == old(rows)
    {
      hide TableOk, AdaptiveModels.Valid, Stored;
      if !CanWrite(rows, s, token, expected, a, now) {
        return None;
      }
      WriteKeepsTable(rows, s, token, expected, a, completes, now, config);
      WriteHoldsOrFrees(rows, s, token, expected, a, completes, now, config);
      rows := rows[s := WrittenRow(rows[s], token, a, completes, now, config)];
      return Some(rows[s]);
    }

    // _release_sync
    method Release(s: SessionId, token: Token, now: real) returns (released: bool)
      requires Consistent()
      modifies this
      ensures Consistent() && rows == AfterRelease(old(rows), s, token, now)
      ensures released <==> s in old(rows) && old(rows)[s].claim.Some? && old(rows)[s].claim.value.token == token
      ensures released ==> GivenUp(old(rows), rows, s, now)
      ensures !released ==> rows == old(rows)
    {
      hide TableOk, GivenUp;
      released := CanRelease(rows, s, token);
      ReleaseKeepsTable(rows, s, token, now);
      if released {
        ReleaseFrees(rows, s, token, now);
        rows := rows[s := rows[s].(claim := None, updatedAt := now)];
      }
    }
  }
}
