// The instance cache and the requests that hold its instances, over every run.

module InstancePool {
  import opened Options
  import opened InstanceCache

  // `users` are the open uses, `acquired` the time each workspace was last acquired, `closed` the
  // instances finalized so far.
  datatype Pool = Pool(cache: Cache, users: map<User, Slot>, acquired: map<Workspace, nat>, clock: nat, closed: set<Instance>)

  datatype Step = Acquire(user: User, workspace: Workspace, built: Instance) | Release(user: User) | Forget(workspace: Workspace)

  function Users(p: Pool, w: Workspace): set<User> {
    set u | u in p.users && p.users[u].workspace == w
  }

  function Idle(active: map<Workspace, int>): set<Workspace> {
    set w | w in active && active[w] == 0
  }

  function Instances(slots: seq<Slot>): set<Instance> {
    set s | s in slots :: s.instance
  }

  // Building an instance yields an object not seen before.
  predicate Possible(p: Pool, step: Step) {
    match step
    case Acquire(u, _, built) => u !in p.users && built !in p.closed && built !in Instances(p.cache.slots)
    case Release(u) => u in p.users
    case Forget(_) => true
  }

  function After(p: Pool, step: Step, max: nat): Pool
    requires Possible(p, step)
  {
    match step
    case Acquire(u, w, built) =>
      var cache := Acquired(p.cache, w, built);
      var held := InstanceOf(p.cache.slots, w);
      Pool(cache, p.users[u := Slot(w, if held.Some? then held.value else built)], p.acquired[w := p.clock], p.clock + 1, p.closed)
    case Release(u) =>
      var cache := Released(p.cache, p.users[u].workspace, max);
      p.(cache := cache, users := p.users - {u}, closed := p.closed + (Instances(p.cache.slots) - Instances(cache.slots)))
    case Forget(w) =>
      var cache := Forgotten(p.cache, w);
      p.(cache := cache, closed := p.closed + (Instances(p.cache.slots) - Instances(cache.slots)))
  }

  // ---- the laws ----

  ghost predicate Sorted(slots: seq<Slot>, acquired: map<Workspace, nat>) {
    && (forall s :: s in slots ==> s.workspace in acquired)
    && forall i, j :: 0 <= i < j < |slots| ==> acquired[slots[i].workspace] < acquired[slots[j].workspace]
  }

  ghost predicate DistinctInstances(slots: seq<Slot>) {
    forall s, t :: s in slots && t in slots && s.instance == t.instance ==> s == t
  }

  ghost predicate Inv(p: Pool, max: nat) {
    && KeysAgree(p.cache)
    && (forall w :: w in p.cache.active ==> p.cache.active[w] == |Users(p, w)|)
    && (forall u :: u in p.users ==> p.users[u] in p.cache.slots)
    && (forall s :: s in p.cache.slots ==> s.instance !in p.closed)
    && DistinctInstances(p.cache.slots)
    && |Idle(p.cache.active)| <= max
    && Sorted(p.cache.slots, p.acquired)
    && (forall w :: w in p.acquired ==> p.acquired[w] < p.clock)
  }

  // ---- the eviction loop ----

  lemma WithoutStaysSorted(slots: seq<Slot>, w: Workspace, acquired: map<Workspace, nat>)
    requires Sorted(slots, acquired)
    ensures Sorted(Without(slots, w), acquired)
  {
    WithoutFacts(slots, w);
    forall i, j | 0 <= i < j < |Without(slots, w)| ensures acquired[Without(slots, w)[i].workspace] < acquired[Without(slots, w)[j].workspace] {
      WithoutKeepsOrder(slots, w, i, j);
    }
  }

  predicate IsIdle(c: Cache, s: Slot) {
    s in c.slots && s.workspace in c.active && c.active[s.workspace] == 0
  }

  // The first idle entry is the least recently acquired one.
  lemma FirstIdleIsOldest(c: Cache, acquired: map<Workspace, nat>, s: Slot)
    requires KeysAgree(c) && Sorted(c.slots, acquired) && IsIdle(c, s)
    ensures FirstIdle(c.slots, c.active).Some? && FirstIdle(c.slots, c.active).value in acquired
    ensures s.workspace == FirstIdle(c.slots, c.active).value || acquired[FirstIdle(c.slots, c.active).value] < acquired[s.workspace]
  {
    hide FirstIdle, KeysAgree;
    FirstIdleIsFirst(c.slots, c.active);
    var w := FirstIdle(c.slots, c.active).value;
    var i :| 0 <= i < |c.slots| && c.slots[i].workspace == w &&
             forall j :: 0 <= j < i ==> !(c.slots[j].workspace in c.active && c.active[c.slots[j].workspace] == 0);
    var k :| 0 <= k < |c.slots| && c.slots[k] == s;
    assert k >= i;
  }

  // What evicting keeps, how far it goes, and in which order it takes idle instances.
  ghost predicate EvictionMeans(c: Cache, after: Cache, max: nat, acquired: map<Workspace, nat>) {
    && KeysAgree(after)
    && Sorted(after.slots, acquired)
    && (forall s :: s in after.slots ==> s in c.slots)
    && (forall s :: s in c.slots && !IsIdle(c, s) ==> s in after.slots)
    && (forall w :: w in after.active ==> w in c.active && after.active[w] == c.active[w])
    && (|after.slots| <= max || forall s :: s in after.slots ==> !IsIdle(after, s))
    && (if |c.slots| <= max then after == c else |after.slots| >= max)
    && (forall s, t :: IsIdle(c, s) && IsIdle(c, t) && Precedes(acquired, s, t) && t !in after.slots ==> s !in after.slots)
  }

  predicate Precedes(acquired: map<Workspace, nat>, s: Slot, t: Slot) {
    s.workspace in acquired && t.workspace in acquired && acquired[s.workspace] < acquired[t.workspace]
  }

  // Main result: only idle instances are evicted, least recently acquired first, no more than needed, and
  // until the limit is met or everything left is in use.
  lemma {:induction false} EvictionTakesOldestIdle(c: Cache, max: nat, acquired: map<Workspace, nat>)
    requires KeysAgree(c) && Sorted(c.slots, acquired)
    ensures EvictionMeans(c, Evicted(c, max), max, acquired)
    decreases |c.slots|
  {
    FirstIdleIsFirst(c.slots, c.active);
    var idle := FirstIdle(c.slots, c.active);
    if |c.slots| > max && idle.Some? {
      var w := idle.value;
      var next := Dropped(c, w);
      WithoutFacts(c.slots, w);
      DropAgrees(c, w);
      WithoutStaysSorted(c.slots, w, acquired);
      DroppingOne(c.slots, w);
      EvictionTakesOldestIdle(next, max, acquired);
      EvictionStep(c, w, Evicted(next, max), max, acquired);
    }
  }

  lemma {:induction false} DroppingOne(slots: seq<Slot>, w: Workspace)
    requires forall i, j :: 0 <= i < j < |slots| ==> slots[i].workspace != slots[j].workspace
    ensures |Without(slots, w)| >= |slots| - 1
  {
    if slots != [] {
      if slots[0].workspace == w {
        assert !Has(slots[1..], w);
        NothingToDrop(slots[1..], w);
      } else {
        DroppingOne(slots[1..], w);
      }
    }
  }

  lemma EvictionStep(c: Cache, w: Workspace, after: Cache, max: nat, acquired: map<Workspace, nat>)
    requires KeysAgree(c) && Sorted(c.slots, acquired) && FirstIdle(c.slots, c.active) == Some(w) && |c.slots| > max
    requires |Without(c.slots, w)| == |c.slots| - 1
    requires EvictionMeans(Dropped(c, w), after, max, acquired)
    ensures EvictionMeans(c, after, max, acquired)
  {
    hide KeysAgree, Sorted;
    WithoutFacts(c.slots, w);
    FirstIdleIsFirst(c.slots, c.active);
    forall s, t | IsIdle(c, s) && IsIdle(c, t) && Precedes(acquired, s, t) && t !in after.slots ensures s !in after.slots {
      FirstIdleIsOldest(c, acquired, s);
      FirstIdleIsOldest(c, acquired, t);
      if s.workspace != w {
        assert IsIdle(Dropped(c, w), s);
        assert IsIdle(Dropped(c, w), t);
      }
    }
  }

  // ---- counting ----

  lemma {:induction false} NamesCount(slots: seq<Slot>)
    requires forall i, j :: 0 <= i < j < |slots| ==> slots[i].workspace != slots[j].workspace
    ensures |set s | s in slots :: s.workspace| == |slots|
  {
    var names := set s | s in slots :: s.workspace;
    if slots == [] {
      assert names == {};
    } else {
      NamesCount(slots[1..]);
      var rest := set s | s in slots[1..] :: s.workspace;
      assert names == {slots[0].workspace} + rest;
    }
  }

  lemma Subset<T>(x: set<T>, y: set<T>)
    requires x <= y
    ensures |x| <= |y|
  {
    assert y == x + (y - x);
  }

  lemma IdleAfterEviction(c: Cache, max: nat)
    requires KeysAgree(c) && (|c.slots| <= max || forall s :: s in c.slots ==> !IsIdle(c, s))
    ensures |Idle(c.active)| <= max
  {
    var names := set s | s in c.slots :: s.workspace;
    if |c.slots| <= max {
      NamesCount(c.slots);
      Subset(Idle(c.active), names);
    } else {
      forall w | w in c.active ensures c.active[w] != 0 {
        assert Has(c.slots, w);
        var s :| s in c.slots && s.workspace == w;
        assert !IsIdle(c, s);
      }
      assert Idle(c.active) == {};
    }
  }

  // ---- one step ----

  lemma AcquireUsers(p: Pool, step: Step, max: nat, w: Workspace)
    requires Possible(p, step) && step.Acquire?
    ensures |Users(After(p, step, max), w)| == |Users(p, w)| + if w == step.workspace then 1 else 0
  {
    hide Acquired, InstanceOf;
    var after := After(p, step, max);
    assert Users(after, w) == if w == step.workspace then Users(p, w) + {step.user} else Users(p, w);
  }

  lemma ReleaseUsers(p: Pool, step: Step, max: nat, w: Workspace)
    requires Possible(p, step) && step.Release?
    ensures |Users(After(p, step, max), w)| == |Users(p, w)| - if w == p.users[step.user].workspace then 1 else 0
  {
    var after := After(p, step, max);
    assert Users(after, w) == if w == p.users[step.user].workspace then Users(p, w) - {step.user} else Users(p, w);
  }

  // The slots after an acquisition: those of the other workspaces, then the one acquired.
  lemma AcquiredShape(c: Cache, w: Workspace, built: Instance)
    ensures var after := Acquired(c, w, built);
            && after.slots == Without(c.slots, w) + [Slot(w, if InstanceOf(c.slots, w).Some? then InstanceOf(c.slots, w).value else built)]
            && (forall s :: s in after.slots <==> (s in c.slots && s.workspace != w) || s == after.slots[|after.slots| - 1])
  {
    WithoutFacts(c.slots, w);
    if InstanceOf(c.slots, w).None? {
      NothingToDrop(c.slots, w);
    }
  }

  lemma AppendSorted(slots: seq<Slot>, acquired: map<Workspace, nat>, clock: nat, last: Slot)
    requires Sorted(slots, acquired) && (forall w :: w in acquired ==> acquired[w] < clock)
    requires forall s :: s in slots ==> s.workspace != last.workspace
    ensures Sorted(slots + [last], acquired[last.workspace := clock])
  {
    assert forall i :: 0 <= i < |slots| ==> slots[i] in slots;
  }

  lemma AcquireSorted(p: Pool, step: Step, max: nat)
    requires Inv(p, max) && Possible(p, step) && step.Acquire?
    ensures Sorted(After(p, step, max).cache.slots, After(p, step, max).acquired)
  {
    hide Sorted, DistinctInstances, KeysAgree;
    var w := step.workspace;
    AcquiredShape(p.cache, w, step.built);
    WithoutFacts(p.cache.slots, w);
    WithoutStaysSorted(p.cache.slots, w, p.acquired);
    var after := After(p, step, max);
    AppendSorted(Without(p.cache.slots, w), p.acquired, p.clock, after.cache.slots[|after.cache.slots| - 1]);
  }

  lemma AcquireInstances(p: Pool, step: Step, max: nat)
    requires Inv(p, max) && Possible(p, step) && step.Acquire?
    ensures DistinctInstances(After(p, step, max).cache.slots)
    ensures forall s :: s in After(p, step, max).cache.slots ==> s.instance !in p.closed
  {
    hide Sorted, KeysAgree, Acquired;
    AcquiredShape(p.cache, step.workspace, step.built);
    WithoutFacts(p.cache.slots, step.workspace);
    assert forall s :: s in p.cache.slots ==> s.instance in Instances(p.cache.slots);
  }

  lemma AcquireHeld(p: Pool, step: Step, max: nat)
    requires Inv(p, max) && Possible(p, step) && step.Acquire?
    ensures var after := After(p, step, max); forall u :: u in after.users ==> after.users[u] in after.cache.slots
  {
    hide Sorted, DistinctInstances, KeysAgree, Acquired;
    var after, w := After(p, step, max), step.workspace;
    AcquiredShape(p.cache, w, step.built);
    WithoutFacts(p.cache.slots, w);
    forall u | u in after.users ensures after.users[u] in after.cache.slots {
      if u != step.user && p.users[u].workspace == w {
        assert Has(p.cache.slots, w);
        SameSlot(p.cache, p.users[u], Slot(w, InstanceOf(p.cache.slots, w).value));
      }
    }
  }

  lemma SameSlot(c: Cache, s: Slot, t: Slot)
    requires KeysAgree(c) && s in c.slots && t in c.slots && s.workspace == t.workspace
    ensures s == t
  {
  }

  lemma AcquireKeepsInv(p: Pool, step: Step, max: nat)
    requires Inv(p, max) && Possible(p, step) && step.Acquire?
    ensures Inv(After(p, step, max), max)
  {
    hide Sorted, DistinctInstances, KeysAgree;
    var after, w := After(p, step, max), step.workspace;
    AcquireAgrees(p.cache, w, step.built);
    AcquireSorted(p, step, max);
    AcquireInstances(p, step, max);
    AcquireHeld(p, step, max);
    HasKey(p.cache, w);
    forall v | v in after.cache.active ensures after.cache.active[v] == |Users(after, v)| {
      AcquireUsers(p, step, max, v);
      if v == w && w !in p.cache.active {
        NoUsers(p, w);
      }
    }
    Subset(Idle(after.cache.active), Idle(p.cache.active));
  }

  lemma HasKey(c: Cache, w: Workspace)
    requires KeysAgree(c)
    ensures InstanceOf(c.slots, w).Some? <==> w in c.active
  {
    WithoutFacts(c.slots, w);
  }

  lemma NoUsers(p: Pool, w: Workspace)
    requires KeysAgree(p.cache) && (forall u :: u in p.users ==> p.users[u] in p.cache.slots) && w !in p.cache.active
    ensures Users(p, w) == {}
  {
  }

  // What releasing and forgetting share: fewer slots, and every open use still has its own.
  lemma ShrinkKeepsInv(p: Pool, after: Pool, max: nat)
    requires Inv(p, max) && KeysAgree(after.cache) && Sorted(after.cache.slots, p.acquired)
    requires forall s :: s in after.cache.slots ==> s in p.cache.slots
    requires forall u :: u in after.users ==> after.users[u] in after.cache.slots
    requires after.closed == p.closed + (Instances(p.cache.slots) - Instances(after.cache.slots))
    requires after.acquired == p.acquired && after.clock == p.clock
    requires forall w :: w in after.cache.active ==> after.cache.active[w] == |Users(after, w)|
    requires |Idle(after.cache.active)| <= max
    ensures Inv(after, max)
  {
    hide KeysAgree, Sorted;
    forall s | s in after.cache.slots ensures s.instance !in after.closed {
      assert s in p.cache.slots && s.instance in Instances(after.cache.slots);
    }
  }

  lemma ReleaseKeepsInv(p: Pool, step: Step, max: nat)
    requires Inv(p, max) && Possible(p, step) && step.Release?
    ensures Inv(After(p, step, max), max)
  {
    hide DistinctInstances, Sorted, Evicted, KeysAgree, Users;
    var after, w := After(p, step, max), p.users[step.user].workspace;
    HeldIsCounted(p, p.users[step.user]);
    var c := p.cache.(active := p.cache.active[w := Count(p.cache, w) - 1]);
    SameKeys(p.cache, c);
    EvictionTakesOldestIdle(c, max, p.acquired);
    forall v ensures |Users(after, v)| == |Users(p, v)| - if v == w then 1 else 0 {
      ReleaseUsers(p, step, max, v);
    }
    forall u | u in after.users ensures after.users[u] in after.cache.slots {
      HeldIsCounted(p, p.users[u]);
      InUse(after, u);
      assert !IsIdle(c, p.users[u]);
    }
    IdleAfterEviction(after.cache, max);
    ShrinkKeepsInv(p, after, max);
  }

  lemma HeldIsCounted(p: Pool, s: Slot)
    requires KeysAgree(p.cache) && s in p.cache.slots
    ensures s.workspace in p.cache.active
  {
    assert Has(p.cache.slots, s.workspace);
  }

  lemma SameKeys(c: Cache, d: Cache)
    requires KeysAgree(c) && d.slots == c.slots && d.active.Keys == c.active.Keys
    ensures KeysAgree(d)
  {
  }

  lemma InUse(p: Pool, u: User)
    requires u in p.users
    ensures |Users(p, p.users[u].workspace)| > 0
  {
    assert u in Users(p, p.users[u].workspace);
  }

  lemma ForgetKeepsInv(p: Pool, step: Step, max: nat)
    requires Inv(p, max) && Possible(p, step) && step.Forget?
    ensures Inv(After(p, step, max), max)
  {
    hide DistinctInstances, Sorted;
    var after, w := After(p, step, max), step.workspace;
    forall v ensures Users(after, v) == Users(p, v) {
    }
    if Count(p.cache, w) == 0 {
      WithoutFacts(p.cache.slots, w);
      DropAgrees(p.cache, w);
      WithoutStaysSorted(p.cache.slots, w, p.acquired);
      forall u | u in after.users ensures after.users[u] in after.cache.slots {
        assert u in Users(p, p.users[u].workspace);
      }
      Subset(Idle(after.cache.active), Idle(p.cache.active));
    }
    ShrinkKeepsInv(p, after, max);
  }

  lemma StepKeepsInv(p: Pool, step: Step, max: nat)
    requires Inv(p, max) && Possible(p, step)
    ensures Inv(After(p, step, max), max)
  {
    hide Inv, After, Possible;
    match step {
      case Acquire(_, _, _) => AcquireKeepsInv(p, step, max);
      case Release(_) => ReleaseKeepsInv(p, step, max);
      case Forget(_) => ForgetKeepsInv(p, step, max);
    }
  }

  // ---- runs ----

  ghost predicate Run(states: seq<Pool>, steps: seq<Step>, max: nat) {
    && |states| == |steps| + 1
    && states[0] == Pool(Cache([], map[]), map[], map[], 0, {})
    && forall i :: 0 <= i < |steps| ==> Follows(states[i], steps[i], states[i + 1], max)
  }

  ghost predicate Follows(p: Pool, step: Step, next: Pool, max: nat) {
    Possible(p, step) && next == After(p, step, max)
  }

  lemma EmptyInv(max: nat)
    ensures Inv(Pool(Cache([], map[]), map[], map[], 0, {}), max)
  {
    assert Idle(map[]) == {};
  }

  lemma {:induction false} ReachableInv(states: seq<Pool>, steps: seq<Step>, max: nat, i: nat)
    requires Run(states, steps, max) && i < |states|
    ensures Inv(states[i], max)
  {
    hide Inv, Possible, After;
    if i == 0 {
      EmptyInv(max);
    } else {
      ReachableInv(states, steps, max, i - 1);
      assert Follows(states[i - 1], steps[i - 1], states[i], max);
      StepKeepsInv(states[i - 1], steps[i - 1], max);
    }
  }

  // Main result: in every reachable state the counters are the open uses, both dictionaries have the same
  // keys, at most `max` instances are idle, entries stand in the order of their last acquisition, and
  // every open use has its own instance, cached and not finalized.
  lemma CountersAreOpenUses(states: seq<Pool>, steps: seq<Step>, max: nat, i: nat)
    requires Run(states, steps, max) && i < |states|
    ensures var p := states[i];
            && (forall w :: w in p.cache.active <==> Has(p.cache.slots, w))
            && (forall w :: w in p.cache.active ==> p.cache.active[w] == |Users(p, w)|)
            && |Idle(p.cache.active)| <= max
            && (forall u :: u in p.users ==> p.users[u] in p.cache.slots && p.users[u].instance !in p.closed)
            && Sorted(p.cache.slots, p.acquired)
  {
    ReachableInv(states, steps, max, i);
  }

  // Main result: from its acquisition until it is released a use keeps the very instance it was given,
  // whatever is acquired, evicted or forgotten meanwhile.
  lemma {:induction false} HeldInstancesAreNeverTouched(states: seq<Pool>, steps: seq<Step>, max: nat, i: nat, j: nat, u: User)
    requires Run(states, steps, max) && i <= j < |states| && u in states[i].users
    requires forall k :: i <= k < j ==> steps[k] != Release(u)
    ensures u in states[j].users && states[j].users[u] == states[i].users[u]
    ensures states[j].users[u] in states[j].cache.slots && states[j].users[u].instance !in states[j].closed
    decreases j - i
  {
    if i < j {
      HeldInstancesAreNeverTouched(states, steps, max, i, j - 1, u);
      assert Follows(states[j - 1], steps[j - 1], states[j], max);
    }
    CountersAreOpenUses(states, steps, max, j);
  }

  // A workspace nobody uses is forgotten at once: its entry and counter go and its instance is finalized. One in
  // use is left alone.
  lemma ForgettingCloses(states: seq<Pool>, steps: seq<Step>, max: nat, i: nat, w: Workspace)
    requires Run(states, steps, max) && i < |steps| && steps[i] == Forget(w)
    ensures var p, after := states[i], states[i + 1];
            if exists u :: u in p.users && p.users[u].workspace == w then after == p
            else
              && !Has(after.cache.slots, w) && w !in after.cache.active && after.users == p.users
              && (forall s :: s in p.cache.slots && s.workspace == w ==> s.instance in after.closed)
              && (forall s :: s in p.cache.slots && s.workspace != w ==> s in after.cache.slots)
  {
    var p, after := states[i], states[i + 1];
    assert Follows(p, steps[i], after, max);
    ReachableInv(states, steps, max, i);
    WithoutFacts(p.cache.slots, w);
    if u :| u in p.users && p.users[u].workspace == w {
      InUse(p, u);
      HeldIsCounted(p, p.users[u]);
      assert Instances(p.cache.slots) - Instances(p.cache.slots) == {};
    } else {
      assert Users(p, w) == {};
      assert Count(p.cache, w) == 0;
      forall s | s in p.cache.slots && s.workspace == w ensures s.instance in after.closed {
        assert s.instance in Instances(p.cache.slots);
      }
    }
  }
}
