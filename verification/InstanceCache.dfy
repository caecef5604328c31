// The engine's cache of SDK instances: reference counts keep an instance alive while a request
// uses it, and idle instances are evicted, least recently acquired first.

module InstanceCache {
  import opened Options

  type Workspace = string
  type Instance = nat
  type User = nat

  // One entry of the ordered dictionary.
  datatype Slot = Slot(workspace: Workspace, instance: Instance)

  // `slots` in dictionary order, `active` the counters.
  datatype Cache = Cache(slots: seq<Slot>, active: map<Workspace, int>)

  // ---- what each operation does ----

  predicate Has(slots: seq<Slot>, w: Workspace) {
    exists s :: s in slots && s.workspace == w
  }

  function Without(slots: seq<Slot>, w: Workspace): seq<Slot> {
    if slots == [] then []
    else (if slots[0].workspace == w then [] else [slots[0]]) + Without(slots[1..], w)
  }

  function InstanceOf(slots: seq<Slot>, w: Workspace): Option<Instance> {
    if slots == [] then None
    else if slots[0].workspace == w then Some(slots[0].instance)
    else InstanceOf(slots[1..], w)
  }

  function Dropped(c: Cache, w: Workspace): Cache {
    Cache(Without(c.slots, w), c.active - {w})
  }

  // A hit moves the entry to the end; a miss appends one for the instance just built.
  function Acquired(c: Cache, w: Workspace, built: Instance): Cache {
    match InstanceOf(c.slots, w)
    case Some(held) => Cache(Without(c.slots, w) + [Slot(w, held)], c.active[w := Count(c, w) + 1])
    case None => Cache(c.slots + [Slot(w, built)], c.active[w := 1])
  }

  function Count(c: Cache, w: Workspace): int {
    if w in c.active then c.active[w] else 0
  }

  function FirstIdle(slots: seq<Slot>, active: map<Workspace, int>): Option<Workspace> {
    if slots == [] then None
    else if slots[0].workspace in active && active[slots[0].workspace] == 0 then Some(slots[0].workspace)
    else FirstIdle(slots[1..], active)
  }

  lemma {:induction false} WithoutFacts(slots: seq<Slot>, w: Workspace)
    ensures forall s :: s in Without(slots, w) <==> s in slots && s.workspace != w
    ensures |Without(slots, w)| <= |slots| && (Has(slots, w) ==> |Without(slots, w)| < |slots|)
    ensures InstanceOf(slots, w).Some? <==> Has(slots, w)
    ensures InstanceOf(slots, w).Some? ==> Slot(w, InstanceOf(slots, w).value) in slots
  {
    if slots != [] {
      WithoutFacts(slots[1..], w);
      assert slots == [slots[0]] + slots[1..];
    }
  }

  lemma {:induction false} FirstIdleIsFirst(slots: seq<Slot>, active: map<Workspace, int>)
    ensures var first := FirstIdle(slots, active);
            match first
            case None => forall s :: s in slots ==> !(s.workspace in active && active[s.workspace] == 0)
            case Some(w) =>
              && w in active && active[w] == 0 && Has(slots, w)
              && exists i :: 0 <= i < |slots| && slots[i].workspace == w &&
                   forall j :: 0 <= j < i ==> !(slots[j].workspace in active && active[slots[j].workspace] == 0)
  {
    if slots != [] {
      FirstIdleIsFirst(slots[1..], active);
      if slots[0].workspace in active && active[slots[0].workspace] == 0 {
        assert slots[0].workspace == FirstIdle(slots, active).value;
      } else if FirstIdle(slots, active).Some? {
        var w := FirstIdle(slots, active).value;
        var i :| 0 <= i < |slots[1..]| && slots[1..][i].workspace == w &&
                 forall j :: 0 <= j < i ==> !(slots[1..][j].workspace in active && active[slots[1..][j].workspace] == 0);
        assert slots[i + 1].workspace == w;
        assert forall j :: 1 <= j < i + 1 ==> slots[j] == slots[1..][j - 1];
      }
    }
  }

  // The eviction loop.
  function Evicted(c: Cache, max: nat): Cache
    decreases |c.slots|
  {
    var idle := FirstIdle(c.slots, c.active);
    if |c.slots| <= max || idle.None? then c
    else
      FirstIdleIsFirst(c.slots, c.active);
      WithoutFacts(c.slots, idle.value);
      Evicted(Dropped(c, idle.value), max)
  }

  // The instances the eviction loop takes out, in that order.
  function Closing(c: Cache, max: nat): seq<Instance>
    decreases |c.slots|
  {
    var idle := FirstIdle(c.slots, c.active);
    if |c.slots| <= max || idle.None? then []
    else
      FirstIdleIsFirst(c.slots, c.active);
      WithoutFacts(c.slots, idle.value);
      [InstanceOf(c.slots, idle.value).value] + Closing(Dropped(c, idle.value), max)
  }

  lemma EvictingOne(c: Cache, max: nat)
    ensures var idle := FirstIdle(c.slots, c.active);
            if |c.slots| <= max || idle.None? then Evicted(c, max) == c && Closing(c, max) == []
            else
              && InstanceOf(c.slots, idle.value).Some?
              && Evicted(c, max) == Evicted(Dropped(c, idle.value), max)
              && Closing(c, max) == [InstanceOf(c.slots, idle.value).value] + Closing(Dropped(c, idle.value), max)
  {
    var idle := FirstIdle(c.slots, c.active);
    if idle.Some? {
      FirstIdleIsFirst(c.slots, c.active);
      WithoutFacts(c.slots, idle.value);
    }
  }

  function Released(c: Cache, w: Workspace, max: nat): Cache {
    Evicted(c.(active := c.active[w := Count(c, w) - 1]), max)
  }

  function Forgotten(c: Cache, w: Workspace): Cache {
    if Count(c, w) != 0 then c else Dropped(c, w)
  }

  lemma PopStep(slots: seq<Slot>, i: nat, w: Workspace)
    requires i < |slots|
    ensures Without(slots[i..], w) == (if slots[i].workspace == w then [] else [slots[i]]) + Without(slots[i + 1..], w)
    ensures InstanceOf(slots[i..], w) == if slots[i].workspace == w then Some(slots[i].instance) else InstanceOf(slots[i + 1..], w)
  {
    assert slots[i..][1..] == slots[i + 1..];
  }

  lemma NothingLeft(slots: seq<Slot>, w: Workspace)
    ensures Without(slots[|slots|..], w) == [] && InstanceOf(slots[|slots|..], w).None?
  {
  }

  // The eviction loop finalizes exactly the instances it takes out.
  lemma {:induction false} ClosingMeaning(c: Cache, max: nat)
    requires KeysAgree(c)
    ensures forall s :: s in Evicted(c, max).slots ==> s in c.slots
    ensures forall i :: i in Closing(c, max) <==> exists s :: s in c.slots && s !in Evicted(c, max).slots && s.instance == i
    decreases |c.slots|
  {
    hide Evicted, Closing, FirstIdle, KeysAgree;
    EvictingOne(c, max);
    var idle := FirstIdle(c.slots, c.active);
    if |c.slots| > max && idle.Some? {
      var w := idle.value;
      var next := Dropped(c, w);
      FirstIdleIsFirst(c.slots, c.active);
      WithoutFacts(c.slots, w);
      DropAgrees(c, w);
      ClosingMeaning(next, max);
      var first := Slot(w, InstanceOf(c.slots, w).value);
      assert forall s :: s in c.slots && s.workspace == w ==> s == first by {
        OnlyOne(c, w, first);
      }
      assert forall s :: s in c.slots <==> s in next.slots || s == first;
      assert first !in Evicted(next, max).slots;
    }
  }

  lemma OnlyOne(c: Cache, w: Workspace, first: Slot)
    requires KeysAgree(c) && first in c.slots && first.workspace == w
    ensures forall s :: s in c.slots && s.workspace == w ==> s == first
  {
    forall s | s in c.slots && s.workspace == w ensures s == first {
      var i :| 0 <= i < |c.slots| && c.slots[i] == s;
      var j :| 0 <= j < |c.slots| && c.slots[j] == first;
      assert !(i < j) && !(j < i);
    }
  }

  // Only the entry and the counter of this workspace are gone.
  predicate GoneFrom(before: Cache, after: Cache, w: Workspace) {
    && (forall s :: s in after.slots ==> s in before.slots && s.workspace != w)
    && (forall s :: s in before.slots && s.workspace != w ==> s in after.slots)
    && after.active == before.active - {w}
  }

  // The entry comes last with its counter one higher, the others stay as they are and in their order.
  ghost predicate Touched(before: Cache, after: Cache, w: Workspace, instance: Instance) {
    && after.slots != [] && after.slots[|after.slots| - 1] == Slot(w, instance)
    && (forall s :: s in after.slots && s.workspace != w ==> s in before.slots)
    && (forall s :: s in before.slots && s.workspace != w ==> s in after.slots)
    && (forall i, j :: 0 <= i < j < |after.slots| - 1 ==> InOrder(before.slots, after.slots[i], after.slots[j]))
    && w in after.active && after.active - {w} == before.active - {w}
    && after.active[w] == (if w in before.active then before.active[w] + 1 else 1)
  }

  lemma AcquiringTouches(c: Cache, w: Workspace, built: Instance)
    requires KeysAgree(c)
    ensures var held := InstanceOf(c.slots, w);
            Touched(c, Acquired(c, w, built), w, if held.Some? then held.value else built)
  {
    hide InOrder, Without, InstanceOf, Has;
    var held, kept := InstanceOf(c.slots, w), Without(c.slots, w);
    WithoutFacts(c.slots, w);
    if held.None? {
      NothingToDrop(c.slots, w);
    }
    MovesToEnd(c.slots, w, Slot(w, if held.Some? then held.value else built));
  }

  lemma MovesToEnd(slots: seq<Slot>, w: Workspace, last: Slot)
    requires last.workspace == w
    ensures var after := Without(slots, w) + [last];
            && (forall s :: s in after && s.workspace != w <==> s in slots && s.workspace != w)
            && (forall i, j :: 0 <= i < j < |after| - 1 ==> InOrder(slots, after[i], after[j]))
  {
    hide InOrder, Without;
    var kept := Without(slots, w);
    WithoutFacts(slots, w);
    forall i, j | 0 <= i < j < |kept| ensures InOrder(slots, kept[i], kept[j]) {
      WithoutKeepsOrder(slots, w, i, j);
    }
  }

  // ---- the cache in place ----

  class EngineCache {
    var slots: seq<Slot>
    var active: map<Workspace, int>
    const maxCached: nat

    constructor (max: nat)
      requires max >= 1
      ensures Contents() == Cache([], map[]) && maxCached == max
    {
      slots, active, maxCached := [], map[], max;
    }

    function Contents(): Cache
      reads this
    {
      Cache(slots, active)
    }

    // The keys of the two dictionaries are the same, each once.
    ghost predicate Valid()
      reads this
    {
      KeysAgree(Contents())
    }

    // Remove one entry from the ordered dictionary.
    method Pop(w: Workspace) returns (popped: Option<Instance>)
      modifies this`slots
      ensures slots == Without(old(slots), w) && popped == InstanceOf(old(slots), w)
    {
      hide Without, InstanceOf;
      popped := None;
      var kept: seq<Slot> := [];
      assert slots[0..] == slots;
      for i := 0 to |slots|
        invariant slots == old(slots)
        invariant kept + Without(slots[i..], w) == Without(slots, w)
        invariant (if popped.Some? then popped else InstanceOf(slots[i..], w)) == InstanceOf(slots, w)
      {
        PopStep(slots, i, w);
        if slots[i].workspace == w {
          if popped.None? {
            popped := Some(slots[i].instance);
          }
        } else {
          kept := kept + [slots[i]];
        }
      }
      NothingLeft(slots, w);
      slots := kept;
    }

    // _acquire_rag; `built` is the instance made on a miss.
    method Acquire(w: Workspace, built: Instance) returns (instance: Instance)
      requires Valid()
      modifies this
      ensures Contents() == Acquired(old(Contents()), w, built) && Valid()
      ensures instance == (match InstanceOf(old(slots), w) case Some(held) => held case None => built)
      ensures Touched(old(Contents()), Contents(), w, instance)
      ensures if w in old(active) then Slot(w, instance) in old(slots) else instance == built
    {
      hide Touched, Without, InstanceOf;
      AcquiringTouches(Contents(), w, built);
      WithoutFacts(slots, w);
      AcquireAgrees(Contents(), w, built);
      var held := Pop(w);
      if held.Some? {
        slots := slots + [Slot(w, held.value)];
        active := active[w := active[w] + 1];
        return held.value;
      }
      NothingToDrop(old(slots), w);
      slots := slots + [Slot(w, built)];
      active := active[w := 1];
      return built;
    }

    method Idle() returns (idle: Option<Workspace>)
      ensures idle == FirstIdle(slots, active)
    {
      for i := 0 to |slots|
        invariant FirstIdle(slots, active) == FirstIdle(slots[i..], active)
      {
        assert slots[i..][1..] == slots[i + 1..];
        if slots[i].workspace in active && active[slots[i].workspace] == 0 {
          return Some(slots[i].workspace);
        }
      }
      assert slots[|slots|..] == [];
      return None;
    }

    // The end of a use: count down, then evict while there are too many instances.
    method Release(w: Workspace) returns (evicted: seq<Instance>)
      requires Valid() && w in active
      modifies this
      ensures Contents() == Released(old(Contents()), w, maxCached)
      ensures evicted == Closing(old(Contents()).(active := old(active)[w := old(active)[w] - 1]), maxCached)
      ensures forall s :: s in slots ==> s in old(slots)
      ensures forall i :: i in evicted <==> exists s :: s in old(slots) && s !in slots && s.instance == i
    {
      hide Evicted, Closing;
      active := active[w := active[w] - 1];
      evicted := [];
      ghost var c := Contents();
      assert KeysAgree(c);
      ClosingMeaning(c, maxCached);
      while |slots| > maxCached
        invariant Evicted(Contents(), maxCached) == Released(old(Contents()), w, maxCached)
        invariant evicted + Closing(Contents(), maxCached) == Closing(c, maxCached)
        decreases |slots|
      {
        var idle := Idle();
        FirstIdleIsFirst(slots, active);
        EvictingOne(Contents(), maxCached);
        if idle.None? {
          break;
        }
        WithoutFacts(slots, idle.value);
        var popped := Pop(idle.value);
        active := active - {idle.value};
        evicted := evicted + [popped.value];
      }
      EvictingOne(Contents(), maxCached);
    }

    // forget: refused while a request holds the instance.
    method Forget(w: Workspace) returns (done: bool)
      modifies this
      ensures done <==> Count(old(Contents()), w) == 0
      ensures Contents() == Forgotten(old(Contents()), w)
      ensures if done then GoneFrom(old(Contents()), Contents(), w) else Contents() == old(Contents())
    {
      WithoutFacts(slots, w);
      if w in active && active[w] != 0 {
        return false;
      }
      var _ := Pop(w);
      active := active - {w};
      return true;
    }
  }

  ghost predicate KeysAgree(c: Cache) {
    && (forall w :: w in c.active <==> Has(c.slots, w))
    && forall i, j :: 0 <= i < j < |c.slots| ==> c.slots[i].workspace != c.slots[j].workspace
  }

  lemma {:induction false} NothingToDrop(slots: seq<Slot>, w: Workspace)
    requires !Has(slots, w)
    ensures Without(slots, w) == slots
  {
    if slots != [] {
      assert slots[0] in slots;
      assert forall s :: s in slots[1..] ==> s in slots;
      NothingToDrop(slots[1..], w);
    }
  }

  ghost predicate InOrder(slots: seq<Slot>, s: Slot, t: Slot) {
    exists x, y :: 0 <= x < y < |slots| && slots[x] == s && slots[y] == t
  }

  lemma InOrderCons(head: Slot, tail: seq<Slot>, s: Slot, t: Slot)
    requires InOrder(tail, s, t) || (s == head && t in tail)
    ensures InOrder([head] + tail, s, t)
  {
    var slots := [head] + tail;
    if InOrder(tail, s, t) {
      var x, y :| 0 <= x < y < |tail| && tail[x] == s && tail[y] == t;
      assert slots[x + 1] == s && slots[y + 1] == t;
    } else {
      var y :| 0 <= y < |tail| && tail[y] == t;
      assert slots[0] == s && slots[y + 1] == t;
    }
  }

  // Removing an entry keeps the order of the others.
  lemma {:induction false} WithoutKeepsOrder(slots: seq<Slot>, w: Workspace, i: nat, j: nat)
    requires i < j < |Without(slots, w)|
    ensures InOrder(slots, Without(slots, w)[i], Without(slots, w)[j])
  {
    hide InOrder;
    var head, tail := slots[0], slots[1..];
    assert slots == [head] + tail;
    WithoutFacts(tail, w);
    if head.workspace == w {
      WithoutKeepsOrder(tail, w, i, j);
    } else if i > 0 {
      WithoutKeepsOrder(tail, w, i - 1, j - 1);
    }
    InOrderCons(head, tail, Without(slots, w)[i], Without(slots, w)[j]);
  }

  lemma WithoutStaysDistinct(slots: seq<Slot>, w: Workspace)
    requires forall i, j :: 0 <= i < j < |slots| ==> slots[i].workspace != slots[j].workspace
    ensures forall i, j :: 0 <= i < j < |Without(slots, w)| ==> Without(slots, w)[i].workspace != Without(slots, w)[j].workspace
  {
    forall i, j | 0 <= i < j < |Without(slots, w)| ensures Without(slots, w)[i].workspace != Without(slots, w)[j].workspace {
      WithoutKeepsOrder(slots, w, i, j);
    }
  }

  lemma DropAgrees(c: Cache, w: Workspace)
    requires KeysAgree(c)
    ensures KeysAgree(Dropped(c, w))
  {
    WithoutFacts(c.slots, w);
    WithoutStaysDistinct(c.slots, w);
    forall v ensures v in Dropped(c, w).active <==> Has(Dropped(c, w).slots, v) {
      if v in c.active && v != w {
        var s :| s in c.slots && s.workspace == v;
        assert s in Without(c.slots, w);
      }
    }
  }

  lemma AcquireAgrees(c: Cache, w: Workspace, built: Instance)
    requires KeysAgree(c)
    ensures KeysAgree(Acquired(c, w, built))
  {
    WithoutFacts(c.slots, w);
    WithoutStaysDistinct(c.slots, w);
    var after := Acquired(c, w, built);
    var last := after.slots[|after.slots| - 1];
    assert last in after.slots && last.workspace == w;
    forall v ensures v in after.active <==> Has(after.slots, v) {
      if v in c.active && v != w {
        var s :| s in c.slots && s.workspace == v;
        assert s in after.slots;
      }
    }
  }
}
