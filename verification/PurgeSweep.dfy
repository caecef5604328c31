// Removing the files of deleted documents: a sweep in keyset pages whose cursor carries on from
// pass to pass, so that files that keep failing do not starve the others.

module PurgeSweep {
  import opened Options

  type VersionId = nat
  type DocId = nat

  const PAGE: nat := 100

  // Pages per pass.
  const MAX_PAGES: nat := 10

  // A stored version; `recorded` while its file's path is kept.
  datatype Row = Row(document: DocId, recorded: bool)

  // `log` are the unlinks the sweep attempted since the cursor was last reset.
  datatype Sweep = Sweep(rows: map<VersionId, Row>, deleted: set<DocId>, cursor: Option<VersionId>, log: seq<VersionId>)

  // ---- pages ----

  predicate Standing(rows: map<VersionId, Row>, deleted: set<DocId>, v: VersionId) {
    v in rows && rows[v].recorded && rows[v].document in deleted
  }

  predicate Beyond(cursor: Option<VersionId>, v: VersionId) {
    cursor.None? || v > cursor.value
  }

  function Candidates(rows: map<VersionId, Row>, deleted: set<DocId>, cursor: Option<VersionId>): set<VersionId> {
    set v | v in rows && Standing(rows, deleted, v) && Beyond(cursor, v)
  }

  predicate Ascending(s: seq<VersionId>) {
    forall i, j :: 0 <= i < j < |s| ==> s[i] < s[j]
  }

  predicate IsLeast(s: set<VersionId>, v: VersionId) {
    v in s && forall x :: x in s ==> v <= x
  }

  lemma LeastExists(s: set<VersionId>)
    requires s != {}
    ensures exists v :: IsLeast(s, v)
  {
    var v :| v in s;
    if s == {v} {
      assert IsLeast(s, v);
    } else {
      LeastExists(s - {v});
      var w :| IsLeast(s - {v}, w);
      var least := if v < w then v else w;
      forall x | x in s ensures least <= x {
        if x != v {
          assert x in s - {v};
        }
      }
      assert IsLeast(s, least);
    }
  }

  function Least(s: set<VersionId>): (v: VersionId)
    requires s != {}
    ensures IsLeast(s, v)
  {
    LeastExists(s);
    var v :| IsLeast(s, v);
    v
  }

  // ORDER BY id LIMIT n
  function FirstOf(s: set<VersionId>, n: nat): seq<VersionId>
    decreases n
  {
    if s == {} || n == 0 then [] else [Least(s)] + FirstOf(s - {Least(s)}, n - 1)
  }

  lemma {:induction false} FirstOfFacts(s: set<VersionId>, n: nat)
    ensures var page := FirstOf(s, n);
            && (forall v :: v in page ==> v in s)
            && Ascending(page) && |page| <= n
            && (page == [] <==> s == {} || n == 0)
            && (page != [] ==> forall v :: v in s && v <= page[|page| - 1] ==> v in page)
    decreases n
  {
    if s != {} && n > 0 {
      var v := Least(s);
      FirstOfFacts(s - {v}, n - 1);
      var rest := FirstOf(s - {v}, n - 1);
      assert FirstOf(s, n)[0] == v;
      assert forall x :: x in rest ==> v < x;
      assert forall i :: 0 <= i < |rest| ==> rest[i] in rest;
    }
  }

  lemma FirstOfStep(s: set<VersionId>, n: nat)
    requires s != {} && n > 0
    ensures FirstOf(s, n) == [Least(s)] + FirstOf(s - {Least(s)}, n - 1)
  {
  }

  function Page(s: Sweep): seq<VersionId> {
    FirstOf(Candidates(s.rows, s.deleted, s.cursor), PAGE)
  }

  function Elements(page: seq<VersionId>): set<VersionId> {
    set v | v in page
  }

  // mark_materials_purged
  function Unrecorded(rows: map<VersionId, Row>, ids: set<VersionId>): map<VersionId, Row> {
    map v | v in rows :: if v in ids then rows[v].(recorded := false) else rows[v]
  }

  // ---- steps ----

  // `fails` are the files whose unlink raises.
  datatype Step =
    | SweepPage(fails: set<VersionId>)
    | AddVersion(version: VersionId, document: DocId)
    | DeleteDocument(gone: DocId, fails: set<VersionId>)
    | RemoveRows(removed: set<VersionId>)

  predicate Possible(s: Sweep, step: Step) {
    match step
    case AddVersion(v, d) => v !in s.rows && d !in s.deleted
    case _ => true
  }

  function OfDocument(rows: map<VersionId, Row>, d: DocId): set<VersionId> {
    set v | v in rows && rows[v].document == d && rows[v].recorded
  }

  function After(s: Sweep, step: Step): Sweep {
    match step
    case SweepPage(fails) =>
      var page := Page(s);
      if page == [] then s.(cursor := None, log := [])
      else s.(rows := Unrecorded(s.rows, Elements(page) - fails), cursor := Some(page[|page| - 1]), log := s.log + page)
    case AddVersion(v, d) => s.(rows := s.rows[v := Row(d, true)])
    case DeleteDocument(d, fails) => s.(deleted := s.deleted + {d}, rows := Unrecorded(s.rows, OfDocument(s.rows, d) - fails))
    case RemoveRows(removed) => s.(rows := s.rows - removed)
  }

  predicate Resets(s: Sweep, step: Step) {
    step.SweepPage? && Page(s) == []
  }

  // ---- what one page does ----

  ghost predicate Inv(s: Sweep) {
    Ascending(s.log) && s.cursor == if s.log == [] then None else Some(s.log[|s.log| - 1])
  }

  lemma StepKeepsInv(s: Sweep, step: Step)
    requires Inv(s)
    ensures Inv(After(s, step))
  {
    if step.SweepPage? && Page(s) != [] {
      FirstOfFacts(Candidates(s.rows, s.deleted, s.cursor), PAGE);
      var page := Page(s);
      forall i, j | 0 <= i < j < |s.log + page| ensures (s.log + page)[i] < (s.log + page)[j] {
        if i < |s.log| <= j {
          assert page[j - |s.log|] in page;
        }
      }
    }
  }

  // Only files of deleted documents are attempted, and no live document's row changes.
  lemma SweepTouchesOnlyDeleted(s: Sweep, fails: set<VersionId>)
    ensures forall v :: v in Page(s) ==> Standing(s.rows, s.deleted, v)
    ensures var after := After(s, SweepPage(fails));
            && after.rows.Keys == s.rows.Keys
            && (forall v :: v in s.rows && s.rows[v].document !in s.deleted ==> after.rows[v] == s.rows[v])
            && (forall v :: v in s.rows ==> after.rows[v].document == s.rows[v].document)
            && (forall v :: v in s.rows ==> (after.rows[v].recorded <==> s.rows[v].recorded && (v !in Page(s) || v in fails)))
  {
    FirstOfFacts(Candidates(s.rows, s.deleted, s.cursor), PAGE);
  }

  // Deleting a document attempts its own files at once, and leaves the sweep where it is.
  lemma DeletionUnlinksItsFiles(s: Sweep, d: DocId, fails: set<VersionId>)
    ensures var after := After(s, DeleteDocument(d, fails));
            && after.deleted == s.deleted + {d} && after.cursor == s.cursor && after.log == s.log
            && after.rows.Keys == s.rows.Keys
            && (forall v :: v in s.rows ==> after.rows[v].document == s.rows[v].document)
            && (forall v :: v in s.rows ==> (after.rows[v].recorded <==> s.rows[v].recorded && (s.rows[v].document != d || v in fails)))
  {
  }

  // ---- how many pages a sweep still needs ----

  function PagesFor(files: nat): nat {
    (files + PAGE - 1) / PAGE
  }

  function Needed(s: Sweep): nat {
    PagesFor(|Candidates(s.rows, s.deleted, s.cursor)|)
  }

  // The pages taken by the files a step newly puts ahead of the cursor.
  function Added(s: Sweep, step: Step): nat {
    var after := After(s, step);
    if step.SweepPage? then 0
    else PagesFor(|Candidates(after.rows, after.deleted, after.cursor) - Candidates(s.rows, s.deleted, s.cursor)|)
  }

  lemma {:induction false} FirstOfLength(s: set<VersionId>, n: nat)
    ensures |FirstOf(s, n)| == if |s| <= n then |s| else n
    decreases n
  {
    if s != {} && n > 0 {
      FirstOfLength(s - {Least(s)}, n - 1);
    }
  }

  lemma {:induction false} DistinctElements(page: seq<VersionId>)
    requires Ascending(page)
    ensures |Elements(page)| == |page|
  {
    if page == [] {
      assert Elements(page) == {};
    } else {
      DistinctElements(page[1..]);
      assert Elements(page) == {page[0]} + Elements(page[1..]);
    }
  }

  lemma PageUses(s: Sweep, fails: set<VersionId>)
    requires Page(s) != []
    ensures var after := After(s, SweepPage(fails));
            |Candidates(after.rows, after.deleted, after.cursor)| + |Page(s)| <= |Candidates(s.rows, s.deleted, s.cursor)|
  {
    hide FirstOf;
    var all, page := Candidates(s.rows, s.deleted, s.cursor), Page(s);
    var after := After(s, SweepPage(fails));
    var left := Candidates(after.rows, after.deleted, after.cursor);
    FirstOfFacts(all, PAGE);
    var last := page[|page| - 1];
    assert last in page;
    forall v | v in left ensures v in all && v !in Elements(page) {
      assert v > last && Beyond(s.cursor, last);
    }
    DistinctElements(page);
    Smaller(left + Elements(page), all);
  }

  lemma FewerPages(all: nat, page: nat, left: nat)
    requires left + page <= all && page == (if all <= PAGE then all else PAGE) && page > 0
    ensures PagesFor(left) + 1 <= PagesFor(all)
  {
  }

  // A page that finds something is one page fewer to go.
  lemma PageIsProgress(s: Sweep, fails: set<VersionId>)
    requires Page(s) != []
    ensures Needed(After(s, SweepPage(fails))) + 1 <= Needed(s)
  {
    hide FirstOf, Candidates, After, PagesFor;
    var after := After(s, SweepPage(fails));
    PageUses(s, fails);
    FirstOfLength(Candidates(s.rows, s.deleted, s.cursor), PAGE);
    FewerPages(|Candidates(s.rows, s.deleted, s.cursor)|, |Page(s)|, |Candidates(after.rows, after.deleted, after.cursor)|);
  }

  lemma PageResetsOrProgresses(s: Sweep, fails: set<VersionId>)
    ensures Resets(s, SweepPage(fails)) || Needed(After(s, SweepPage(fails))) + 1 <= Needed(s)
  {
    hide Needed, After;
    if Page(s) != [] {
      PageIsProgress(s, fails);
    }
  }

  lemma Smaller(x: set<VersionId>, y: set<VersionId>)
    requires x <= y
    ensures |x| <= |y|
  {
    assert y == x + (y - x);
  }

  lemma SumOfPages(x: nat, y: nat, z: nat)
    requires x <= y + z
    ensures PagesFor(x) <= PagesFor(y) + PagesFor(z)
  {
  }

  lemma SplitSize(now: set<VersionId>, before: set<VersionId>)
    ensures |now| <= |before| + |now - before|
  {
    Smaller(now - (now - before), before);
    assert now == (now - (now - before)) + (now - before);
  }

  // Any other step adds the pages of what it newly puts ahead, at most.
  lemma OtherStepAdds(s: Sweep, step: Step)
    requires !step.SweepPage?
    ensures Needed(After(s, step)) <= Needed(s) + Added(s, step)
  {
    hide After, Candidates, PagesFor;
    var after := After(s, step);
    var before, now := Candidates(s.rows, s.deleted, s.cursor), Candidates(after.rows, after.deleted, after.cursor);
    SplitSize(now, before);
    SumOfPages(|now|, |before|, |now - before|);
  }

  // ---- runs ----

  ghost predicate Follows(s: Sweep, step: Step, next: Sweep) {
    Possible(s, step) && next == After(s, step)
  }

  ghost predicate Run(states: seq<Sweep>, steps: seq<Step>) {
    && |states| == |steps| + 1
    && states[0].cursor.None? && states[0].log == []
    && forall i :: 0 <= i < |steps| ==> Follows(states[i], steps[i], states[i + 1])
  }

  lemma {:induction false} ReachableInv(states: seq<Sweep>, steps: seq<Step>, i: nat)
    requires Run(states, steps) && i < |states|
    ensures Inv(states[i])
  {
    hide Follows;
    if i > 0 {
      ReachableInv(states, steps, i - 1);
      FollowsAfter(states[i - 1], steps[i - 1], states[i]);
      StepKeepsInv(states[i - 1], steps[i - 1]);
    }
  }

  lemma FollowsAfter(s: Sweep, step: Step, next: Sweep)
    ensures Follows(s, step, next) ==> Possible(s, step) && next == After(s, step)
  {
  }

  // A file that stands throughout and lies behind the cursor has been attempted.
  ghost predicate Caught(s: Sweep, v: VersionId) {
    !Beyond(s.cursor, v) ==> v in s.log
  }

  lemma StepCatches(s: Sweep, step: Step, v: VersionId)
    requires Standing(s.rows, s.deleted, v) && Caught(s, v) && !Resets(s, step)
    ensures Caught(After(s, step), v)
  {
    FirstOfFacts(Candidates(s.rows, s.deleted, s.cursor), PAGE);
  }

  lemma {:induction false} StandingIsCaught(states: seq<Sweep>, steps: seq<Step>, i: nat, j: nat, v: VersionId)
    requires Run(states, steps) && i <= j < |states| && states[i].log == []
    requires forall m :: i <= m < j ==> Standing(states[m].rows, states[m].deleted, v) && !Resets(states[m], steps[m])
    ensures Caught(states[j], v)
    decreases j - i
  {
    ReachableInv(states, steps, i);
    if i < j {
      StandingIsCaught(states, steps, i, j - 1, v);
      FollowsAfter(states[j - 1], steps[j - 1], states[j]);
      StepCatches(states[j - 1], steps[j - 1], v);
    }
  }

  // Main result: between two resets of the cursor every file of a deleted document that stands
  // throughout is attempted exactly once, whichever unlinks fail and whatever is added or deleted.
  lemma SweepAttemptsEachOnce(states: seq<Sweep>, steps: seq<Step>, i: nat, j: nat, v: VersionId)
    requires Run(states, steps) && i <= j < |steps| && states[i].log == [] && Resets(states[j], steps[j])
    requires forall m :: i <= m < j ==> !Resets(states[m], steps[m])
    requires forall m :: i <= m <= j ==> Standing(states[m].rows, states[m].deleted, v)
    ensures exists k :: 0 <= k < |states[j].log| && states[j].log[k] == v
    ensures forall k, l :: 0 <= k < |states[j].log| && 0 <= l < |states[j].log| && states[j].log[k] == v && states[j].log[l] == v ==> k == l
  {
    StandingIsCaught(states, steps, i, j, v);
    ReachableInv(states, steps, j);
    FirstOfFacts(Candidates(states[j].rows, states[j].deleted, states[j].cursor), PAGE);
    assert v !in Candidates(states[j].rows, states[j].deleted, states[j].cursor);
  }

  function PagesTaken(steps: seq<Step>, i: nat, j: nat): nat
    requires i <= j <= |steps|
    decreases j
  {
    if i == j then 0 else PagesTaken(steps, i, j - 1) + if steps[j - 1].SweepPage? then 1 else 0
  }

  function AddedBetween(states: seq<Sweep>, steps: seq<Step>, i: nat, j: nat): nat
    requires i <= j <= |steps| <= |states|
    decreases j
  {
    if i == j then 0 else AddedBetween(states, steps, i, j - 1) + Added(states[j - 1], steps[j - 1])
  }

  lemma {:induction false} PagesAreBounded(states: seq<Sweep>, steps: seq<Step>, i: nat, j: nat)
    requires Run(states, steps) && i <= j <= |steps|
    requires forall m :: i <= m < j ==> !Resets(states[m], steps[m])
    ensures PagesTaken(steps, i, j) + Needed(states[j]) <= Needed(states[i]) + AddedBetween(states, steps, i, j)
    decreases j
  {
    hide Added, Needed, Page;
    if i < j {
      PagesAreBounded(states, steps, i, j - 1);
      FollowsAfter(states[j - 1], steps[j - 1], states[j]);
      if steps[j - 1].SweepPage? {
        PageIsProgress(states[j - 1], steps[j - 1].fails);
      } else {
        OtherStepAdds(states[j - 1], steps[j - 1]);
      }
    }
  }

  // Main result: a sweep ends. Whatever is added and deleted in between, once more pages were taken than the
  // files ahead of the cursor fill, counting those newly put there, the cursor has been reset.
  lemma SweepsEnd(states: seq<Sweep>, steps: seq<Step>, i: nat, j: nat)
    requires Run(states, steps) && i <= j <= |steps|
    requires PagesTaken(steps, i, j) > Needed(states[i]) + AddedBetween(states, steps, i, j)
    ensures exists m :: i <= m < j && Resets(states[m], steps[m])
  {
    hide Resets, Needed;
    if forall m :: i <= m < j ==> !Resets(states[m], steps[m]) {
      PagesAreBounded(states, steps, i, j);
    }
  }

  // In passes: of passes that each took all their pages without a reset there are at most so many.
  lemma PassesEnd(states: seq<Sweep>, steps: seq<Step>, i: nat, j: nat, passes: nat)
    requires Run(states, steps) && i <= j <= |steps|
    requires forall m :: i <= m < j ==> !Resets(states[m], steps[m])
    requires PagesTaken(steps, i, j) >= passes * MAX_PAGES
    ensures passes <= (Needed(states[i]) + AddedBetween(states, steps, i, j)) / MAX_PAGES
  {
    hide Resets, Needed;
    PagesAreBounded(states, steps, i, j);
  }

  // The next files in order, at most a hundred: recorded, of a deleted document, beyond the cursor, and none passed over.
  predicate TakesNext(s: Sweep, page: seq<VersionId>) {
    && Ascending(page) && |page| <= 100
    && (forall v :: v in page ==> v in s.rows && s.rows[v].recorded && s.rows[v].document in s.deleted && (s.cursor.Some? ==> v > s.cursor.value))
    && forall v :: v in s.rows && s.rows[v].recorded && s.rows[v].document in s.deleted && (s.cursor.Some? ==> v > s.cursor.value) ==>
         v in page || (|page| == 100 && v > page[|page| - 1])
  }

  lemma WholePage(s: Sweep)
    ensures TakesNext(s, Page(s))
  {
    hide FirstOf;
    var page, all := Page(s), Candidates(s.rows, s.deleted, s.cursor);
    FirstOfFacts(all, PAGE);
    FirstOfLength(all, PAGE);
    assert forall v :: v in s.rows && s.rows[v].recorded && s.rows[v].document in s.deleted && (s.cursor.Some? ==> v > s.cursor.value) ==> v in all;
    if |page| < PAGE {
      DistinctElements(page);
      assert Elements(page) <= all;
      SameSize(Elements(page), all);
      assert forall v :: v in all ==> v in Elements(page);
    }
  }

  lemma SameSize(part: set<VersionId>, whole: set<VersionId>)
    requires part <= whole && |part| == |whole|
    ensures part == whole
  {
    assert whole == part + (whole - part);
  }

  // ---- the worker's loops ----

  class Purger {
    var rows: map<VersionId, Row>
    var deleted: set<DocId>
    var cursor: Option<VersionId>
    ghost var log: seq<VersionId>

    constructor (rows: map<VersionId, Row>, deleted: set<DocId>)
      ensures State() == Sweep(rows, deleted, None, [])
    {
      this.rows, this.deleted, cursor, log := rows, deleted, None, [];
    }

    ghost function State(): Sweep
      reads this
    {
      Sweep(rows, deleted, cursor, log)
    }

    // deleted_materials: the next page, in order.
    method DeletedMaterials() returns (page: seq<VersionId>)
      ensures page == Page(State())
      ensures TakesNext(State(), page)
    {
      WholePage(State());
      hide FirstOf, Candidates, IsLeast, TakesNext;
      var left := Candidates(rows, deleted, cursor);
      page := [];
      ghost var whole := Page(State());
      while left != {} && |page| < PAGE
        invariant |page| <= PAGE
        invariant whole == page + FirstOf(left, PAGE - |page|)
        decreases PAGE - |page|
      {
        var v := Lowest(left);
        FirstOfStep(left, PAGE - |page|);
        page := page + [v];
        left := left - {v};
      }
      FirstOfFacts(left, PAGE - |page|);
    }

    method Lowest(s: set<VersionId>) returns (v: VersionId)
      requires s != {}
      ensures v == Least(s)
    {
      v :| v in s;
      var rest := s - {v};
      while rest != {}
        invariant rest <= s && v in s && forall x :: x in s && x !in rest ==> v <= x
        decreases |rest|
      {
        var x :| x in rest;
        rest := rest - {x};
        if x < v {
          v := x;
        }
      }
      assert IsLeast(s, v) && IsLeast(s, Least(s));
    }

    // _unlink_materials: a file that cannot be removed keeps its record.
    method UnlinkMaterials(page: seq<VersionId>, fails: set<VersionId>)
      modifies this`rows
      ensures rows == Unrecorded(old(rows), Elements(page) - fails)
      ensures rows.Keys == old(rows).Keys
      ensures forall v :: v in rows ==>
                && rows[v].document == old(rows)[v].document
                && (rows[v].recorded <==> old(rows)[v].recorded && (v !in page || v in fails))
    {
      var purged: set<VersionId> := {};
      for i := 0 to |page|
        invariant purged == Elements(page[..i]) - fails
        invariant rows == old(rows)
      {
        assert page[..i + 1] == page[..i] + [page[i]];
        if page[i] !in fails {
          purged := purged + {page[i]};
        }
      }
      assert page[..|page|] == page;
      rows := map v | v in rows :: if v in purged then rows[v].(recorded := false) else rows[v];
    }

    method OnePage(fails: set<VersionId>) returns (empty: bool)
      modifies this
      ensures State() == After(old(State()), SweepPage(fails)) && deleted == old(deleted)
      ensures empty <==> Resets(old(State()), SweepPage(fails))
    {
      hide Page;
      var page := DeletedMaterials();
      empty := page == [];
      if empty {
        cursor, log := None, [];
      } else {
        UnlinkMaterials(page, fails);
        cursor := Some(page[|page| - 1]);
        log := log + page;
      }
    }

    // The file half of purge_deleted_data: a bounded number of pages; `done` when the cursor was reset.
    method SweepPass(maxPages: nat, fails: set<VersionId>) returns (done: bool, ghost pages: nat)
      modifies this
      ensures deleted == old(deleted) && pages <= maxPages && State() == Swept(old(State()), pages, fails)
      ensures done <==> pages > 0 && Resets(Swept(old(State()), pages - 1, fails), SweepPage(fails))
      ensures !done ==> pages == maxPages && Needed(State()) + maxPages <= Needed(old(State()))
      ensures done ==> pages <= Needed(old(State())) + 1
    {
      hide After, Resets, Needed;
      done, pages := false, 0;
      for i := 0 to maxPages
        invariant pages == i && !done && deleted == old(deleted)
        invariant State() == Swept(old(State()), pages, fails)
        invariant pages > 0 ==> !Resets(Swept(old(State()), pages - 1, fails), SweepPage(fails))
        invariant Needed(State()) + pages <= Needed(old(State()))
      {
        PageResetsOrProgresses(State(), fails);
        done := OnePage(fails);
        pages := pages + 1;
        if done {
          return;
        }
      }
    }
  }

  // So many pages, one after the other.
  ghost function Swept(s: Sweep, pages: nat, fails: set<VersionId>): Sweep {
    if pages == 0 then s else After(Swept(s, pages - 1, fails), SweepPage(fails))
  }
}
