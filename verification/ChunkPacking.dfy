// How texts are packed into chunks: one after the other into a buffer that is sealed when the next
// text no longer fits, while a text too long to fit anywhere is split on its own.

module ChunkPacking {

  // The texts of one chunk, or one text too long for a chunk and what it was split into.
  datatype Run = Together(texts: seq<string>) | Apart(text: string, parts: seq<string>)

  function Join(texts: seq<string>, joint: string): string {
    if texts == [] then ""
    else if |texts| == 1 then texts[0]
    else Join(texts[..|texts| - 1], joint) + joint + texts[|texts| - 1]
  }

  function TextsIn(r: Run): seq<string> {
    if r.Together? then r.texts else [r.text]
  }

  function ChunksIn(r: Run, joint: string): seq<string> {
    if r.Together? then [Join(r.texts, joint)] else r.parts
  }

  function TextsOf(runs: seq<Run>): seq<string> {
    if runs == [] then []
    else TextsOf(runs[..|runs| - 1]) + TextsIn(runs[|runs| - 1])
  }

  function ChunksOf(runs: seq<Run>, joint: string): seq<string> {
    if runs == [] then []
    else ChunksOf(runs[..|runs| - 1], joint) + ChunksIn(runs[|runs| - 1], joint)
  }

  // Together are texts that fit into one chunk, apart is one that does not.
  predicate Fits(r: Run, joint: string, size: nat) {
    match r
    case Together(texts) => texts != [] && |Join(texts, joint)| <= size
    case Apart(text, _) => |text| > size
  }

  // The chunk of a run had no room for the first text of the next.
  predicate Full(runs: seq<Run>, joint: string, size: nat) {
    forall i :: 0 <= i < |runs| - 1 && runs[i].Together? && runs[i + 1].Together? && runs[i + 1].texts != [] ==>
      |Join(runs[i].texts, joint)| + |joint| + |runs[i + 1].texts[0]| > size
  }

  // The texts in their order, packed as tightly as they come.
  predicate Packed(texts: seq<string>, chunks: seq<string>, joint: string, size: nat, runs: seq<Run>) {
    && TextsOf(runs) == texts && ChunksOf(runs, joint) == chunks
    && (forall r :: r in runs ==> Fits(r, joint, size))
    && Full(runs, joint, size)
  }

  // The chunks once the buffer is sealed.
  function Sealed(chunks: seq<string>, buf: string): seq<string> {
    if buf == "" then chunks else chunks + [buf]
  }

  // The loops, part way: the buffer is the chunk of the last run, if that can still grow.
  predicate Packing(texts: seq<string>, chunks: seq<string>, buf: string, joint: string, size: nat, runs: seq<Run>) {
    && Packed(texts, Sealed(chunks, buf), joint, size, runs)
    && if buf == "" then runs == [] || runs[|runs| - 1].Apart?
       else runs != [] && runs[|runs| - 1].Together? && Join(runs[|runs| - 1].texts, joint) == buf
  }

  lemma NothingPacked(joint: string, size: nat)
    ensures Packing([], [], "", joint, size, [])
  {
  }

  lemma OneRunMore(runs: seq<Run>, joint: string, r: Run)
    ensures TextsOf(runs + [r]) == TextsOf(runs) + TextsIn(r)
    ensures ChunksOf(runs + [r], joint) == ChunksOf(runs, joint) + ChunksIn(r, joint)
  {
    assert (runs + [r])[..|runs|] == runs;
  }

  lemma FullMore(runs: seq<Run>, joint: string, size: nat, r: Run)
    requires Full(runs, joint, size)
    requires runs != [] && runs[|runs| - 1].Together? && r.Together? && r.texts != [] ==>
               |Join(runs[|runs| - 1].texts, joint)| + |joint| + |r.texts[0]| > size
    ensures Full(runs + [r], joint, size)
  {
    hide Join;
  }

  // A text too long for any chunk.
  lemma PackApart(texts: seq<string>, chunks: seq<string>, buf: string, joint: string, size: nat, runs: seq<Run>, t: string, parts: seq<string>)
    requires Packing(texts, chunks, buf, joint, size, runs) && |t| > size
    ensures Packing(texts + [t], Sealed(chunks, buf) + parts, "", joint, size, runs + [Apart(t, parts)])
  {
    hide Join, TextsOf, ChunksOf, Full;
    OneRunMore(runs, joint, Apart(t, parts));
    FullMore(runs, joint, size, Apart(t, parts));
  }

  // A text for which the buffer has no room, or that finds none.
  lemma PackAnew(texts: seq<string>, chunks: seq<string>, buf: string, joint: string, size: nat, runs: seq<Run>, t: string)
    requires Packing(texts, chunks, buf, joint, size, runs) && 0 < |t| <= size
    requires buf == "" || |buf| + |joint| + |t| > size
    ensures Packing(texts + [t], Sealed(chunks, buf), t, joint, size, runs + [Together([t])])
  {
    hide TextsOf, ChunksOf, Full;
    OneRunMore(runs, joint, Together([t]));
    FullMore(runs, joint, size, Together([t]));
  }

  lemma JoinMore(texts: seq<string>, joint: string, t: string)
    requires texts != []
    ensures Join(texts + [t], joint) == Join(texts, joint) + joint + t
  {
    assert (texts + [t])[..|texts|] == texts;
  }

  // A text for which the buffer has room.
  lemma PackJoin(texts: seq<string>, chunks: seq<string>, buf: string, joint: string, size: nat, runs: seq<Run>, t: string)
    returns (grown: seq<Run>)
    requires Packing(texts, chunks, buf, joint, size, runs) && buf != "" && t != "" && |buf| + |joint| + |t| <= size
    ensures Packing(texts + [t], chunks, buf + joint + t, joint, size, grown)
    ensures forall r :: r in grown && r.Apart? ==> r in runs
  {
    hide TextsOf, ChunksOf, Full, Join;
    var front, last := runs[..|runs| - 1], runs[|runs| - 1];
    var more := Together(last.texts + [t]);
    grown := front + [more];
    assert runs == front + [last] && last in runs;
    OneRunMore(front, joint, last);
    OneRunMore(front, joint, more);
    JoinMore(last.texts, joint, t);
    assert ChunksOf(front, joint) + [buf] == chunks + [buf];
    assert ChunksOf(front, joint) == chunks by {
      assert (ChunksOf(front, joint) + [buf])[..|chunks|] == (chunks + [buf])[..|chunks|];
    }
    FullFront(front, joint, size, last, more);
  }

  lemma FullFront(front: seq<Run>, joint: string, size: nat, last: Run, more: Run)
    requires Full(front + [last], joint, size) && last.Together? && more.Together? && last.texts != [] && last.texts <= more.texts
    ensures Full(front + [more], joint, size)
  {
    hide Join;
    var old', new' := front + [last], front + [more];
    forall i | 0 <= i < |new'| - 1 && new'[i].Together? && new'[i + 1].Together? && new'[i + 1].texts != []
      ensures |Join(new'[i].texts, joint)| + |joint| + |new'[i + 1].texts[0]| > size
    {
      assert old'[i] == new'[i] && old'[i + 1].Together? && old'[i + 1].texts[0] == new'[i + 1].texts[0];
    }
  }

  // The loops end by sealing the buffer.
  lemma PackingEnds(texts: seq<string>, chunks: seq<string>, buf: string, joint: string, size: nat, runs: seq<Run>)
    requires Packing(texts, chunks, buf, joint, size, runs)
    ensures Packed(texts, Sealed(chunks, buf), joint, size, runs)
  {
  }

  // A text for which there is room joins the buffer, or begins it.
  lemma PackNext(texts: seq<string>, chunks: seq<string>, buf: string, joint: string, size: nat, runs: seq<Run>, t: string)
    returns (grown: seq<Run>)
    requires Packing(texts, chunks, buf, joint, size, runs) && 0 < |t| <= size
    requires buf != "" ==> |buf| + |joint| + |t| <= size
    ensures Packing(texts + [t], chunks, if buf == "" then t else buf + joint + t, joint, size, grown)
    ensures forall r :: r in grown && r.Apart? ==> r in runs
  {
    hide Packing;
    if buf == "" {
      PackAnew(texts, chunks, buf, joint, size, runs, t);
      grown := runs + [Together([t])];
    } else {
      grown := PackJoin(texts, chunks, buf, joint, size, runs, t);
    }
  }

  // ---- a hard cut ----

  // Slices of the full size and a last one of at most that, which together are the text.
  predicate Slices(text: string, slices: seq<string>, size: nat) {
    && Join(slices, "") == text
    && forall i :: 0 <= i < |slices| ==> if i < |slices| - 1 then |slices[i]| == size else 0 < |slices[i]| <= size
  }

  lemma SliceMore(slices: seq<string>, t: string)
    ensures Join(slices + [t], "") == Join(slices, "") + t
  {
    assert (slices + [t])[..|slices|] == slices;
    if slices != [] {
      assert Join(slices, "") + "" == Join(slices, "");
    }
  }

  // ---- merging the small ones ----

  function Flat(groups: seq<seq<string>>): seq<string> {
    if groups == [] then [] else Flat(groups[..|groups| - 1]) + groups[|groups| - 1]
  }

  // A chunk takes in the next ones, after a blank line each, just until it is long enough.
  predicate Grows(group: seq<string>, min: nat) {
    group != [] && forall k :: 0 < k < |group| ==> |Join(group[..k], "\n\n")| < min
  }

  predicate Merged(chunks: seq<string>, merged: seq<string>, min: nat, groups: seq<seq<string>>) {
    && Flat(groups) == chunks && |groups| == |merged|
    && (forall i :: 0 <= i < |groups| ==> Grows(groups[i], min) && merged[i] == Join(groups[i], "\n\n"))
    && (forall i :: 0 <= i < |groups| - 1 ==> |merged[i]| >= min)
  }

  lemma FlatMore(groups: seq<seq<string>>, group: seq<string>)
    ensures Flat(groups + [group]) == Flat(groups) + group
  {
    assert (groups + [group])[..|groups|] == groups;
  }

  lemma MergeBegins(chunk: string, min: nat)
    ensures Merged([chunk], [chunk], min, [[chunk]])
  {
    FlatMore([], [chunk]);
    assert [] + [[chunk]] == [[chunk]] && [] + [chunk] == [chunk];
  }

  lemma MergeApart(chunks: seq<string>, merged: seq<string>, cur: string, min: nat, groups: seq<seq<string>>, next: string)
    requires Merged(chunks, merged + [cur], min, groups) && |cur| >= min
    ensures Merged(chunks + [next], merged + [cur] + [next], min, groups + [[next]])
  {
    hide Flat, Join;
    FlatMore(groups, [next]);
    JoinOne(next);
  }

  lemma JoinOne(t: string)
    ensures Join([t], "\n\n") == t
  {
  }

  lemma MergeJoins(chunks: seq<string>, merged: seq<string>, cur: string, min: nat, groups: seq<seq<string>>, next: string)
    requires Merged(chunks, merged + [cur], min, groups) && |cur| < min
    ensures groups != []
    ensures var last := groups[|groups| - 1];
            Merged(chunks + [next], merged + [cur + "\n\n" + next], min, groups[..|groups| - 1] + [last + [next]])
  {
    hide Flat, Join;
    var front, last := groups[..|groups| - 1], groups[|groups| - 1];
    assert groups == front + [last];
    FlatMore(front, last);
    FlatMore(front, last + [next]);
    JoinMore(last, "\n\n", next);
    assert Grows(last + [next], min) by {
      forall k | 0 < k < |last| + 1 ensures |Join((last + [next])[..k], "\n\n")| < min {
        assert (last + [next])[..k] == last[..k];
        assert k == |last| ==> last[..k] == last;
      }
    }
  }
}
