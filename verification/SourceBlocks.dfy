// Showing a stored source: its text cut at a number of characters, and its blocks projected so
// that texts, block count and metadata stay within their bounds.

module SourceBlocks {
  import opened Options
  import opened Text

  const MAX_SOURCE_BLOCKS: nat := 100
  const MAX_SOURCE_METADATA_BYTES: nat := 16 * 1024

  // One metadata entry; `bytes` is the length of its encoding, key and colon included.
  datatype Field = Field(key: string, value: int, bytes: nat)

  // Metadata in key order, None when it is not an object.
  datatype Block = Block(text: string, metadata: Option<seq<Field>>)

  // ---- texts ----

  function Texts(blocks: seq<Block>): seq<string> {
    seq(|blocks|, i requires 0 <= i < |blocks| => blocks[i].text)
  }

  // "\n\n".join
  function Joined(texts: seq<string>): string {
    if texts == [] then ""
    else if |texts| == 1 then texts[0]
    else Joined(texts[..|texts| - 1]) + "\n\n" + texts[|texts| - 1]
  }

  lemma JoinedAppend(texts: seq<string>, t: string)
    ensures Joined(texts + [t]) == if texts == [] then t else Joined(texts) + "\n\n" + t
  {
    assert (texts + [t])[..|texts|] == texts;
  }

  lemma {:induction false} JoinedPrefix(texts: seq<string>, i: nat)
    requires i <= |texts|
    ensures Joined(texts[..i]) <= Joined(texts)
  {
    if i == |texts| {
      assert texts[..i] == texts;
    } else if |texts| > 1 {
      JoinedPrefix(texts[..|texts| - 1], i);
      assert texts[..|texts| - 1][..i] == texts[..i];
    }
  }

  // ---- metadata ----

  function Sum(fields: seq<Field>): nat {
    if fields == [] then 0 else Sum(fields[..|fields| - 1]) + fields[|fields| - 1].bytes
  }

  // The compact encoding: two braces, the entries and the commas between them.
  function EncodedLength(fields: seq<Field>): nat {
    2 + Sum(fields) + if fields == [] then 0 else |fields| - 1
  }

  function Fields(b: Block): seq<Field> {
    match b.metadata case Some(fields) => fields case None => []
  }

  // The entries kept of the first entries, one after the other, `used` bytes being gone already.
  function KeptFields(fields: seq<Field>, used: nat): seq<Field> {
    if fields == [] then []
    else
      var kept := KeptFields(fields[..|fields| - 1], used);
      var candidate := kept + [fields[|fields| - 1]];
      if used + EncodedLength(candidate) > MAX_SOURCE_METADATA_BYTES then kept else candidate
  }

  lemma {:induction false} KeptFieldsFacts(fields: seq<Field>, used: nat)
    ensures var kept := KeptFields(fields, used);
            && |kept| <= |fields|
            && (kept == [] || used + EncodedLength(kept) <= MAX_SOURCE_METADATA_BYTES)
            && (forall f :: f in kept ==> f in fields)
            && (|kept| == |fields| ==> kept == fields)
  {
    hide EncodedLength;
    if fields != [] {
      var front, last := fields[..|fields| - 1], fields[|fields| - 1];
      KeptFieldsFacts(front, used);
      assert fields == front + [last];
      assert KeptFields(fields, used) == KeptFields(front, used) || KeptFields(fields, used) == KeptFields(front, used) + [last];
    }
  }

  lemma NoFields(used: nat)
    ensures KeptFields([], used) == []
  {
  }

  lemma KeptFieldsStep(fields: seq<Field>, i: nat, used: nat)
    requires i < |fields|
    ensures var kept := KeptFields(fields[..i], used);
            && KeptFields(fields[..i + 1], used) ==
                 (if used + EncodedLength(kept + [fields[i]]) > MAX_SOURCE_METADATA_BYTES then kept else kept + [fields[i]])
            && |kept| <= i && (kept == fields[..i] <==> |kept| == i)
            && fields[..i + 1] == fields[..i] + [fields[i]]
  {
    hide KeptFields, EncodedLength;
    var next := fields[..i + 1];
    KeptFieldsLast(next, used);
    assert next[..i] == fields[..i] && next[i] == fields[i];
    KeptFieldsFacts(fields[..i], used);
  }

  lemma KeptFieldsLast(fields: seq<Field>, used: nat)
    requires fields != []
    ensures var kept := KeptFields(fields[..|fields| - 1], used);
            KeptFields(fields, used) == if used + EncodedLength(kept + [fields[|fields| - 1]]) > MAX_SOURCE_METADATA_BYTES then kept else kept + [fields[|fields| - 1]]
  {
  }

  // The encoding of one entry more: its own bytes, and a comma unless it is the first.
  lemma EncodedMore(fields: seq<Field>, f: Field)
    ensures EncodedLength([]) == 2
    ensures EncodedLength(fields + [f]) == EncodedLength(fields) + f.bytes + if fields == [] then 0 else 1
  {
    assert (fields + [f])[..|fields|] == fields;
  }

  // The entries at these places are kept, one after the other: each fits behind those kept before it, and
  // every other would not have fitted where it came.
  ghost predicate KeptGreedily(fields: seq<Field>, used: nat, kept: seq<Field>, at: seq<nat>) {
    && |at| == |kept|
    && (forall k, l :: 0 <= k < l < |at| ==> at[k] < at[l])
    && (forall k :: 0 <= k < |at| ==>
          at[k] < |fields| && kept[k] == fields[at[k]] && used + EncodedLength(kept[..k] + [kept[k]]) <= 16384)
    && (forall i: nat, k: nat :: i < |fields| && Between(at, i, k) ==> used + EncodedLength(kept[..k] + [fields[i]]) > 16384)
  }

  // Place i falls behind the first k places and is none of them.
  predicate Between(at: seq<nat>, i: nat, k: nat) {
    k <= |at| && (k > 0 ==> at[k - 1] < i) && (k < |at| ==> i < at[k])
  }

  lemma LastPlace(at: seq<nat>, n: nat, k: nat)
    requires (forall l :: 0 <= l < |at| ==> at[l] < n) && Between(at, n, k)
    ensures k == |at|
  {
  }

  lemma GreedyStep(fields: seq<Field>, used: nat, kept: seq<Field>, at: seq<nat>, f: Field)
    requires KeptGreedily(fields, used, kept, at)
    ensures used + EncodedLength(kept + [f]) > 16384 ==> KeptGreedily(fields + [f], used, kept, at)
    ensures used + EncodedLength(kept + [f]) <= 16384 ==> KeptGreedily(fields + [f], used, kept + [f], at + [|fields|])
  {
    hide EncodedLength;
    var more := fields + [f];
    assert forall i :: 0 <= i < |fields| ==> more[i] == fields[i];
    assert kept[..|kept|] == kept;
    if used + EncodedLength(kept + [f]) > 16384 {
      forall i: nat, k: nat | i < |more| && Between(at, i, k) ensures used + EncodedLength(kept[..k] + [more[i]]) > 16384 {
        if i == |fields| {
          LastPlace(at, i, k);
        }
      }
    } else {
      GreedyAppend(fields, used, kept, at, f);
    }
  }

  lemma GreedyAppend(fields: seq<Field>, used: nat, kept: seq<Field>, at: seq<nat>, f: Field)
    requires KeptGreedily(fields, used, kept, at) && used + EncodedLength(kept + [f]) <= 16384
    ensures KeptGreedily(fields + [f], used, kept + [f], at + [|fields|])
  {
    hide EncodedLength;
    var more, all, places := fields + [f], kept + [f], at + [|fields|];
    forall k | 0 <= k <= |kept| ensures all[..k] == kept[..k] {
    }
    assert kept[..|kept|] == kept;
    forall i: nat, k: nat | i < |more| && Between(places, i, k) ensures used + EncodedLength(all[..k] + [more[i]]) > 16384 {
      assert k <= |at| && Between(at, i, k) && i < |fields|;
    }
  }

  lemma {:induction false} KeptFieldsAreGreedy(fields: seq<Field>, used: nat)
    ensures exists at :: KeptGreedily(fields, used, KeptFields(fields, used), at)
  {
    hide EncodedLength, KeptGreedily;
    if fields == [] {
      NothingKept(used);
    } else {
      var front, last := fields[..|fields| - 1], fields[|fields| - 1];
      KeptFieldsAreGreedy(front, used);
      KeptFieldsLast(fields, used);
      var at: seq<nat> :| KeptGreedily(front, used, KeptFields(front, used), at);
      GreedyStep(front, used, KeptFields(front, used), at, last);
      assert front + [last] == fields;
    }
  }

  lemma NothingKept(used: nat)
    ensures KeptGreedily([], used, KeptFields([], used), [])
  {
  }

  function MetadataBytes(blocks: seq<Block>): nat {
    if blocks == [] then 0 else MetadataBytes(blocks[..|blocks| - 1]) + EncodedLength(Fields(blocks[|blocks| - 1]))
  }

  // What a block looks like when nothing is cut off it.
  function Whole(b: Block): Block {
    Block(b.text, Some(Fields(b)))
  }

  function AllWhole(blocks: seq<Block>): seq<Block> {
    seq(|blocks|, i requires 0 <= i < |blocks| => Whole(blocks[i]))
  }

  function Clamp(n: int): nat {
    if n < 0 then 0 else n
  }

  function Cut(text: string, max: int): string {
    if |text| <= max then text else text[..Clamp(max)]
  }

  // ---- the projection ----

  method BoundMetadata(fields: seq<Field>, used: nat) returns (bounded: seq<Field>, truncated: bool)
    ensures bounded == KeptFields(fields, used)
    ensures truncated <==> bounded != fields
    ensures exists at :: KeptGreedily(fields, used, bounded, at)
  {
    hide KeptFields, EncodedLength, KeptGreedily;
    KeptFieldsAreGreedy(fields, used);
    bounded, truncated := [], false;
    NoFields(used);
    assert fields[..0] == [];
    for i := 0 to |fields|
      invariant bounded == KeptFields(fields[..i], used)
      invariant truncated <==> bounded != fields[..i]
    {
      KeptFieldsStep(fields, i, used);
      var candidate := bounded + [fields[i]];
      if used + EncodedLength(candidate) > MAX_SOURCE_METADATA_BYTES {
        truncated := true;
      } else {
        bounded := candidate;
      }
    }
    assert fields[..|fields|] == fields;
  }

  // Each block keeps, in key order, every metadata entry the bytes left by the blocks before it allow.
  predicate MetadataKept(blocks: seq<Block>, projected: seq<Block>) {
    && |projected| <= |blocks|
    && forall k :: 0 <= k < |projected| ==> KeptAt(blocks, projected, k)
  }

  predicate KeptAt(blocks: seq<Block>, projected: seq<Block>, k: nat)
    requires k < |projected| <= |blocks|
  {
    projected[k].metadata == Some(KeptFields(Fields(blocks[k]), MetadataBytes(projected[..k])))
  }

  // The projection stops only at the block limit or once the characters are used up.
  predicate StopsLate(blocks: seq<Block>, projected: seq<Block>, maxChars: int) {
    |projected| < |blocks| ==>
      || |projected| == MAX_SOURCE_BLOCKS
      || maxChars <= (if projected == [] then 0 else |Joined(Texts(projected))| + 2)
  }

  // Everything promised about a projection of blocks.
  predicate Projects(blocks: seq<Block>, maxChars: int, projected: seq<Block>, truncated: bool) {
    && |projected| <= |blocks| && |projected| <= MAX_SOURCE_BLOCKS
    && Joined(Texts(projected)) == Cut(Joined(Texts(blocks)[..|projected|]), maxChars)
    && Joined(Texts(projected)) <= Cut(Joined(Texts(blocks)), maxChars)
    && StopsLate(blocks, projected, maxChars)
    && MetadataKept(blocks, projected)
    && MetadataBytes(projected) <= MAX_SOURCE_METADATA_BYTES + 2 * |projected|
    && (truncated <==> projected != AllWhole(blocks))
  }

  // The state of the loop: the first i blocks went through whole, apart perhaps from their metadata.
  ghost predicate Running(blocks: seq<Block>, i: nat, maxChars: int, projected: seq<Block>, cursor: nat, used: nat, truncated: bool)
    requires i <= |blocks|
  {
    && |projected| == i && i <= MAX_SOURCE_BLOCKS
    && Texts(projected) == Texts(blocks)[..i]
    && cursor == (if i == 0 then 0 else |Joined(Texts(projected))| + 2)
    && (i > 0 ==> |Joined(Texts(projected))| <= maxChars)
    && used == MetadataBytes(projected) && used <= MAX_SOURCE_METADATA_BYTES + 2 * i
    && MetadataKept(blocks, projected)
    && (truncated <==> projected != AllWhole(blocks[..i]))
  }

  // One more block whose text is shown whole.
  lemma RunningStep(blocks: seq<Block>, i: nat, maxChars: int, projected: seq<Block>, cursor: nat, used: nat, truncated: bool, fields: seq<Field>)
    requires i < |blocks| && i < MAX_SOURCE_BLOCKS && cursor < maxChars && |blocks[i].text| <= maxChars - cursor
    requires Running(blocks, i, maxChars, projected, cursor, used, truncated) && fields == KeptFields(Fields(blocks[i]), used)
    ensures Running(blocks, i + 1, maxChars, projected + [Block(blocks[i].text, Some(fields))], cursor + |blocks[i].text| + 2,
                    used + EncodedLength(fields), truncated || fields != Fields(blocks[i]))
  {
    hide KeptFields, EncodedLength, MetadataKept, AllWhole, MetadataBytes;
    var shown := Block(blocks[i].text, Some(fields));
    UsedStep(Fields(blocks[i]), used, i);
    assert Texts(projected + [shown]) == Texts(projected) + [shown.text];
    assert Texts(blocks)[..i + 1] == Texts(blocks)[..i] + [blocks[i].text];
    JoinedAppend(Texts(projected), shown.text);
    MetadataKeptStep(blocks, projected, shown);
    AllWholeStep(blocks, i, projected, shown);
  }

  lemma UsedStep(fields: seq<Field>, used: nat, i: nat)
    requires used <= MAX_SOURCE_METADATA_BYTES + 2 * i
    ensures used + EncodedLength(KeptFields(fields, used)) <= MAX_SOURCE_METADATA_BYTES + 2 * (i + 1)
  {
    KeptFieldsFacts(fields, used);
  }

  lemma MetadataKeptStep(blocks: seq<Block>, projected: seq<Block>, shown: Block)
    requires |projected| < |blocks| && MetadataKept(blocks, projected)
    requires shown.metadata == Some(KeptFields(Fields(blocks[|projected|]), MetadataBytes(projected)))
    ensures MetadataKept(blocks, projected + [shown])
    ensures MetadataBytes(projected + [shown]) == MetadataBytes(projected) + EncodedLength(Fields(shown))
  {
    hide KeptFields, EncodedLength, KeptAt;
    var after := projected + [shown];
    var n := |projected|;
    assert after[..n] == projected;
    forall k | 0 <= k < n + 1 ensures KeptAt(blocks, after, k) {
      if k < n {
        KeptAtPrefix(blocks, projected, shown, k);
      } else {
        KeptAtLast(blocks, projected, shown);
      }
    }
  }

  lemma KeptAtPrefix(blocks: seq<Block>, projected: seq<Block>, shown: Block, k: nat)
    requires k < |projected| < |blocks| && KeptAt(blocks, projected, k)
    ensures KeptAt(blocks, projected + [shown], k)
  {
    assert (projected + [shown])[..k] == projected[..k];
  }

  lemma KeptAtLast(blocks: seq<Block>, projected: seq<Block>, shown: Block)
    requires |projected| < |blocks| && shown.metadata == Some(KeptFields(Fields(blocks[|projected|]), MetadataBytes(projected)))
    ensures KeptAt(blocks, projected + [shown], |projected|)
  {
    assert (projected + [shown])[..|projected|] == projected;
  }

  lemma AllWholeStep(blocks: seq<Block>, i: nat, projected: seq<Block>, shown: Block)
    requires i < |blocks| && |projected| == i
    ensures projected + [shown] == AllWhole(blocks[..i + 1]) <==> projected == AllWhole(blocks[..i]) && shown == Whole(blocks[i])
  {
    assert AllWhole(blocks[..i + 1]) == AllWhole(blocks[..i]) + [Whole(blocks[i])];
    assert (projected + [shown])[..i] == projected;
  }

  // The loop ends before a block: what was shown so far is a projection.
  lemma RunningProjects(blocks: seq<Block>, i: nat, maxChars: int, projected: seq<Block>, cursor: nat, used: nat, truncated: bool)
    requires i <= |blocks| && Running(blocks, i, maxChars, projected, cursor, used, truncated)
    requires i < |blocks| ==> i >= MAX_SOURCE_BLOCKS || cursor >= maxChars
    ensures Projects(blocks, maxChars, projected, truncated || i < |blocks|)
  {
    JoinedPrefix(Texts(blocks), i);
    assert |AllWhole(blocks)| == |blocks|;
    assert blocks[..|blocks|] == blocks;
    if i == 0 {
      assert Texts(projected) == [];
    }
  }

  // The loop ends with a block whose text is cut.
  lemma CutProjects(blocks: seq<Block>, i: nat, maxChars: int, projected: seq<Block>, cursor: nat, used: nat, truncated: bool, fields: seq<Field>)
    requires i < |blocks| && i < MAX_SOURCE_BLOCKS && cursor < maxChars && |blocks[i].text| > maxChars - cursor
    requires Running(blocks, i, maxChars, projected, cursor, used, truncated) && fields == KeptFields(Fields(blocks[i]), used)
    ensures Projects(blocks, maxChars, projected + [Block(blocks[i].text[..maxChars - cursor], Some(fields))], true)
  {
    hide KeptFields;
    var shown := Block(blocks[i].text[..maxChars - cursor], Some(fields));
    var after := projected + [shown];
    UsedStep(Fields(blocks[i]), used, i);
    MetadataKeptStep(blocks, projected, shown);
    assert after[i] == shown && shown != AllWhole(blocks)[i];
    CutText(blocks, i, maxChars, projected, cursor, shown);
  }

  lemma CutText(blocks: seq<Block>, i: nat, maxChars: int, projected: seq<Block>, cursor: nat, shown: Block)
    requires i < |blocks| && cursor < maxChars && |blocks[i].text| > maxChars - cursor && shown.text == blocks[i].text[..maxChars - cursor]
    requires Texts(projected) == Texts(blocks)[..i] && |projected| == i && cursor == (if i == 0 then 0 else |Joined(Texts(projected))| + 2)
    ensures Joined(Texts(projected + [shown])) <= Cut(Joined(Texts(blocks)), maxChars)
    ensures Joined(Texts(projected + [shown])) == Cut(Joined(Texts(blocks)[..i + 1]), maxChars)
    ensures |Joined(Texts(projected + [shown]))| == maxChars
  {
    assert Texts(projected + [shown]) == Texts(projected) + [shown.text];
    assert Texts(blocks)[..i + 1] == Texts(projected) + [blocks[i].text];
    JoinedAppend(Texts(projected), shown.text);
    JoinedAppend(Texts(projected), blocks[i].text);
    JoinedPrefix(Texts(blocks), i + 1);
    var whole := Joined(Texts(blocks)[..i + 1]);
    assert Joined(Texts(projected + [shown])) == whole[..maxChars];
  }

  // _bounded_source_blocks
  method BoundedSourceBlocks(blocks: seq<Block>, maxChars: int) returns (projected: seq<Block>, truncated: bool)
    ensures Projects(blocks, maxChars, projected, truncated)
  {
    hide Running, Projects, KeptFields, EncodedLength;
    projected, truncated := [], false;
    var cursor: nat, used: nat := 0, 0;
    NothingShown(blocks, maxChars);
    for i := 0 to |blocks|
      invariant Running(blocks, i, maxChars, projected, cursor, used, truncated) && |projected| == i
    {
      if i >= MAX_SOURCE_BLOCKS || cursor >= maxChars {
        RunningProjects(blocks, i, maxChars, projected, cursor, used, truncated);
        truncated := true;
        return;
      }
      var text := blocks[i].text;
      var visible := if |text| <= maxChars - cursor then text else text[..maxChars - cursor];
      var bounded, dropped := BoundMetadata(Fields(blocks[i]), used);
      if |visible| < |text| {
        CutProjects(blocks, i, maxChars, projected, cursor, used, truncated, bounded);
        projected, truncated := projected + [Block(visible, Some(bounded))], true;
        return;
      }
      RunningStep(blocks, i, maxChars, projected, cursor, used, truncated, bounded);
      truncated := truncated || dropped;
      used := used + EncodedLength(bounded);
      projected := projected + [Block(visible, Some(bounded))];
      cursor := cursor + |text| + 2;
    }
    RunningProjects(blocks, |blocks|, maxChars, projected, cursor, used, truncated);
  }

  lemma NothingShown(blocks: seq<Block>, maxChars: int)
    ensures Running(blocks, 0, maxChars, [], 0, 0, false)
  {
  }

  // ---- a source from upload to view ----

  // What an upload must look like: at least one block, none blank, metadata objects only.
  predicate Wellformed(blocks: seq<Block>) {
    blocks != [] && forall b :: b in blocks ==> !Blank(b.text) && b.metadata.Some?
  }

  // _decode_material, its blocks: the parsed text is the blank-line join of the stored blocks.
  method DecodeBlocks(blocks: seq<Block>) returns (r: Option<(string, seq<Block>)>)
    ensures r.Some? <==> Wellformed(blocks)
    ensures r.Some? ==>
              var (text, stored) := r.value;
              && text == Joined(Texts(stored)) && |stored| == |blocks| && AllWhole(stored) == stored
              && forall i :: 0 <= i < |stored| ==> stored[i] == Block(Strip(blocks[i].text), blocks[i].metadata)
  {
    if blocks == [] {
      return None;
    }
    var parts: seq<string>, stored: seq<Block> := [], [];
    for i := 0 to |blocks|
      invariant |stored| == i && parts == Texts(stored)
      invariant forall k :: 0 <= k < i ==> !Blank(blocks[k].text) && blocks[k].metadata.Some?
      invariant forall k :: 0 <= k < i ==> stored[k] == Block(Strip(blocks[k].text), blocks[k].metadata)
    {
      StripFacts(blocks[i].text);
      if Strip(blocks[i].text) == "" || blocks[i].metadata.None? {
        assert blocks[i] in blocks;
        return None;
      }
      parts := parts + [Strip(blocks[i].text)];
      stored := stored + [Block(Strip(blocks[i].text), blocks[i].metadata)];
    }
    return Some((Joined(parts), stored));
  }

  datatype View = View(text: string, blocks: seq<Block>, truncated: bool, totalBlocks: nat, returnedBlocks: nat)

  // get_source, for a version stored by an upload.
  method GetSource(parsedText: string, stored: seq<Block>, maxChars: nat) returns (v: View)
    requires stored != [] && parsedText == Joined(Texts(stored)) && AllWhole(stored) == stored
    ensures Joined(Texts(v.blocks)) <= v.text <= parsedText && |v.text| <= maxChars
    ensures Projects(stored, maxChars, v.blocks, v.blocks != stored)
    ensures v.truncated <==> v.text != parsedText || v.blocks != stored
    ensures v.blocks == stored ==> v.text == parsedText
    ensures v.totalBlocks == |stored| && v.returnedBlocks == |v.blocks|
  {
    hide MetadataKept, StopsLate;
    var blocks, truncated := BoundedSourceBlocks(stored, maxChars);
    assert Texts(stored)[..|stored|] == Texts(stored);
    var text := if |parsedText| <= maxChars then parsedText else parsedText[..maxChars];
    v := View(text, blocks, |parsedText| > maxChars || truncated, |stored|, |blocks|);
  }
}
