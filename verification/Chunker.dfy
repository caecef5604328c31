// Splitting a document into chunks: paragraphs first, then sentences, then secondary punctuation,
// then a hard cut; and merging the chunks that came out too small.

module Chunker {
  import opened Text
  import opened ChunkPacking

  // ---- texts and lists of texts ----

  function Content(chunks: seq<string>): string {
    if chunks == [] then "" else Content(chunks[..|chunks| - 1]) + NonSpace(chunks[|chunks| - 1])
  }

  lemma ContentAppend(chunks: seq<string>, c: string)
    ensures Content(chunks + [c]) == Content(chunks) + NonSpace(c)
  {
    assert (chunks + [c])[..|chunks|] == chunks;
  }

  lemma {:induction false} ContentConcat(a: seq<string>, b: seq<string>)
    ensures Content(a + b) == Content(a) + Content(b)
  {
    if b == [] {
      assert a + b == a;
    } else {
      hide Content, NonSpace;
      var front, last := b[..|b| - 1], b[|b| - 1];
      assert a + b == (a + front) + [last] && b == front + [last];
      ContentConcat(a, front);
      ContentAppend(a + front, last);
      ContentAppend(front, last);
      assert Content(a) + (Content(front) + NonSpace(last)) == (Content(a) + Content(front)) + NonSpace(last);
    }
  }

  lemma ContentCons(c: string, rest: seq<string>)
    ensures Content([c] + rest) == NonSpace(c) + Content(rest)
    ensures Content([c]) == NonSpace(c)
  {
    ContentConcat([c], rest);
    ContentAppend([], c);
    assert [] + [c] == [c];
  }

  predicate Sized(chunks: seq<string>, max: nat) {
    forall c :: c in chunks ==> 0 < |c| <= max
  }

  predicate OccursAt(c: string, p: string, i: nat) {
    i + |p| <= |c| && c[i..i + |p|] == p
  }

  // p occurs in c in one piece.
  ghost predicate Contains(c: string, p: string) {
    exists i: nat :: OccursAt(c, p, i)
  }

  ghost predicate Kept(chunks: seq<string>, p: string) {
    exists c :: c in chunks && Contains(c, p)
  }

  lemma ContainsSelf(p: string)
    ensures Contains(p, p)
  {
    assert OccursAt(p, p, 0);
  }

  lemma ContainsWider(a: string, c: string, b: string, p: string)
    requires Contains(c, p)
    ensures Contains(a + c + b, p)
  {
    var i: nat :| OccursAt(c, p, i);
    assert (a + c + b)[|a| + i..|a| + i + |p|] == c[i..i + |p|];
    assert OccursAt(a + c + b, p, |a| + i);
  }

  lemma ContainsAll(c: string, p: string)
    ensures Contains(c + p, p)
    ensures forall q :: Contains(c, q) ==> Contains(c + p, q)
  {
    ContainsSelf(p);
    ContainsWider(c, p, "", p);
    assert c + p + "" == c + p;
    forall q | Contains(c, q) ensures Contains(c + p, q) {
      ContainsWider("", c, p, q);
      assert "" + c + p == c + p;
    }
  }

  // ---- the separators ----

  datatype Separator = Sentence | Punctuation

  // A zero-width match of the separator just before position p.
  predicate CutAt(separator: Separator, text: string, p: nat)
    requires p <= |text|
  {
    match separator
    case Sentence =>
      || (p >= 1 && text[p - 1] in ['\U{3002}', '\U{ff01}', '\U{ff1f}', '\U{ff1b}'])
      || (p >= 2 && text[p - 2] in ['.', '!', '?', ';'] && IsSpace(text[p - 1]))
    case Punctuation =>
      p >= 1 && text[p - 1] in ['\U{ff0c}', '\U{3001}', '\U{ff1a}', ':', ',']
  }

  // re.split on zero-width matches, from position p with the current piece begun at start.
  function Divide(separator: Separator, text: string, start: nat, p: nat): seq<string>
    requires start <= p <= |text| + 1 && start <= |text|
    decreases |text| + 1 - p
  {
    if p > |text| then [text[start..]]
    else if CutAt(separator, text, p) then [text[start..p]] + Divide(separator, text, p, p + 1)
    else Divide(separator, text, start, p + 1)
  }

  lemma {:induction false} DividingKeepsContent(separator: Separator, text: string, start: nat, p: nat)
    requires start <= p <= |text| + 1 && start <= |text|
    ensures Content(Divide(separator, text, start, p)) == NonSpace(text[start..])
    decreases |text| + 1 - p
  {
    hide CutAt, Content, NonSpace;
    if p > |text| {
      ContentCons(text[start..], []);
    } else if CutAt(separator, text, p) {
      DividingKeepsContent(separator, text, p, p + 1);
      ContentCons(text[start..p], Divide(separator, text, p, p + 1));
      assert text[start..] == text[start..p] + text[p..];
      NonSpaceConcat(text[start..p], text[p..]);
    } else {
      DividingKeepsContent(separator, text, start, p + 1);
    }
  }

  // The pieces lie between the bounds, one after the other from start to the end of the text.
  ghost predicate Between(text: string, start: nat, pieces: seq<string>, bounds: seq<nat>) {
    && pieces != [] && |bounds| == |pieces| + 1 && bounds[0] == start && bounds[|pieces|] == |text|
    && forall k: nat :: k < |pieces| ==> Slice(text, pieces, bounds, k)
  }

  predicate Slice(text: string, pieces: seq<string>, bounds: seq<nat>, k: nat)
    requires k < |pieces| && |bounds| == |pieces| + 1
  {
    bounds[k] <= bounds[k + 1] <= |text| && pieces[k] == text[bounds[k]..bounds[k + 1]]
  }

  // The inner bounds are exactly the separators from p on.
  ghost predicate BoundsAreCuts(separator: Separator, text: string, p: nat, bounds: seq<nat>) {
    |bounds| >= 2 && forall q: nat :: q in Inner(bounds) <==> CutFrom(separator, text, p, q)
  }

  function Inner(bounds: seq<nat>): seq<nat>
    requires |bounds| >= 2
  {
    bounds[1..|bounds| - 1]
  }

  predicate CutFrom(separator: Separator, text: string, p: nat, q: nat) {
    p <= q <= |text| && CutAt(separator, text, q)
  }

  ghost predicate CutExactly(separator: Separator, text: string, start: nat, p: nat, pieces: seq<string>) {
    exists bounds :: Between(text, start, pieces, bounds) && BoundsAreCuts(separator, text, p, bounds)
  }

  lemma OnePiece(text: string, start: nat)
    requires start <= |text|
    ensures Between(text, start, [text[start..]], [start, |text|])
  {
  }

  lemma PieceBefore(text: string, start: nat, p: nat, pieces: seq<string>, bounds: seq<nat>)
    requires start <= p <= |text| && Between(text, p, pieces, bounds)
    ensures Between(text, start, [text[start..p]] + pieces, [start] + bounds)
  {
    var all, more := [text[start..p]] + pieces, [start] + bounds;
    forall k: nat | k < |all| ensures Slice(text, all, more, k) {
      if k > 0 {
        assert Slice(text, pieces, bounds, k - 1);
        assert all[k] == pieces[k - 1] && more[k] == bounds[k - 1] && more[k + 1] == bounds[k];
      }
    }
  }

  lemma CutBefore(separator: Separator, text: string, start: nat, p: nat, bounds: seq<nat>)
    requires p <= |text| && CutAt(separator, text, p) && BoundsAreCuts(separator, text, p + 1, bounds) && bounds[0] == p
    ensures BoundsAreCuts(separator, text, p, [start] + bounds)
  {
    hide CutAt;
    assert Inner([start] + bounds) == [p] + Inner(bounds);
    forall q: nat ensures CutFrom(separator, text, p, q) <==> q == p || CutFrom(separator, text, p + 1, q) {
    }
  }

  lemma NoCutHere(separator: Separator, text: string, p: nat, bounds: seq<nat>)
    requires p > |text| || !CutAt(separator, text, p)
    requires BoundsAreCuts(separator, text, p + 1, bounds)
    ensures BoundsAreCuts(separator, text, p, bounds)
  {
    hide CutAt;
    forall q: nat ensures CutFrom(separator, text, p, q) <==> CutFrom(separator, text, p + 1, q) {
    }
  }

  lemma NoCuts(separator: Separator, text: string, p: nat, start: nat)
    requires p > |text|
    ensures BoundsAreCuts(separator, text, p, [start, |text|])
  {
  }

  // A text is cut exactly at its separators, and nothing of it is lost or moved.
  lemma {:induction false} DividesAtCuts(separator: Separator, text: string, start: nat, p: nat)
    requires start <= p <= |text| + 1 && start <= |text|
    ensures CutExactly(separator, text, start, p, Divide(separator, text, start, p))
    decreases |text| + 1 - p
  {
    hide CutAt, Between, BoundsAreCuts;
    if p > |text| {
      OnePiece(text, start);
      NoCuts(separator, text, p, start);
    } else if CutAt(separator, text, p) {
      DividesAtCuts(separator, text, p, p + 1);
      var rest := Divide(separator, text, p, p + 1);
      var bounds: seq<nat> :| Between(text, p, rest, bounds) && BoundsAreCuts(separator, text, p + 1, bounds);
      PieceBefore(text, start, p, rest, bounds);
      FirstBound(text, p, rest, bounds);
      CutBefore(separator, text, start, p, bounds);
    } else {
      DividesAtCuts(separator, text, start, p + 1);
      var bounds: seq<nat> :| Between(text, start, Divide(separator, text, start, p + 1), bounds) && BoundsAreCuts(separator, text, p + 1, bounds);
      NoCutHere(separator, text, p, bounds);
    }
  }

  lemma FirstBound(text: string, start: nat, pieces: seq<string>, bounds: seq<nat>)
    requires Between(text, start, pieces, bounds)
    ensures bounds != [] && bounds[0] == start
  {
  }

  // The last line feed of a run of whitespace that starts at i, where one is seen already at `found`.
  function LastFeed(text: string, i: nat, found: nat): nat
    decreases |text| - i
  {
    if i >= |text| || !IsSpace(text[i]) then found
    else LastFeed(text, i + 1, if text[i] == '\n' then i else found)
  }

  lemma BlankPrefix(s: string, n: nat)
    requires n <= |s| && Blank(s)
    ensures Blank(s[..n])
  {
  }

  lemma {:induction false} LastFeedFacts(text: string, from: nat, i: nat, found: nat)
    requires from <= found < i <= |text| && Blank(text[from..i])
    ensures found <= LastFeed(text, i, found) < |text| && Blank(text[from..LastFeed(text, i, found) + 1])
    decreases |text| - i
  {
    BlankPrefix(text[from..i], found + 1 - from);
    assert text[from..i][..found + 1 - from] == text[from..found + 1];
    if i < |text| && IsSpace(text[i]) {
      assert text[from..i + 1] == text[from..i] + [text[i]];
      LastFeedFacts(text, from, i + 1, if text[i] == '\n' then i else found);
    }
  }

  // Where a paragraph separator that begins at i ends: a line feed, whitespace, and a last line feed.
  function SeparatorEnd(text: string, i: nat): (end: nat)
    requires i < |text|
    ensures end > i ==> end <= |text| && Blank(text[i..end])
    ensures end >= i
  {
    if text[i] != '\n' then i
    else
      LastFeedFacts(text, i, i + 1, i);
      var last := LastFeed(text, i + 1, i);
      if last == i then i else last + 1
  }

  // From i to j: a line feed, whitespace, a line feed.
  predicate IsSeparator(text: string, i: nat, j: nat) {
    i + 2 <= j <= |text| && text[i] == '\n' && text[j - 1] == '\n' && Blank(text[i..j])
  }

  lemma BlankAt(text: string, from: nat, end: nat, i: nat)
    requires from <= i && end <= |text| && from <= end && Blank(text[from..end])
    ensures i < end ==> IsSpace(text[i])
  {
    if i < end {
      assert text[from..end][i - from] == text[i];
    }
  }

  lemma {:induction false} LastFeedIsLast(text: string, from: nat, i: nat, found: nat)
    requires from <= found < i <= |text| && Blank(text[from..i]) && text[found] == '\n'
    requires forall q :: found < q < i ==> text[q] != '\n'
    ensures var last := LastFeed(text, i, found);
            && found <= last < |text| && text[last] == '\n'
            && forall q :: last < q < |text| && Blank(text[from..q + 1]) ==> text[q] != '\n'
    decreases |text| - i
  {
    if i < |text| && IsSpace(text[i]) {
      assert text[from..i + 1] == text[from..i] + [text[i]];
      LastFeedIsLast(text, from, i + 1, if text[i] == '\n' then i else found);
    } else {
      forall q | found < q < |text| && Blank(text[from..q + 1]) ensures text[q] != '\n' {
        BlankAt(text, from, q + 1, i);
      }
    }
  }

  // A separator is found where one begins, and taken as long as it is.
  lemma SeparatorMeaning(text: string, i: nat)
    requires i < |text|
    ensures SeparatorEnd(text, i) > i ==> IsSeparator(text, i, SeparatorEnd(text, i))
    ensures forall j: nat :: IsSeparator(text, i, j) ==> j <= SeparatorEnd(text, i)
  {
    if text[i] == '\n' {
      LastFeedFacts(text, i, i + 1, i);
      LastFeedIsLast(text, i, i + 1, i);
    }
  }

  // No separator begins from i up to j.
  ghost predicate Unbroken(text: string, i: nat, j: nat) {
    forall q: nat :: i <= q < j && q < |text| ==> SeparatorEnd(text, q) == q
  }

  // Piece k lies from froms[k] to ends[k], has no separator in it, and one between it and the next.
  ghost predicate PieceAt(text: string, i: nat, pieces: seq<string>, froms: seq<nat>, ends: seq<nat>, k: nat)
    requires k < |pieces| == |froms| == |ends|
  {
    && froms[k] <= ends[k] <= |text| && pieces[k] == text[froms[k]..ends[k]]
    && Unbroken(text, if k == 0 then i else froms[k], ends[k])
    && if k == |pieces| - 1 then ends[k] == |text| else ends[k] < |text| && SeparatorEnd(text, ends[k]) == froms[k + 1] > ends[k]
  }

  ghost predicate PiecesAt(text: string, start: nat, i: nat, pieces: seq<string>, froms: seq<nat>, ends: seq<nat>) {
    && pieces != [] && |pieces| == |froms| == |ends| && froms[0] == start
    && forall k: nat :: k < |pieces| ==> PieceAt(text, i, pieces, froms, ends, k)
  }

  ghost predicate SplitExactly(text: string, start: nat, i: nat, pieces: seq<string>) {
    exists froms, ends :: PiecesAt(text, start, i, pieces, froms, ends)
  }

  lemma PieceFirst(text: string, start: nat, i: nat, pieces: seq<string>, froms: seq<nat>, ends: seq<nat>)
    requires start <= i < |text| && SeparatorEnd(text, i) > i
    requires PiecesAt(text, SeparatorEnd(text, i), SeparatorEnd(text, i), pieces, froms, ends)
    ensures PiecesAt(text, start, i, [text[start..i]] + pieces, [start] + froms, [i] + ends)
  {
    hide SeparatorEnd, Unbroken;
    var all, begins, stops := [text[start..i]] + pieces, [start] + froms, [i] + ends;
    NothingBroken(text, i);
    forall k: nat | k < |all| ensures PieceAt(text, i, all, begins, stops, k) {
      if k > 0 {
        assert PieceAt(text, SeparatorEnd(text, i), pieces, froms, ends, k - 1);
        assert all[k] == pieces[k - 1] && begins[k] == froms[k - 1] && stops[k] == ends[k - 1];
        assert k < |all| - 1 ==> begins[k + 1] == froms[k];
      }
    }
  }

  lemma NothingBroken(text: string, i: nat)
    ensures Unbroken(text, i, i)
  {
  }

  lemma PieceLonger(text: string, start: nat, i: nat, pieces: seq<string>, froms: seq<nat>, ends: seq<nat>)
    requires i < |text| && SeparatorEnd(text, i) == i && PiecesAt(text, start, i + 1, pieces, froms, ends)
    ensures PiecesAt(text, start, i, pieces, froms, ends)
  {
    hide SeparatorEnd, Unbroken;
    forall k: nat | k < |pieces| ensures PieceAt(text, i, pieces, froms, ends, k) {
      assert PieceAt(text, i + 1, pieces, froms, ends, k);
      UnbrokenFrom(text, i, ends[k]);
    }
  }

  lemma UnbrokenFrom(text: string, i: nat, j: nat)
    requires i < |text| && SeparatorEnd(text, i) == i
    ensures Unbroken(text, i + 1, j) ==> Unbroken(text, i, j)
  {
    hide SeparatorEnd;
  }

  // A text is split exactly at its separators, the first one first and as long as it is.
  lemma {:induction false} SplitsAtSeparators(text: string, start: nat, i: nat)
    requires start <= i <= |text|
    ensures SplitExactly(text, start, i, Paragraphs(text, start, i))
    decreases |text| - i
  {
    hide SeparatorEnd, PiecesAt;
    if i == |text| {
      OneParagraph(text, start);
    } else {
      var end := SeparatorEnd(text, i);
      if end > i {
        SplitsAtSeparators(text, end, end);
        var rest := Paragraphs(text, end, end);
        var froms: seq<nat>, ends: seq<nat> :| PiecesAt(text, end, end, rest, froms, ends);
        PieceFirst(text, start, i, rest, froms, ends);
      } else {
        SplitsAtSeparators(text, start, i + 1);
        var froms: seq<nat>, ends: seq<nat> :| PiecesAt(text, start, i + 1, Paragraphs(text, start, i + 1), froms, ends);
        PieceLonger(text, start, i, Paragraphs(text, start, i + 1), froms, ends);
      }
    }
  }

  lemma OneParagraph(text: string, start: nat)
    requires start <= |text|
    ensures PiecesAt(text, start, |text|, [text[start..]], [start], [|text|])
  {
  }

  // _split_paragraphs before stripping.
  function Paragraphs(text: string, start: nat, i: nat): seq<string>
    requires start <= i <= |text|
    decreases |text| - i
  {
    if i == |text| then [text[start..]]
    else
      var end := SeparatorEnd(text, i);
      if end > i then [text[start..i]] + Paragraphs(text, end, end) else Paragraphs(text, start, i + 1)
  }

  lemma {:induction false} ParagraphsKeepContent(text: string, start: nat, i: nat)
    requires start <= i <= |text|
    ensures Content(Paragraphs(text, start, i)) == NonSpace(text[start..])
    decreases |text| - i
  {
    hide SeparatorEnd, Content, NonSpace, Blank;
    if i == |text| {
      ContentCons(text[start..], []);
    } else {
      var end := SeparatorEnd(text, i);
      if end > i {
        ParagraphsKeepContent(text, end, end);
        ContentCons(text[start..i], Paragraphs(text, end, end));
        assert text[start..] == text[start..i] + (text[i..end] + text[end..]);
        NonSpaceConcat(text[start..i], text[i..end] + text[end..]);
        NonSpaceConcat(text[i..end], text[end..]);
        NonSpaceBlank(text[i..end]);
      } else {
        ParagraphsKeepContent(text, start, i + 1);
      }
    }
  }

  // ---- normalisation ----

  function WithoutReturns(s: string): string {
    if |s| >= 2 && s[0] == '\r' && s[1] == '\n' then "\n" + WithoutReturns(s[2..])
    else if s == "" then "" else [s[0]] + WithoutReturns(s[1..])
  }

  function WithoutWideSpaces(s: string): string {
    if s == "" then "" else [if s[0] == '\U{3000}' then ' ' else s[0]] + WithoutWideSpaces(s[1..])
  }

  // Runs of spaces and tabs become one space; `open` says a run is being read.
  function Collapsed(s: string, open: bool): string {
    if s == "" then ""
    else if s[0] == ' ' || s[0] == '\t' then (if open then "" else " ") + Collapsed(s[1..], true)
    else [s[0]] + Collapsed(s[1..], false)
  }

  function Normalize(s: string): string {
    Strip(Collapsed(WithoutWideSpaces(WithoutReturns(s)), false))
  }

  lemma NonSpaceHead(c: char, rest: string)
    ensures NonSpace([c] + rest) == (if IsSpace(c) then "" else [c]) + NonSpace(rest)
  {
    assert ([c] + rest)[1..] == rest;
  }

  lemma {:induction false} ReturnsAreSpace(s: string)
    ensures NonSpace(WithoutReturns(s)) == NonSpace(s)
  {
    if |s| >= 2 && s[0] == '\r' && s[1] == '\n' {
      ReturnsAreSpace(s[2..]);
      NonSpaceHead('\n', WithoutReturns(s[2..]));
      assert s[1..][1..] == s[2..];
    } else if s != "" {
      ReturnsAreSpace(s[1..]);
      NonSpaceHead(s[0], WithoutReturns(s[1..]));
    }
  }

  lemma {:induction false} WideSpacesAreSpace(s: string)
    ensures NonSpace(WithoutWideSpaces(s)) == NonSpace(s)
  {
    if s != "" {
      WideSpacesAreSpace(s[1..]);
      NonSpaceHead(if s[0] == '\U{3000}' then ' ' else s[0], WithoutWideSpaces(s[1..]));
    }
  }

  lemma {:induction false} CollapsingIsSpace(s: string, open: bool)
    ensures NonSpace(Collapsed(s, open)) == NonSpace(s)
  {
    if s != "" {
      if s[0] == ' ' || s[0] == '\t' {
        CollapsingIsSpace(s[1..], true);
        NonSpaceHead(' ', Collapsed(s[1..], true));
        assert "" + Collapsed(s[1..], true) == Collapsed(s[1..], true);
      } else {
        CollapsingIsSpace(s[1..], false);
        NonSpaceHead(s[0], Collapsed(s[1..], false));
      }
    }
  }

  // Normalising loses no content.
  lemma NormalizeKeepsContent(s: string)
    ensures NonSpace(Normalize(s)) == NonSpace(s)
  {
    var t := WithoutReturns(s);
    var u := WithoutWideSpaces(t);
    ReturnsAreSpace(s);
    WideSpacesAreSpace(t);
    CollapsingIsSpace(u, false);
    NonSpaceStrip(Collapsed(u, false));
  }

  // What normalising leaves: no tab, no wide space and no two spaces in a row, and nothing to strip.
  predicate NormalForm(s: string) {
    Even(s) && Strip(s) == s
  }

  predicate Even(s: string) {
    && (forall i :: 0 <= i < |s| ==> s[i] != '\t' && s[i] != '\U{3000}')
    && (forall i :: 0 <= i < |s| - 1 ==> !(s[i] == ' ' && s[i + 1] == ' '))
  }

  lemma EvenHead(c: char, rest: string)
    requires Even(rest) && c != '\t' && c != '\U{3000}' && (c == ' ' && rest != "" ==> rest[0] != ' ')
    ensures Even([c] + rest)
  {
    var s := [c] + rest;
    assert forall i :: 1 <= i < |s| ==> s[i] == rest[i - 1];
  }

  lemma {:induction false} NoWideSpaces(s: string)
    ensures '\U{3000}' !in WithoutWideSpaces(s)
  {
    if s != "" {
      NoWideSpaces(s[1..]);
    }
  }

  lemma {:induction false} CollapsedIsEven(s: string, open: bool)
    requires '\U{3000}' !in s
    ensures Even(Collapsed(s, open))
    ensures open && Collapsed(s, open) != "" ==> Collapsed(s, open)[0] != ' '
  {
    if s != "" {
      assert forall c :: c in s[1..] ==> c in s;
      if s[0] == ' ' || s[0] == '\t' {
        CollapsedIsEven(s[1..], true);
        EvenHead(' ', Collapsed(s[1..], true));
        assert "" + Collapsed(s[1..], true) == Collapsed(s[1..], true);
      } else {
        CollapsedIsEven(s[1..], false);
        assert s[0] in s;
        EvenHead(s[0], Collapsed(s[1..], false));
      }
    }
  }

  lemma EvenPart(s: string, i: nat, j: nat)
    requires Even(s) && i <= j <= |s|
    ensures Even(s[i..j])
  {
  }

  lemma {:induction false} EvenTrimLeft(s: string)
    requires Even(s)
    ensures Even(TrimLeft(s))
  {
    if s != "" && IsSpace(s[0]) {
      EvenPart(s, 1, |s|);
      assert s[1..|s|] == s[1..];
      EvenTrimLeft(s[1..]);
    }
  }

  lemma {:induction false} EvenTrimRight(s: string)
    requires Even(s)
    ensures Even(TrimRight(s))
  {
    if s != "" && IsSpace(s[|s| - 1]) {
      EvenPart(s, 0, |s| - 1);
      assert s[0..|s| - 1] == s[..|s| - 1];
      EvenTrimRight(s[..|s| - 1]);
    }
  }

  lemma NormalizeGivesNormalForm(s: string)
    ensures NormalForm(Normalize(s))
  {
    var t := Collapsed(WithoutWideSpaces(WithoutReturns(s)), false);
    NoWideSpaces(WithoutReturns(s));
    CollapsedIsEven(WithoutWideSpaces(WithoutReturns(s)), false);
    EvenTrimLeft(t);
    EvenTrimRight(TrimLeft(t));
    StripFacts(t);
  }

  lemma {:induction false} NothingReturned(s: string)
    requires forall i :: 0 <= i < |s| - 1 ==> !(s[i] == '\r' && s[i + 1] == '\n')
    ensures WithoutReturns(s) == s
  {
    if s != "" {
      assert forall i :: 0 <= i < |s[1..]| ==> s[1..][i] == s[i + 1];
      NothingReturned(s[1..]);
      assert s == [s[0]] + s[1..];
    }
  }

  lemma {:induction false} NothingWide(s: string)
    requires '\U{3000}' !in s
    ensures WithoutWideSpaces(s) == s
  {
    if s != "" {
      assert s[0] in s && forall c :: c in s[1..] ==> c in s;
      NothingWide(s[1..]);
      assert s == [s[0]] + s[1..];
    }
  }

  lemma {:induction false} NothingCollapsed(s: string, open: bool)
    requires Even(s) && (open && s != "" ==> s[0] != ' ')
    ensures Collapsed(s, open) == s
  {
    if s != "" {
      assert forall i :: 0 <= i < |s[1..]| ==> s[1..][i] == s[i + 1];
      NothingCollapsed(s[1..], s[0] == ' ');
      assert s == [s[0]] + s[1..];
    }
  }

  // Normalising leaves a text in normal form, and one that is, with no carriage return before a line feed, as it is.
  lemma NormalizeKeepsNormalForm(s: string)
    requires NormalForm(s) && forall i :: 0 <= i < |s| - 1 ==> !(s[i] == '\r' && s[i + 1] == '\n')
    ensures Normalize(s) == s
  {
    NothingReturned(s);
    NothingWide(s);
    NothingCollapsed(s, false);
  }

  // ---- stripping and dropping blank pieces ----

  function Stripped(pieces: seq<string>): seq<string> {
    if pieces == [] then []
    else Stripped(pieces[..|pieces| - 1]) + if Strip(pieces[|pieces| - 1]) == "" then [] else [Strip(pieces[|pieces| - 1])]
  }

  lemma {:induction false} StrippedKeepsContent(pieces: seq<string>)
    ensures Content(Stripped(pieces)) == Content(pieces)
    ensures forall p :: p in Stripped(pieces) ==> p != ""
  {
    if pieces != [] {
      var front, last := pieces[..|pieces| - 1], pieces[|pieces| - 1];
      StrippedKeepsContent(front);
      NonSpaceStrip(last);
      if Strip(last) == "" {
        assert Stripped(pieces) == Stripped(front);
      } else {
        ContentAppend(Stripped(front), Strip(last));
      }
    }
  }

  // The pieces that are not blank, in their order, each stripped.
  ghost predicate StrippedAt(pieces: seq<string>, stripped: seq<string>, at: seq<nat>) {
    && |at| == |stripped|
    && (forall k, l :: 0 <= k < l < |at| ==> at[k] < at[l])
    && (forall i: nat :: i in at <==> i < |pieces| && !Blank(pieces[i]))
    && forall k :: 0 <= k < |at| ==> at[k] < |pieces| && stripped[k] == Strip(pieces[at[k]]) && Clean(stripped[k])
  }

  ghost predicate StripsExactly(pieces: seq<string>, stripped: seq<string>) {
    exists at: seq<nat> :: StrippedAt(pieces, stripped, at)
  }

  lemma StrippedMore(pieces: seq<string>, stripped: seq<string>, at: seq<nat>, p: string)
    requires StrippedAt(pieces, stripped, at)
    ensures Blank(p) ==> StrippedAt(pieces + [p], stripped, at)
    ensures !Blank(p) ==> StrippedAt(pieces + [p], stripped + [Strip(p)], at + [|pieces|])
  {
    hide Strip, Blank;
    StripFacts(p);
    var more := pieces + [p];
    assert forall i :: 0 <= i < |pieces| ==> more[i] == pieces[i];
    assert forall i: nat :: i in at + [|pieces|] <==> i in at || i == |pieces|;
  }

  lemma StrippedStep(pieces: seq<string>, stripped: seq<string>, p: string)
    requires StripsExactly(pieces, stripped)
    ensures StripsExactly(pieces + [p], stripped + if Strip(p) == "" then [] else [Strip(p)])
  {
    hide Strip, Blank, StrippedAt;
    var at: seq<nat> :| StrippedAt(pieces, stripped, at);
    StripFacts(p);
    StrippedMore(pieces, stripped, at, p);
    assert stripped + [] == stripped;
  }

  lemma {:induction false} StrippingKeepsTheRest(pieces: seq<string>)
    ensures StripsExactly(pieces, Stripped(pieces))
  {
    hide StripsExactly, Strip;
    if pieces == [] {
      NothingStripped();
    } else {
      var front, last := pieces[..|pieces| - 1], pieces[|pieces| - 1];
      StrippingKeepsTheRest(front);
      StrippedStep(front, Stripped(front), last);
      assert front + [last] == pieces;
    }
  }

  lemma NothingStripped()
    ensures StripsExactly([], [])
  {
    assert StrippedAt([], [], []);
  }

  // ---- what each level keeps in one piece ----

  function Pieces(sentence: string): seq<string> {
    Divide(Punctuation, sentence, 0, 0)
  }

  function Sentences(paragraph: string): seq<string> {
    Stripped(Divide(Sentence, paragraph, 0, 0))
  }

  function ParagraphsOf(text: string): seq<string> {
    Stripped(Paragraphs(text, 0, 0))
  }

  // Of a sentence too long to keep, every piece between secondary punctuation that fits is kept.
  ghost predicate KeepsPieces(chunks: seq<string>, sentence: string, size: nat) {
    forall u :: u in Pieces(sentence) && 0 < |u| <= size ==> Kept(chunks, u)
  }

  // Of a paragraph too long to keep, every sentence that fits is kept, and the pieces of those that do not.
  ghost predicate KeepsSentences(chunks: seq<string>, paragraph: string, size: nat) {
    forall s :: s in Sentences(paragraph) ==> if |s| <= size then Kept(chunks, s) else KeepsPieces(chunks, s, size)
  }

  // Every paragraph that fits is kept, and the sentences of those that do not.
  ghost predicate KeepsParagraphs(chunks: seq<string>, text: string, size: nat) {
    forall p :: p in ParagraphsOf(text) ==> if |p| <= size then Kept(chunks, p) else KeepsSentences(chunks, p, size)
  }

  function NonEmpty(texts: seq<string>): seq<string> {
    if texts == [] then []
    else NonEmpty(texts[..|texts| - 1]) + if texts[|texts| - 1] == "" then [] else [texts[|texts| - 1]]
  }

  lemma NonEmptyStep(texts: seq<string>, i: nat)
    requires i < |texts|
    ensures NonEmpty(texts[..i + 1]) == if texts[i] == "" then NonEmpty(texts[..i]) else NonEmpty(texts[..i]) + [texts[i]]
  {
    assert texts[..i + 1][..i] == texts[..i];
    assert NonEmpty(texts[..i]) + [] == NonEmpty(texts[..i]);
  }

  lemma NoneEmpty()
    ensures NonEmpty([]) == []
  {
  }

  // A sentence too long for a chunk: its pieces packed as tightly as they come, those too long sliced.
  ghost predicate PacksPieces(sentence: string, chunks: seq<string>, size: nat) {
    exists runs :: Packed(NonEmpty(Pieces(sentence)), chunks, "", size, runs) && ApartAreSliced(runs, size)
  }

  // A paragraph too long for a chunk: its sentences packed as tightly as they come, those too long by pieces.
  ghost predicate PacksSentences(paragraph: string, chunks: seq<string>, size: nat) {
    exists runs :: Packed(Sentences(paragraph), chunks, "", size, runs) && ApartAreByPieces(runs, size)
  }

  // A text: its paragraphs packed as tightly as they come with blank lines between, those too long by sentences.
  ghost predicate PacksParagraphs(text: string, chunks: seq<string>, size: nat) {
    exists runs :: Packed(ParagraphsOf(text), chunks, "\n\n", size, runs) && ApartAreBySentences(runs, size)
  }

  predicate ApartAreSliced(runs: seq<Run>, size: nat) {
    forall r :: r in runs && r.Apart? ==> Slices(r.text, r.parts, size)
  }

  ghost predicate ApartAreByPieces(runs: seq<Run>, size: nat) {
    forall r :: r in runs && r.Apart? ==> PacksPieces(r.text, r.parts, size)
  }

  ghost predicate ApartAreBySentences(runs: seq<Run>, size: nat) {
    forall r :: r in runs && r.Apart? ==> PacksSentences(r.text, r.parts, size)
  }

  // More texts in runs of their own or in those there are leave what stands apart as it is.
  lemma ApartStays(runs: seq<Run>, grown: seq<Run>, size: nat)
    requires forall r :: r in grown && r.Apart? ==> r in runs
    ensures ApartAreSliced(runs, size) ==> ApartAreSliced(grown, size)
    ensures ApartAreByPieces(runs, size) ==> ApartAreByPieces(grown, size)
    ensures ApartAreBySentences(runs, size) ==> ApartAreBySentences(grown, size)
  {
    hide PacksPieces, PacksSentences, Slices;
  }

  lemma ApartMore(runs: seq<Run>, t: string, parts: seq<string>, size: nat)
    ensures ApartAreSliced(runs, size) && Slices(t, parts, size) ==> ApartAreSliced(runs + [Apart(t, parts)], size)
    ensures ApartAreByPieces(runs, size) && PacksPieces(t, parts, size) ==> ApartAreByPieces(runs + [Apart(t, parts)], size)
    ensures ApartAreBySentences(runs, size) && PacksSentences(t, parts, size) ==> ApartAreBySentences(runs + [Apart(t, parts)], size)
  {
    hide PacksPieces, PacksSentences, Slices;
  }

  lemma NothingApart(size: nat)
    ensures ApartAreSliced([], size) && ApartAreByPieces([], size) && ApartAreBySentences([], size)
  {
  }

  lemma NextBuffer(buf: string, t: string)
    ensures buf + t == if buf == "" then t else buf + "" + t
  {
    assert buf + "" == buf;
  }

  // Every chunk of the first list lies in one of the second.
  ghost predicate Covered(chunks: seq<string>, wider: seq<string>) {
    forall c :: c in chunks ==> Kept(wider, c)
  }

  lemma ContainsTrans(a: string, b: string, c: string)
    requires Contains(a, b) && Contains(b, c)
    ensures Contains(a, c)
  {
    var i: nat :| OccursAt(a, b, i);
    var j: nat :| OccursAt(b, c, j);
    var t := a[i + j..i + j + |c|];
    forall k | 0 <= k < |c| ensures t[k] == c[k] {
      assert t[k] == a[i..i + |b|][j + k] == b[j + k] == b[j..j + |c|][k];
    }
    assert OccursAt(a, c, i + j);
  }

  lemma KeptWider(chunks: seq<string>, wider: seq<string>, p: string)
    requires Covered(chunks, wider) && Kept(chunks, p)
    ensures Kept(wider, p)
  {
    var c :| c in chunks && Contains(c, p);
    assert Kept(wider, c);
    var w :| w in wider && Contains(w, c);
    ContainsTrans(w, c, p);
  }

  lemma CoveredMore(chunks: seq<string>, more: seq<string>)
    ensures Covered(chunks, chunks + more) && Covered(more, chunks + more)
  {
    forall c | c in chunks || c in more ensures Kept(chunks + more, c) {
      ContainsSelf(c);
      assert c in chunks + more;
    }
  }

  lemma KeepsPiecesWider(chunks: seq<string>, wider: seq<string>, sentence: string, size: nat)
    requires Covered(chunks, wider) && KeepsPieces(chunks, sentence, size)
    ensures KeepsPieces(wider, sentence, size)
  {
    forall u | u in Pieces(sentence) && 0 < |u| <= size ensures Kept(wider, u) {
      KeptWider(chunks, wider, u);
    }
  }

  lemma KeepsSentencesWider(chunks: seq<string>, wider: seq<string>, paragraph: string, size: nat)
    requires Covered(chunks, wider) && KeepsSentences(chunks, paragraph, size)
    ensures KeepsSentences(wider, paragraph, size)
  {
    forall s | s in Sentences(paragraph) ensures if |s| <= size then Kept(wider, s) else KeepsPieces(wider, s, size) {
      if |s| <= size {
        KeptWider(chunks, wider, s);
      } else {
        KeepsPiecesWider(chunks, wider, s, size);
      }
    }
  }

  lemma KeepsParagraphsWider(chunks: seq<string>, wider: seq<string>, text: string, size: nat)
    requires Covered(chunks, wider) && KeepsParagraphs(chunks, text, size)
    ensures KeepsParagraphs(wider, text, size)
  {
    forall p | p in ParagraphsOf(text) ensures if |p| <= size then Kept(wider, p) else KeepsSentences(wider, p, size) {
      if |p| <= size {
        KeptWider(chunks, wider, p);
      } else {
        KeepsSentencesWider(chunks, wider, p, size);
      }
    }
  }

  // ---- the buffer ----

  lemma SealedContent(chunks: seq<string>, buf: string)
    ensures Content(Sealed(chunks, buf)) == Content(chunks) + NonSpace(buf)
  {
    ContentAppend(chunks, buf);
  }

  lemma SealedFacts(chunks: seq<string>, buf: string, size: nat)
    requires Sized(chunks, size) && |buf| <= size
    ensures Sized(Sealed(chunks, buf), size)
    ensures Content(Sealed(chunks, buf)) == Content(chunks) + NonSpace(buf)
  {
    ContentAppend(chunks, buf);
  }

  lemma SealedHas(chunks: seq<string>, buf: string)
    ensures Covered(chunks, Sealed(chunks, buf))
    ensures buf != "" ==> Kept(Sealed(chunks, buf), buf)
  {
    CoveredMore(chunks, []);
    CoveredMore(chunks, [buf]);
    assert chunks + [] == chunks;
    assert buf in [buf];
  }

  // Growing the buffer at its end keeps what was kept.
  lemma SealedGrows(chunks: seq<string>, buf: string, joint: string, p: string)
    requires p != ""
    ensures Covered(Sealed(chunks, buf), Sealed(chunks, buf + joint + p)) && Kept(Sealed(chunks, buf + joint + p), p)
  {
    hide Kept, Contains;
    var grown := buf + joint + p;
    SealedHas(chunks, grown);
    InGrown(buf, joint, p);
    forall c | c in Sealed(chunks, buf) || c == p ensures Kept(Sealed(chunks, grown), c) {
      if c in chunks {
      } else {
        HoldsPart(Sealed(chunks, grown), grown, c);
      }
    }
  }

  lemma InGrown(buf: string, joint: string, p: string)
    ensures Contains(buf + joint + p, p) && Contains(buf + joint + p, buf)
  {
    ContainsAll(buf + joint, p);
    ContainsAll(buf, joint);
    ContainsSelf(buf);
  }

  lemma HoldsPart(chunks: seq<string>, whole: string, part: string)
    requires Kept(chunks, whole) && Contains(whole, part)
    ensures Kept(chunks, part)
  {
    var c :| c in chunks && Contains(c, whole);
    ContainsTrans(c, whole, part);
  }

  // Sealing the buffer and starting another keeps what was kept.
  lemma SealedAnew(chunks: seq<string>, buf: string, p: string)
    requires p != ""
    ensures Covered(Sealed(chunks, buf), Sealed(Sealed(chunks, buf), p)) && Kept(Sealed(Sealed(chunks, buf), p), p)
  {
    SealedHas(Sealed(chunks, buf), p);
  }

  lemma PrefixContent(pieces: seq<string>, i: nat)
    requires i < |pieces|
    ensures Content(pieces[..i + 1]) == Content(pieces[..i]) + NonSpace(pieces[i])
  {
    assert pieces[..i + 1] == pieces[..i] + [pieces[i]];
    ContentAppend(pieces[..i], pieces[i]);
  }

  // The first i pieces are kept, as far as they fit.
  ghost predicate KeptUpTo(chunks: seq<string>, pieces: seq<string>, i: nat, size: nat)
    requires i <= |pieces|
  {
    forall j :: 0 <= j < i && 0 < |pieces[j]| <= size ==> Kept(chunks, pieces[j])
  }

  lemma KeptUpToWider(chunks: seq<string>, wider: seq<string>, pieces: seq<string>, i: nat, size: nat)
    requires i < |pieces| && KeptUpTo(chunks, pieces, i, size) && Covered(chunks, wider)
    requires 0 < |pieces[i]| <= size ==> Kept(wider, pieces[i])
    ensures KeptUpTo(wider, pieces, i + 1, size)
  {
    forall j | 0 <= j < i && 0 < |pieces[j]| <= size ensures Kept(wider, pieces[j]) {
      KeptWider(chunks, wider, pieces[j]);
    }
  }

  // A piece joins the buffer with nothing in between.
  lemma JoinStep(chunks: seq<string>, buf: string, p: string)
    requires p != ""
    ensures Covered(Sealed(chunks, buf), Sealed(chunks, buf + p)) && Kept(Sealed(chunks, buf + p), p)
    ensures Content(Sealed(chunks, buf + p)) == Content(Sealed(chunks, buf)) + NonSpace(p)
  {
    hide Covered, Kept, Sealed, NonSpace, Content;
    SealedGrows(chunks, buf, "", p);
    assert buf + "" + p == buf + p;
    NonSpaceConcat(buf, p);
    SealedContent(chunks, buf);
    SealedContent(chunks, buf + p);
  }

  // A piece begins a new buffer.
  lemma AnewStep(chunks: seq<string>, buf: string, p: string, size: nat)
    requires 0 < |p| <= size && Sized(chunks, size) && |buf| <= size
    ensures Covered(Sealed(chunks, buf), Sealed(Sealed(chunks, buf), p)) && Kept(Sealed(Sealed(chunks, buf), p), p)
    ensures Content(Sealed(Sealed(chunks, buf), p)) == Content(Sealed(chunks, buf)) + NonSpace(p)
    ensures Sized(Sealed(chunks, buf), size)
  {
    SealedAnew(chunks, buf, p);
    ContentAppend(Sealed(chunks, buf), p);
    SealedFacts(chunks, buf, size);
  }

  // The chunks of a piece too long to keep follow the sealed buffer.
  lemma ExtendStep(chunks: seq<string>, buf: string, more: seq<string>, size: nat)
    requires Sized(chunks, size) && |buf| <= size && Sized(more, size)
    ensures var after := Sealed(chunks, buf) + more;
            && Sealed(after, "") == after
            && Covered(Sealed(chunks, buf), after) && Covered(more, after)
            && Content(after) == Content(Sealed(chunks, buf)) + Content(more)
            && Sized(after, size)
  {
    CoveredMore(Sealed(chunks, buf), more);
    ContentConcat(Sealed(chunks, buf), more);
    SealedFacts(chunks, buf, size);
  }

  // The chunks of a text: its paragraphs packed and then the small chunks merged.
  ghost predicate SplitsInto(text: string, chunks: seq<string>, size: nat, min: nat) {
    if Normalize(text) == "" then chunks == []
    else exists split, groups :: PacksParagraphs(Normalize(text), split, size) && Merged(split, chunks, min, groups)
  }

  class AdaptiveChunker {
    const chunkSize: nat
    const minChunkSize: nat

    constructor (chunkSize: nat, minChunkSize: nat)
      ensures this.chunkSize == chunkSize && this.minChunkSize == minChunkSize
    {
      this.chunkSize := chunkSize;
      this.minChunkSize := minChunkSize;
    }

    // L4: slices of chunk_size characters.
    method HardCut(piece: string) returns (slices: seq<string>)
      requires chunkSize >= 1
      ensures Content(slices) == NonSpace(piece) && Sized(slices, chunkSize)
      ensures Slices(piece, slices, chunkSize)
    {
      hide Content, NonSpace, Join;
      slices := [];
      var i := 0;
      EmptyFacts(chunkSize);
      NothingJoined();
      assert piece[..0] == "";
      while i < |piece|
        invariant 0 <= i <= |piece|
        invariant Content(slices) == NonSpace(piece[..i]) && Sized(slices, chunkSize)
        invariant Join(slices, "") == piece[..i]
        invariant forall k :: 0 <= k < |slices| && (k < |slices| - 1 || i < |piece|) ==> |slices[k]| == chunkSize
      {
        var end := if i + chunkSize < |piece| then i + chunkSize else |piece|;
        ContentAppend(slices, piece[i..end]);
        SliceMore(slices, piece[i..end]);
        NonSpaceConcat(piece[..i], piece[i..end]);
        assert piece[..i] + piece[i..end] == piece[..end];
        slices := slices + [piece[i..end]];
        i := end;
      }
      assert piece[..i] == piece;
    }

    // L3: by secondary punctuation.
    method SplitByPunct(text: string) returns (chunks: seq<string>)
      requires chunkSize >= 1
      ensures Content(chunks) == NonSpace(text) && Sized(chunks, chunkSize)
      ensures KeepsPieces(chunks, text, chunkSize)
      ensures PacksPieces(text, chunks, chunkSize)
    {
      hide Content, Covered, Kept, NonSpace, CutAt, Sized, Packing, Packed, Slices, NonEmpty, ApartAreSliced;
      NoneEmpty();
      chunks := [];
      var buf := "";
      var pieces := Pieces(text);
      ghost var runs: seq<Run> := [];
      EmptyFacts(chunkSize);
      NothingPacked("", chunkSize);
      NothingApart(chunkSize);
      assert pieces[..0] == [];
      for i := 0 to |pieces|
        invariant Sized(chunks, chunkSize) && |buf| <= chunkSize
        invariant Content(Sealed(chunks, buf)) == Content(pieces[..i])
        invariant KeptUpTo(Sealed(chunks, buf), pieces, i, chunkSize)
        invariant Packing(NonEmpty(pieces[..i]), chunks, buf, "", chunkSize, runs) && ApartAreSliced(runs, chunkSize)
      {
        var piece := pieces[i];
        PrefixContent(pieces, i);
        NonEmptyStep(pieces, i);
        ghost var before := Sealed(chunks, buf);
        if piece == "" {
          BlankAdds(before, pieces, i, chunkSize);
          continue;
        }
        if |buf| + |piece| > chunkSize {
          if |piece| > chunkSize {
            var slices := HardCut(piece);
            ExtendStep(chunks, buf, slices, chunkSize);
            PackApart(NonEmpty(pieces[..i]), chunks, buf, "", chunkSize, runs, piece, slices);
            ApartMore(runs, piece, slices, chunkSize);
            runs := runs + [Apart(piece, slices)];
            chunks := Sealed(chunks, buf) + slices;
            buf := "";
          } else {
            AnewStep(chunks, buf, piece, chunkSize);
            PackAnew(NonEmpty(pieces[..i]), chunks, buf, "", chunkSize, runs, piece);
            ApartStays(runs, runs + [Together([piece])], chunkSize);
            runs := runs + [Together([piece])];
            chunks := Sealed(chunks, buf);
            buf := piece;
          }
        } else {
          JoinStep(chunks, buf, piece);
          NextBuffer(buf, piece);
          ghost var grown := PackNext(NonEmpty(pieces[..i]), chunks, buf, "", chunkSize, runs, piece);
          ApartStays(runs, grown, chunkSize);
          runs := grown;
          buf := buf + piece;
        }
        KeptUpToWider(before, Sealed(chunks, buf), pieces, i, chunkSize);
      }
      assert pieces[..|pieces|] == pieces;
      DividingKeepsContent(Punctuation, text, 0, 0);
      assert text[0..] == text;
      SealedFacts(chunks, buf, chunkSize);
      PackingEnds(NonEmpty(pieces), chunks, buf, "", chunkSize, runs);
      chunks := Sealed(chunks, buf);
    }

    // L2: by sentences; a sentence too long goes to L3.
    method SplitLong(paragraph: string) returns (chunks: seq<string>)
      requires chunkSize >= 1
      ensures Content(chunks) == NonSpace(paragraph) && Sized(chunks, chunkSize)
      ensures KeepsSentences(chunks, paragraph, chunkSize)
      ensures PacksSentences(paragraph, chunks, chunkSize)
    {
      hide Content, Covered, Kept, NonSpace, CutAt, Sized, KeepsPieces, Packing, Packed, PacksPieces, ApartAreByPieces, Divide, Stripped;
      chunks := [];
      var buf := "";
      var sentences := Sentences(paragraph);
      ghost var runs: seq<Run> := [];
      NothingPacked("", chunkSize);
      NothingApart(chunkSize);
      StrippedKeepsContent(Divide(Sentence, paragraph, 0, 0));
      EmptyFacts(chunkSize);
      assert sentences[..0] == [];
      for i := 0 to |sentences|
        invariant Sized(chunks, chunkSize) && |buf| <= chunkSize
        invariant Content(Sealed(chunks, buf)) == Content(sentences[..i])
        invariant SentencesUpTo(Sealed(chunks, buf), sentences, i, chunkSize)
        invariant Packing(sentences[..i], chunks, buf, "", chunkSize, runs) && ApartAreByPieces(runs, chunkSize)
      {
        var sentence := sentences[i];
        assert sentences[..i + 1] == sentences[..i] + [sentence];
        assert sentence in sentences;
        PrefixContent(sentences, i);
        ghost var before := Sealed(chunks, buf);
        if |sentence| > chunkSize {
          var more := SplitByPunct(sentence);
          ExtendStep(chunks, buf, more, chunkSize);
          PackApart(sentences[..i], chunks, buf, "", chunkSize, runs, sentence, more);
          ApartMore(runs, sentence, more, chunkSize);
            runs := runs + [Apart(sentence, more)];
          chunks := Sealed(chunks, buf) + more;
          buf := "";
          KeepsPiecesWider(more, chunks, sentence, chunkSize);
        } else if |buf| + |sentence| > chunkSize {
          AnewStep(chunks, buf, sentence, chunkSize);
          PackAnew(sentences[..i], chunks, buf, "", chunkSize, runs, sentence);
          ApartStays(runs, runs + [Together([sentence])], chunkSize);
            runs := runs + [Together([sentence])];
          chunks := Sealed(chunks, buf);
          buf := sentence;
        } else {
          JoinStep(chunks, buf, sentence);
          NextBuffer(buf, sentence);
          ghost var grown := PackNext(sentences[..i], chunks, buf, "", chunkSize, runs, sentence);
          ApartStays(runs, grown, chunkSize);
          runs := grown;
          buf := buf + sentence;
        }
        SentencesUpToWider(before, Sealed(chunks, buf), sentences, i, chunkSize);
      }
      assert sentences[..|sentences|] == sentences;
      DividingKeepsContent(Sentence, paragraph, 0, 0);
      assert paragraph[0..] == paragraph;
      SealedFacts(chunks, buf, chunkSize);
      PackingEnds(sentences, chunks, buf, "", chunkSize, runs);
      chunks := Sealed(chunks, buf);
    }

    // The chunks of a text before tiny ones are merged: L1, by paragraphs; one too long goes to L2.
    method SplitText(text: string) returns (chunks: seq<string>)
      requires chunkSize >= 1
      ensures Content(chunks) == NonSpace(text) && Sized(chunks, chunkSize)
      ensures KeepsParagraphs(chunks, text, chunkSize)
      ensures PacksParagraphs(text, chunks, chunkSize)
    {
      hide Content, Covered, Kept, NonSpace, Sized, KeepsSentences, SeparatorEnd, Packing, Packed, PacksSentences, ApartAreBySentences, Paragraphs, Stripped;
      chunks := [];
      var buf := "";
      var paragraphs := ParagraphsOf(text);
      ghost var runs: seq<Run> := [];
      NothingPacked("\n\n", chunkSize);
      NothingApart(chunkSize);
      StrippedKeepsContent(Paragraphs(text, 0, 0));
      EmptyFacts(chunkSize);
      assert paragraphs[..0] == [];
      for i := 0 to |paragraphs|
        invariant Sized(chunks, chunkSize) && |buf| <= chunkSize
        invariant Content(Sealed(chunks, buf)) == Content(paragraphs[..i])
        invariant ParagraphsUpTo(Sealed(chunks, buf), paragraphs, i, chunkSize)
        invariant Packing(paragraphs[..i], chunks, buf, "\n\n", chunkSize, runs) && ApartAreBySentences(runs, chunkSize)
      {
        var para := paragraphs[i];
        assert paragraphs[..i + 1] == paragraphs[..i] + [para];
        assert para in paragraphs;
        PrefixContent(paragraphs, i);
        ghost var before := Sealed(chunks, buf);
        if |para| > chunkSize {
          var more := SplitLong(para);
          ExtendStep(chunks, buf, more, chunkSize);
          PackApart(paragraphs[..i], chunks, buf, "\n\n", chunkSize, runs, para, more);
          ApartMore(runs, para, more, chunkSize);
            runs := runs + [Apart(para, more)];
          chunks := Sealed(chunks, buf) + more;
          buf := "";
          KeepsSentencesWider(more, chunks, para, chunkSize);
        } else if |buf| + |para| + 2 > chunkSize {
          AnewStep(chunks, buf, para, chunkSize);
          PackAnew(paragraphs[..i], chunks, buf, "\n\n", chunkSize, runs, para);
          ApartStays(runs, runs + [Together([para])], chunkSize);
            runs := runs + [Together([para])];
          chunks := Sealed(chunks, buf);
          buf := para;
        } else if buf != "" {
          SpacedStep(chunks, buf, para);
          ghost var grown := PackNext(paragraphs[..i], chunks, buf, "\n\n", chunkSize, runs, para);
          ApartStays(runs, grown, chunkSize);
          runs := grown;
          buf := buf + "\n\n" + para;
        } else {
          AnewStep(chunks, buf, para, chunkSize);
          ghost var grown := PackNext(paragraphs[..i], chunks, buf, "\n\n", chunkSize, runs, para);
          ApartStays(runs, grown, chunkSize);
          runs := grown;
          buf := para;
        }
        ParagraphsUpToWider(before, Sealed(chunks, buf), paragraphs, i, chunkSize);
      }
      assert paragraphs[..|paragraphs|] == paragraphs;
      ParagraphsKeepContent(text, 0, 0);
      assert text[0..] == text;
      SealedFacts(chunks, buf, chunkSize);
      PackingEnds(paragraphs, chunks, buf, "\n\n", chunkSize, runs);
      chunks := Sealed(chunks, buf);
    }

    // _merge_tiny
    method MergeTiny(chunks: seq<string>) returns (merged: seq<string>)
      ensures Content(merged) == Content(chunks) && Covered(chunks, merged)
      ensures forall size: nat :: Sized(chunks, size) ==> Sized(merged, size + minChunkSize + 1)
      ensures forall i :: 0 <= i < |merged| - 1 ==> |merged[i]| >= minChunkSize
      ensures chunks == [] <==> merged == []
      ensures exists groups :: Merged(chunks, merged, minChunkSize, groups)
    {
      hide Content, Covered, Kept, NonSpace, Merged;
      if chunks == [] {
        NothingMerged(minChunkSize);
        CoveredMore(chunks, []);
        assert chunks + [] == [];
        return [];
      }
      merged := [];
      var cur := chunks[0];
      ghost var groups: seq<seq<string>> := [[cur]];
      MergeBegins(cur, minChunkSize);
      assert chunks[..1] == [cur] && merged + [cur] == [cur];
      assert merged + [cur] == chunks[..1];
      CoveredMore(merged, [cur]);
      CoveredMore(chunks[..1], []);
      assert chunks[..1] + [] == chunks[..1];
      for i := 1 to |chunks|
        invariant Content(merged + [cur]) == Content(chunks[..i]) && Covered(chunks[..i], merged + [cur])
        invariant forall size: nat :: Sized(chunks, size) ==> Sized(merged + [cur], size + minChunkSize + 1)
        invariant forall j :: 0 <= j < |merged| ==> |merged[j]| >= minChunkSize
        invariant Merged(chunks[..i], merged + [cur], minChunkSize, groups)
      {
        var next := chunks[i];
        PrefixContent(chunks, i);
        assert chunks[..i + 1] == chunks[..i] + [next];
        MergeStep(chunks, chunks[..i], merged, cur, next, minChunkSize);
        if |cur| < minChunkSize {
          MergeJoins(chunks[..i], merged, cur, minChunkSize, groups, next);
          groups := groups[..|groups| - 1] + [groups[|groups| - 1] + [next]];
          cur := cur + "\n\n" + next;
        } else {
          MergeApart(chunks[..i], merged, cur, minChunkSize, groups, next);
          groups := groups + [[next]];
          merged := merged + [cur];
          cur := next;
        }
      }
      assert chunks[..|chunks|] == chunks;
      merged := merged + [cur];
    }

    // _semantic_split
    method SemanticSplit(text: string) returns (chunks: seq<string>)
      requires chunkSize >= 1
      ensures Content(chunks) == NonSpace(text)
      ensures Sized(chunks, chunkSize + minChunkSize + 1)
      ensures forall i :: 0 <= i < |chunks| - 1 ==> |chunks[i]| >= minChunkSize
      ensures KeepsParagraphs(chunks, Normalize(text), chunkSize)
      ensures SplitsInto(text, chunks, chunkSize, minChunkSize)
    {
      hide Content, Covered, Kept, NonSpace, Sized, KeepsParagraphs, PacksParagraphs, Merged, Normalize;
      var normalized := Normalize(text);
      NormalizeKeepsContent(text);
      if normalized == "" {
        NothingToKeep(chunkSize);
        EmptyFacts(chunkSize + minChunkSize + 1);
        NonSpaceBlank("");
        return [];
      }
      var split := SplitText(normalized);
      chunks := MergeTiny(split);
      KeepsParagraphsWider(split, chunks, normalized, chunkSize);
    }

    // split_documents, one document that is not a PDF.
    method SplitDocument(text: string, isImage: bool) returns (chunks: seq<Chunk>)
      requires chunkSize >= 1
      ensures Content(Texts(chunks)) == NonSpace(text)
      ensures forall c :: c in chunks ==> !Blank(c.content) && c.index < c.total
      ensures forall i, j :: 0 <= i < j < |chunks| ==> chunks[i].index < chunks[j].index && chunks[i].total == chunks[j].total
      ensures isImage ==> chunks == if Blank(text) then [] else [Chunk(text, 0, 1)]
      ensures !isImage ==> forall c :: c in chunks ==> |c.content| <= chunkSize + minChunkSize + 1
      ensures !isImage ==> exists pieces :: SplitsInto(text, pieces, chunkSize, minChunkSize) && Numbered(pieces, chunks)
    {
      hide Content, NonSpace, Blank, Strip, KeepsParagraphs, Texts, SplitsInto;
      if isImage {
        StripFacts(text);
        NonSpaceBlank(text);
        NoTexts();
        TextsAppend([], Chunk(text, 0, 1));
        assert [] + [Chunk(text, 0, 1)] == [Chunk(text, 0, 1)] && [] + [text] == [text];
        ContentCons(text, []);
        EmptyFacts(0);
        chunks := if Strip(text) != "" then [Chunk(text, 0, 1)] else [];
      } else {
        var pieces := SemanticSplit(text);
        chunks := Number(pieces);
      }
    }

    // The pieces that are not blank, each with its place and how many there are.
    method Number(pieces: seq<string>) returns (chunks: seq<Chunk>)
      ensures Numbered(pieces, chunks) && Content(Texts(chunks)) == Content(pieces)
    {
      hide Content, NonSpace, Blank, Strip, Texts;
      chunks := [];
      NoTexts();
      assert pieces[..0] == [];
      for i := 0 to |pieces|
        invariant Content(Texts(chunks)) == Content(pieces[..i])
        invariant forall c :: c in chunks ==> !Blank(c.content) && c.index < i && c.total == |pieces| && c.content == pieces[c.index]
        invariant forall k, l :: 0 <= k < l < |chunks| ==> chunks[k].index < chunks[l].index
        invariant forall k :: 0 <= k < i && !Blank(pieces[k]) ==> Chunk(pieces[k], k, |pieces|) in chunks
      {
        PrefixContent(pieces, i);
        StripFacts(pieces[i]);
        NonSpaceBlank(pieces[i]);
        if Strip(pieces[i]) == "" {
          continue;
        }
        TextsAppend(chunks, Chunk(pieces[i], i, |pieces|));
        ContentAppend(Texts(chunks), pieces[i]);
        chunks := chunks + [Chunk(pieces[i], i, |pieces|)];
      }
      assert pieces[..|pieces|] == pieces;
    }
  }

  // Exactly the pieces that are not blank, in order, each with its place among all pieces.
  predicate Numbered(pieces: seq<string>, chunks: seq<Chunk>) {
    && (forall c :: c in chunks ==> !Blank(c.content) && c.index < |pieces| && c.total == |pieces| && c.content == pieces[c.index])
    && (forall i, j :: 0 <= i < j < |chunks| ==> chunks[i].index < chunks[j].index)
    && (forall k :: 0 <= k < |pieces| && !Blank(pieces[k]) ==> Chunk(pieces[k], k, |pieces|) in chunks)
  }

  // What a document becomes: its non-blank pieces with their places among all pieces.
  datatype Chunk = Chunk(content: string, index: nat, total: nat)

  function Texts(chunks: seq<Chunk>): seq<string> {
    seq(|chunks|, i requires 0 <= i < |chunks| => chunks[i].content)
  }

  lemma NoTexts()
    ensures Texts([]) == []
  {
  }

  lemma TextsAppend(chunks: seq<Chunk>, c: Chunk)
    ensures Texts(chunks + [c]) == Texts(chunks) + [c.content]
  {
  }

  // What a chunk list keeps of the first i sentences, and of the first i paragraphs.
  ghost predicate SentencesUpTo(chunks: seq<string>, sentences: seq<string>, i: nat, size: nat)
    requires i <= |sentences|
  {
    forall s :: s in sentences[..i] ==> if |s| <= size then Kept(chunks, s) else KeepsPieces(chunks, s, size)
  }

  ghost predicate ParagraphsUpTo(chunks: seq<string>, paragraphs: seq<string>, i: nat, size: nat)
    requires i <= |paragraphs|
  {
    forall p :: p in paragraphs[..i] ==> if |p| <= size then Kept(chunks, p) else KeepsSentences(chunks, p, size)
  }

  lemma SentencesUpToWider(chunks: seq<string>, wider: seq<string>, sentences: seq<string>, i: nat, size: nat)
    requires i < |sentences| && SentencesUpTo(chunks, sentences, i, size) && Covered(chunks, wider)
    requires if |sentences[i]| <= size then Kept(wider, sentences[i]) else KeepsPieces(wider, sentences[i], size)
    ensures SentencesUpTo(wider, sentences, i + 1, size)
  {
    hide KeepsPieces, Kept, Covered;
    forall s | s in sentences[..i + 1] ensures if |s| <= size then Kept(wider, s) else KeepsPieces(wider, s, size) {
      if s in sentences[..i] {
        if |s| <= size {
          KeptWider(chunks, wider, s);
        } else {
          KeepsPiecesWider(chunks, wider, s, size);
        }
      }
    }
  }

  lemma ParagraphsUpToWider(chunks: seq<string>, wider: seq<string>, paragraphs: seq<string>, i: nat, size: nat)
    requires i < |paragraphs| && ParagraphsUpTo(chunks, paragraphs, i, size) && Covered(chunks, wider)
    requires if |paragraphs[i]| <= size then Kept(wider, paragraphs[i]) else KeepsSentences(wider, paragraphs[i], size)
    ensures ParagraphsUpTo(wider, paragraphs, i + 1, size)
  {
    hide KeepsSentences, Kept, Covered;
    forall p | p in paragraphs[..i + 1] ensures if |p| <= size then Kept(wider, p) else KeepsSentences(wider, p, size) {
      if p in paragraphs[..i] {
        if |p| <= size {
          KeptWider(chunks, wider, p);
        } else {
          KeepsSentencesWider(chunks, wider, p, size);
        }
      }
    }
  }

  // A blank line between two texts adds no content.
  lemma BlankLine(a: string, b: string)
    ensures NonSpace(a + "\n\n" + b) == NonSpace(a) + NonSpace(b)
  {
    NonSpaceConcat(a + "\n\n", b);
    NonSpaceConcat(a, "\n\n");
    NonSpaceBlank("\n\n");
  }

  // A paragraph joins the buffer after a blank line.
  lemma SpacedStep(chunks: seq<string>, buf: string, p: string)
    requires p != ""
    ensures Covered(Sealed(chunks, buf), Sealed(chunks, buf + "\n\n" + p)) && Kept(Sealed(chunks, buf + "\n\n" + p), p)
    ensures Content(Sealed(chunks, buf + "\n\n" + p)) == Content(Sealed(chunks, buf)) + NonSpace(p)
  {
    hide Covered, Kept, Sealed, NonSpace, Content;
    SealedGrows(chunks, buf, "\n\n", p);
    BlankLine(buf, p);
    SealedContent(chunks, buf);
    SealedContent(chunks, buf + "\n\n" + p);
  }

  lemma MergeStep(chunks: seq<string>, done: seq<string>, merged: seq<string>, cur: string, next: string, min: nat)
    requires Content(merged + [cur]) == Content(done) && Covered(done, merged + [cur]) && next in chunks
    requires forall size: nat :: Sized(chunks, size) ==> Sized(merged + [cur], size + min + 1)
    ensures var joined := merged + [cur + "\n\n" + next];
            && Content(joined) == Content(done) + NonSpace(next) && Covered(done + [next], joined)
            && (|cur| < min ==> forall size: nat :: Sized(chunks, size) ==> Sized(joined, size + min + 1))
    ensures var apart := merged + [cur] + [next];
            && Content(apart) == Content(done) + NonSpace(next) && Covered(done + [next], apart)
            && forall size: nat :: Sized(chunks, size) ==> Sized(apart, size + min + 1)
  {
    MergeContent(merged, cur, next);
    MergeCovers(done, merged, cur, next);
    forall size: nat | Sized(chunks, size)
      ensures Sized(merged + [cur] + [next], size + min + 1) && (|cur| < min ==> Sized(merged + [cur + "\n\n" + next], size + min + 1))
    {
      MergeSized(chunks, merged, cur, next, min, size);
    }
  }

  lemma MergeContent(merged: seq<string>, cur: string, next: string)
    ensures Content(merged + [cur + "\n\n" + next]) == Content(merged + [cur]) + NonSpace(next)
    ensures Content(merged + [cur] + [next]) == Content(merged + [cur]) + NonSpace(next)
  {
    hide Content, NonSpace;
    BlankLine(cur, next);
    ContentAppend(merged, cur);
    ContentAppend(merged, cur + "\n\n" + next);
    ContentAppend(merged + [cur], next);
  }

  lemma MergeCovers(done: seq<string>, merged: seq<string>, cur: string, next: string)
    requires Covered(done, merged + [cur])
    ensures Covered(done + [next], merged + [cur + "\n\n" + next]) && Covered(done + [next], merged + [cur] + [next])
  {
    var joined, apart := merged + [cur + "\n\n" + next], merged + [cur] + [next];
    InGrown(cur, "\n\n", next);
    CoveredMore(merged, [cur + "\n\n" + next]);
    CoveredMore(merged + [cur], [next]);
    ContainsSelf(next);
    assert cur + "\n\n" + next in joined && next in apart;
    forall c | c in merged + [cur] ensures Kept(joined, c) && Kept(apart, c) {
      if c in merged {
        assert Kept(joined, c);
      } else {
        assert Kept(joined, cur);
      }
    }
    forall c | c in done + [next] ensures Kept(joined, c) && Kept(apart, c) {
      if c in done {
        assert Kept(merged + [cur], c);
        KeptWider(merged + [cur], joined, c);
        KeptWider(merged + [cur], apart, c);
      }
    }
  }

  lemma MergeSized(chunks: seq<string>, merged: seq<string>, cur: string, next: string, min: nat, size: nat)
    requires Sized(chunks, size) && next in chunks && Sized(merged + [cur], size + min + 1)
    ensures Sized(merged + [cur] + [next], size + min + 1)
    ensures |cur| < min ==> Sized(merged + [cur + "\n\n" + next], size + min + 1)
  {
    assert forall c :: c in merged ==> c in merged + [cur];
    assert cur in merged + [cur];
  }

  lemma NothingMerged(min: nat)
    ensures Merged([], [], min, [])
  {
  }

  lemma NothingToKeep(size: nat)
    ensures KeepsParagraphs([], "", size)
  {
    assert Paragraphs("", 0, 0) == [""];
    assert Stripped([""]) == [];
  }

  lemma NothingJoined()
    ensures Join([], "") == "" && NonSpace("") == ""
  {
  }

  lemma EmptyFacts(size: nat)
    ensures Content([]) == "" && Sized([], size) && Sealed([], "") == []
  {
  }

  lemma BlankAdds(chunks: seq<string>, pieces: seq<string>, i: nat, size: nat)
    requires i < |pieces| && pieces[i] == "" && KeptUpTo(chunks, pieces, i, size)
    ensures KeptUpTo(chunks, pieces, i + 1, size)
    ensures Content(pieces[..i + 1]) == Content(pieces[..i])
  {
    PrefixContent(pieces, i);
  }
}
