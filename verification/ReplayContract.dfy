// A grounded answer from its evidence to its replay: which citations it may carry, when it abstains
// instead, and what the check of a stored response accepts and returns.

module ReplayContract {
  import opened Options
  import Texts = Text
  import opened PublicTrajectory

  const SNIPPET: nat := 240
  const SCHEMA: nat := 2

  const ABSTENTION: string := "not enough evidence for a fully cited answer"
  const BLOCKED_OUTPUT: string := "sensitive output withheld"
  const BLOCKED_INPUT: string := "input refused by the safety check"

  datatype Evidence = Evidence(chunk: string, document: string, text: string, rank: nat, page: Option<nat>)

  datatype Citation = Citation(chunk: string, document: string, page: Option<nat>, rank: nat, snippet: string)

  datatype Status = NotRequested | Pending | CitationIdsValid | Abstained

  datatype Response = Response(
    schema: nat, plan: seq<string>, steps: seq<StepRecord>, answer: string, reason: Option<string>,
    citations: seq<Citation>, invalidIds: seq<string>, invalidCount: nat, abstained: bool, status: Status,
    groundingRequired: bool, document: Option<string>, awaiting: bool, question: Option<string>, conversation: Option<string>)

  // What the checks depend on: the leak check on texts and on encoded citations, and the known tools.
  datatype Policy = Policy(leaks: string -> bool, leaksCitation: Citation -> bool, known: set<string>)

  function Shown(answer: string, reason: Option<string>): string {
    answer + "\n" + if reason.Some? then reason.value else ""
  }

  // The fixed messages pass the leak check.
  ghost predicate PassesFixed(p: Policy) {
    && !p.leaks(REDACTION)
    && forall answer: string, reason: string :: answer in [ABSTENTION, BLOCKED_OUTPUT, BLOCKED_INPUT] && (reason in SAFE_REASONS || reason == "legacy_abstained") ==>
         !p.leaks(Shown(answer, Some(reason)))
  }

  // ---- evidence ----

  // A search observation, already decoded.
  datatype Observation = Observation(document: string, chunks: seq<string>, ids: seq<string>, pages: seq<Option<nat>>)

  predicate Acceptable(o: Observation, expected: Option<string>) {
    && !Texts.Blank(o.document) && (expected.Some? ==> o.document == expected.value)
    && |o.chunks| == |o.ids| == |o.pages|
    && (forall c :: c in o.chunks ==> !Texts.Blank(c))
    && (forall i :: i in o.ids ==> !Texts.Blank(i))
    && (forall i, j :: 0 <= i < j < |o.ids| ==> o.ids[i] != o.ids[j])
    && (forall g :: g in o.pages && g.Some? ==> g.value >= 1)
  }

  predicate Agrees(registry: map<string, Evidence>, o: Observation)
    requires |o.chunks| == |o.ids|
  {
    forall i :: 0 <= i < |o.ids| && o.ids[i] in registry ==>
      registry[o.ids[i]].document == o.document && registry[o.ids[i]].text == o.chunks[i]
  }

  // Every entry is filed under its own id, with a text, from the document the run is bound to.
  predicate Sound(registry: map<string, Evidence>, expected: Option<string>) {
    forall id :: id in registry ==>
      && registry[id].chunk == id && !Texts.Blank(id) && !Texts.Blank(registry[id].text) && !Texts.Blank(registry[id].document)
      && registry[id].rank >= 1 && (registry[id].page.Some? ==> registry[id].page.value >= 1) && (expected.Some? ==> registry[id].document == expected.value)
  }

  // The evidence of one chunk of an observation.
  function Found(o: Observation, i: nat): Evidence
    requires i < |o.ids| && |o.ids| == |o.chunks| == |o.pages|
  {
    Evidence(o.ids[i], o.document, o.chunks[i], i + 1, o.pages[i])
  }

  predicate IsChunk(o: Observation, i: nat, e: Evidence)
    requires i < |o.ids| && |o.ids| == |o.chunks| == |o.pages|
  {
    e.chunk == o.ids[i] && e.document == o.document && e.text == o.chunks[i] && e.rank == i + 1 && e.page == o.pages[i]
  }

  // An observation holds this evidence.
  ghost predicate FoundIn(o: Observation, e: Evidence) {
    |o.ids| == |o.chunks| == |o.pages| && exists i: nat :: i < |o.ids| && IsChunk(o, i, e)
  }

  lemma FoundIsThere(o: Observation, i: nat)
    requires i < |o.ids| && |o.ids| == |o.chunks| == |o.pages|
    ensures FoundIn(o, Found(o, i))
  {
    assert IsChunk(o, i, Found(o, i));
  }

  lemma Aligned(o: Observation, expected: Option<string>)
    requires Acceptable(o, expected)
    ensures |o.chunks| == |o.ids| == |o.pages|
  {
  }

  lemma InsertStep(registry: map<string, Evidence>, o: Observation, expected: Option<string>, i: nat)
    requires Sound(registry, expected) && Acceptable(o, expected) && Agrees(registry, o)
    requires i < |o.ids| && o.ids[i] !in registry
    ensures Sound(registry[o.ids[i] := Found(o, i)], expected) && Agrees(registry[o.ids[i] := Found(o, i)], o)
  {
    hide Texts.Blank;
    assert o.ids[i] in o.ids && o.chunks[i] in o.chunks && o.pages[i] in o.pages;
    forall k | 0 <= k < |o.ids| && k != i ensures o.ids[k] != o.ids[i] {
      assert k < i || i < k;
    }
  }

  function View(e: Evidence): Citation {
    Citation(e.chunk, e.document, e.page, e.rank, if |e.text| <= SNIPPET then e.text else e.text[..SNIPPET])
  }

  // Distinct ids in model order that the registry knows, and those it does not.
  function Valid(ids: seq<string>, registry: map<string, Evidence>): seq<Citation> {
    if ids == [] then []
    else
      var id := ids[|ids| - 1];
      Valid(ids[..|ids| - 1], registry) + if id in ids[..|ids| - 1] || id !in registry then [] else [View(registry[id])]
  }

  function Invalid(ids: seq<string>, registry: map<string, Evidence>): seq<string> {
    if ids == [] then []
    else
      var id := ids[|ids| - 1];
      Invalid(ids[..|ids| - 1], registry) + if id in ids[..|ids| - 1] || id in registry then [] else [id]
  }

  lemma {:induction false} CitationsAreEvidence(ids: seq<string>, registry: map<string, Evidence>, c: Citation)
    ensures c in Valid(ids, registry) <==> exists id :: id in ids && id in registry && View(registry[id]) == c
  {
    if ids != [] {
      var front, id := ids[..|ids| - 1], ids[|ids| - 1];
      CitationsAreEvidence(front, registry, c);
      assert ids == front + [id];
      if x :| x in front && x in registry && View(registry[x]) == c {
        assert x in ids;
      }
    }
  }

  lemma {:induction false} InvalidAreUnknown(ids: seq<string>, registry: map<string, Evidence>, id: string)
    ensures id in Invalid(ids, registry) <==> id in ids && id !in registry
  {
    if ids != [] {
      InvalidAreUnknown(ids[..|ids| - 1], registry, id);
      assert ids == ids[..|ids| - 1] + [ids[|ids| - 1]];
    }
  }

  predicate FirstNamed(ids: seq<string>, i: nat) {
    i < |ids| && ids[i] !in ids[..i]
  }

  // The places where the ids that are known, or those that are not, are first named, in ascending order.
  ghost predicate PlacesOf(ids: seq<string>, keys: set<string>, known: bool, at: seq<nat>) {
    && (forall k, l :: 0 <= k < l < |at| ==> at[k] < at[l])
    && (forall i: nat :: i in at <==> FirstNamed(ids, i) && (ids[i] in keys <==> known))
  }

  // What is shown of a piece of evidence: where it comes from and the first 240 characters of its text.
  predicate ShowsEvidence(e: Evidence, c: Citation) {
    && c.chunk == e.chunk && c.document == e.document && c.page == e.page && c.rank == e.rank
    && c.snippet <= e.text && |c.snippet| == if |e.text| < 240 then |e.text| else 240
  }

  predicate CitedAt(ids: seq<string>, registry: map<string, Evidence>, citations: seq<Citation>, at: seq<nat>) {
    && |citations| == |at|
    && forall k :: 0 <= k < |at| ==> at[k] < |ids| && ids[at[k]] in registry && ShowsEvidence(registry[ids[at[k]]], citations[k])
  }

  predicate ReportedAt(ids: seq<string>, invalid: seq<string>, at: seq<nat>) {
    |invalid| == |at| && forall k :: 0 <= k < |at| ==> at[k] < |ids| && invalid[k] == ids[at[k]]
  }

  // One citation for each known id, in the order of the model.
  ghost predicate CitedInOrder(ids: seq<string>, registry: map<string, Evidence>, citations: seq<Citation>) {
    exists at: seq<nat> :: PlacesOf(ids, registry.Keys, true, at) && CitedAt(ids, registry, citations, at)
  }

  // Each unknown id once, in the order of the model.
  ghost predicate ReportedInOrder(ids: seq<string>, registry: map<string, Evidence>, invalid: seq<string>) {
    exists at: seq<nat> :: PlacesOf(ids, registry.Keys, false, at) && ReportedAt(ids, invalid, at)
  }

  lemma PlacesStep(ids: seq<string>, keys: set<string>, known: bool, at: seq<nat>, id: string)
    requires PlacesOf(ids, keys, known, at)
    ensures PlacesOf(ids + [id], keys, known, if id !in ids && (id in keys <==> known) then at + [|ids|] else at)
    ensures forall k :: 0 <= k < |at| ==> at[k] < |ids| && (ids + [id])[at[k]] == ids[at[k]]
  {
    var more := ids + [id];
    forall i: nat | i < |ids| ensures FirstNamed(more, i) <==> FirstNamed(ids, i) {
      assert more[i] == ids[i] && more[..i] == ids[..i];
    }
    assert more[..|ids|] == ids && more[|ids|] == id;
    forall k | 0 <= k < |at| ensures at[k] < |ids| {
      assert at[k] in at;
    }
  }

  lemma ViewShows(e: Evidence)
    ensures ShowsEvidence(e, View(e))
  {
  }

  lemma CitedStep(ids: seq<string>, registry: map<string, Evidence>, citations: seq<Citation>, id: string)
    requires CitedInOrder(ids, registry, citations)
    ensures CitedInOrder(ids + [id], registry, citations + if id in ids || id !in registry then [] else [View(registry[id])])
  {
    hide PlacesOf, ShowsEvidence;
    var at: seq<nat> :| PlacesOf(ids, registry.Keys, true, at) && CitedAt(ids, registry, citations, at);
    PlacesStep(ids, registry.Keys, true, at, id);
    if id in ids || id !in registry {
      assert CitedAt(ids + [id], registry, citations, at) && citations + [] == citations;
    } else {
      ViewShows(registry[id]);
      assert CitedAt(ids + [id], registry, citations + [View(registry[id])], at + [|ids|]);
    }
  }

  lemma ReportedStep(ids: seq<string>, registry: map<string, Evidence>, invalid: seq<string>, id: string)
    requires ReportedInOrder(ids, registry, invalid)
    ensures ReportedInOrder(ids + [id], registry, invalid + if id in ids || id in registry then [] else [id])
  {
    hide PlacesOf;
    var at: seq<nat> :| PlacesOf(ids, registry.Keys, false, at) && ReportedAt(ids, invalid, at);
    PlacesStep(ids, registry.Keys, false, at, id);
    if id in ids || id in registry {
      assert ReportedAt(ids + [id], invalid, at) && invalid + [] == invalid;
    } else {
      assert ReportedAt(ids + [id], invalid + [id], at + [|ids|]);
    }
  }

  lemma NothingNamed(registry: map<string, Evidence>)
    ensures CitedInOrder([], registry, []) && ReportedInOrder([], registry, [])
  {
    assert PlacesOf([], registry.Keys, true, []) && CitedAt([], registry, [], []);
    assert PlacesOf([], registry.Keys, false, []) && ReportedAt([], [], []);
  }

  // Citations and unknown ids keep the order of the model, and none comes twice.
  lemma {:induction false} FirstNamedFirst(ids: seq<string>, registry: map<string, Evidence>)
    ensures CitedInOrder(ids, registry, Valid(ids, registry))
    ensures ReportedInOrder(ids, registry, Invalid(ids, registry))
  {
    hide CitedInOrder, ReportedInOrder;
    if ids == [] {
      NothingNamed(registry);
    } else {
      var front, id := ids[..|ids| - 1], ids[|ids| - 1];
      FirstNamedFirst(front, registry);
      CitedStep(front, registry, Valid(front, registry), id);
      ReportedStep(front, registry, Invalid(front, registry), id);
      assert front + [id] == ids;
    }
  }

  // A run's evidence, filled by its searches.
  class EvidenceRegistry {
    var entries: map<string, Evidence>

    constructor ()
      ensures entries == map[]
    {
      entries := map[];
    }

    // collect_search_evidence: all of an observation, or nothing.
    method Collect(o: Observation, expected: Option<string>) returns (accepted: nat)
      requires Sound(entries, expected)
      modifies this
      ensures Sound(entries, expected)
      ensures Acceptable(o, expected) && Agrees(old(entries), o) ==>
                accepted == |o.ids| && entries.Keys == old(entries).Keys + set i | i in o.ids
      ensures !(Acceptable(o, expected) && Agrees(old(entries), o)) ==> accepted == 0 && entries == old(entries)
      ensures forall id :: id in old(entries) ==> id in entries && entries[id] == old(entries)[id]
      ensures accepted > 0 ==> Agrees(entries, o)
      ensures forall id :: id in entries && id !in old(entries) ==> Acceptable(o, expected) && FoundIn(o, entries[id])
    {
      hide Texts.Blank, Sound, FoundIn;
      if !Acceptable(o, expected) {
        return 0;
      }
      for i := 0 to |o.ids|
        invariant entries == old(entries)
        invariant forall k :: 0 <= k < i && o.ids[k] in entries ==> entries[o.ids[k]].document == o.document && entries[o.ids[k]].text == o.chunks[k]
      {
        if o.ids[i] in entries && (entries[o.ids[i]].document != o.document || entries[o.ids[i]].text != o.chunks[i]) {
          return 0;
        }
      }
      Insert(o, expected);
      return |o.ids|;
    }

    method Insert(o: Observation, expected: Option<string>)
      requires Sound(entries, expected) && Acceptable(o, expected) && Agrees(entries, o)
      modifies this
      ensures Sound(entries, expected)
      ensures entries.Keys == old(entries).Keys + set i | i in o.ids
      ensures forall id :: id in old(entries) ==> id in entries && entries[id] == old(entries)[id]
      ensures Agrees(entries, o)
      ensures forall id :: id in entries && id !in old(entries) ==> FoundIn(o, entries[id])
    {
      hide Texts.Blank, Acceptable, Agrees, Sound;
      Aligned(o, expected);
      for i := 0 to |o.ids|
        invariant Sound(entries, expected) && Agrees(entries, o)
        invariant entries.Keys == old(entries).Keys + set x | x in o.ids[..i]
        invariant forall id :: id in old(entries) ==> id in entries && entries[id] == old(entries)[id]
        invariant forall id :: id in entries && id !in old(entries) ==> FoundIn(o, entries[id])
      {
        assert o.ids[..i + 1] == o.ids[..i] + [o.ids[i]];
        if o.ids[i] !in entries {
          InsertStep(entries, o, expected, i);
          FoundIsThere(o, i);
          entries := entries[o.ids[i] := Found(o, i)];
        }
      }
      assert o.ids[..|o.ids|] == o.ids;
    }

    // resolve_citations
    method Resolve(ids: seq<string>) returns (citations: seq<Citation>, invalid: seq<string>)
      ensures citations == Valid(ids, entries) && invalid == Invalid(ids, entries)
      ensures forall c :: c in citations <==> exists id :: id in ids && id in entries && View(entries[id]) == c
      ensures forall id :: id in invalid <==> id in ids && id !in entries
      ensures CitedInOrder(ids, entries, citations) && ReportedInOrder(ids, entries, invalid)
    {
      hide CitedInOrder, ReportedInOrder;
      citations, invalid := [], [];
      var seen: set<string> := {};
      for i := 0 to |ids|
        invariant citations == Valid(ids[..i], entries) && invalid == Invalid(ids[..i], entries)
        invariant forall x :: x in seen <==> x in ids[..i]
      {
        assert ids[..i + 1][..i] == ids[..i];
        var id := ids[i];
        if id !in seen {
          seen := seen + {id};
          if id in entries {
            citations := citations + [View(entries[id])];
          } else {
            invalid := invalid + [id];
          }
        }
      }
      assert ids[..|ids|] == ids;
      FirstNamedFirst(ids, entries);
      forall c: Citation ensures c in citations <==> exists id :: id in ids && id in entries && View(entries[id]) == c {
        CitationsAreEvidence(ids, entries, c);
      }
      forall id: string ensures id in invalid <==> id in ids && id !in entries {
        InvalidAreUnknown(ids, entries, id);
      }
    }
  }

  // ---- replay ----

  const SAFE_REASONS: set<string> := {
    "input_safety_blocked", "output_leak_blocked", "model_abstained", "grounding_required_with_invalid_citation",
    "grounding_required_without_valid_citation", "legacy_invalid_citation_replay"}

  predicate Scoped(r: Response) {
    r.document.Some? && !Texts.Blank(r.document.value)
  }

  // The first checks: citations show something, from the one document the response is bound to.
  predicate ScopeOk(r: Response) {
    && (forall c :: c in r.citations ==>
          !Texts.Blank(c.chunk) && !Texts.Blank(c.document) && !Texts.Blank(c.snippet) && Some(c.document) == r.document)
    && !(r.schema == 1 && r.citations != [])
    && (r.citations != [] ==> Scoped(r))
    && (r.groundingRequired ==> Scoped(r))
  }

  function Withheld(p: Policy, r: Response, answer: string, reason: string): Response {
    r.(answer := answer, reason := Some(reason), abstained := true, status := Abstained, citations := [], plan := [],
       steps := PublicSteps(p.leaks, p.known, true, r.steps))
  }

  predicate Leaks(p: Policy, r: Response) {
    p.leaks(Shown(r.answer, r.reason)) || exists c :: c in r.citations && p.leaksCitation(c)
  }

  // The updates a replay applies to a response whose scope is fine.
  function Updated(p: Policy, r: Response): Response {
    var cleared := r.(schema := SCHEMA, invalidIds := [],
                      invalidCount := if r.invalidCount >= |r.invalidIds| then r.invalidCount else |r.invalidIds|);
    if Leaks(p, r) then Withheld(p, cleared, BLOCKED_OUTPUT, "output_leak_blocked")
    else if r.invalidIds != [] then Withheld(p, cleared, ABSTENTION, "legacy_invalid_citation_replay")
    else if r.abstained then
      cleared.(plan := [], steps := PublicSteps(p.leaks, p.known, true, r.steps),
               answer := if r.reason == Some("input_safety_blocked") then BLOCKED_INPUT
                         else if r.reason == Some("output_leak_blocked") then BLOCKED_OUTPUT else ABSTENTION,
               reason := if r.reason.Some? && r.reason.value in SAFE_REASONS then r.reason else Some("legacy_abstained"),
               citations := [], status := Abstained)
    else cleared.(plan := PublicPlan(p.leaks, r.plan), steps := PublicSteps(p.leaks, p.known, false, r.steps))
  }

  // What a finished response must look like.
  predicate Terminal(r: Response) {
    && r.question.None? && r.conversation.None? && r.status != Pending
    && (if r.groundingRequired then
          || (!r.abstained && r.citations != [] && r.invalidCount == 0 && r.status == CitationIdsValid)
          || (r.abstained && r.citations == [] && r.status == Abstained)
        else if r.abstained then r.citations == [] && r.status == Abstained
        else if r.citations != [] then r.status == CitationIdsValid
        else r.status == NotRequested)
  }

  // _validate_replayed_response for a response that is not paused and names no knowledge base.
  function Replay(p: Policy, r: Response): Option<Response>
    requires !r.awaiting
  {
    if r.schema !in {1, SCHEMA} || !ScopeOk(r) then None
    else if r.question.Some? && p.leaks(r.question.value) then None
    else if !Terminal(Updated(p, r)) then None
    else Some(Updated(p, r))
  }

  // ---- publishing ----

  // What a valid request binds a run to.
  predicate ValidScope(groundingRequired: bool, document: Option<string>) {
    && (document.Some? ==> !Texts.Blank(document.value))
    && (groundingRequired ==> document.Some?)
  }

  // Each citation a response shows has a snippet to show.
  predicate SnippetsShow(r: Response) {
    forall c :: c in r.citations ==> !Texts.Blank(c.snippet)
  }

  // Why an answer is withheld, the most pressing reason first; None when it is shown.
  ghost function Withholding(p: Policy, answer: string, reason: Option<string>, resolved: seq<Citation>, invalid: seq<string>,
                             groundingRequired: bool, document: Option<string>, abstains: bool): Option<string> {
    if p.leaks(Shown(answer, reason)) || (document.Some? && exists c :: c in resolved && p.leaksCitation(c)) then Some("output_leak_blocked")
    else if abstains then Some("model_abstained")
    else if groundingRequired && invalid != [] then Some("grounding_required_with_invalid_citation")
    else if groundingRequired && resolved == [] then Some("grounding_required_without_valid_citation")
    else None
  }

  // Neither the answer with its reason nor a citation shown trips the leak check.
  predicate LeaksNothing(p: Policy, r: Response) {
    !p.leaks(r.answer + "\n" + if r.reason.Some? then r.reason.value else "") && forall c :: c in r.citations ==> !p.leaksCitation(c)
  }

  // _build_response outside a knowledge base, with the citations already resolved.
  method BuildResponse(p: Policy, plan: seq<string>, steps: seq<StepRecord>, finalAnswer: string, finalizeReason: Option<string>,
                       resolved: seq<Citation>, invalid: seq<string>, groundingRequired: bool, document: Option<string>, abstains: bool)
    returns (r: Response)
    requires ValidScope(groundingRequired, document)
    requires forall c :: c in resolved ==> !Texts.Blank(c.chunk) && (document.Some? ==> Some(c.document) == document)
    ensures !r.awaiting
    ensures var withheld := Withholding(p, finalAnswer, finalizeReason, resolved, invalid, groundingRequired, document, abstains);
            && (r.abstained <==> withheld.Some?)
            && (withheld.Some? ==> r.reason == withheld && r.answer == if withheld == Some("output_leak_blocked") then BLOCKED_OUTPUT else ABSTENTION)
    ensures r.citations == if r.abstained || document.None? then [] else resolved
    ensures !r.abstained ==> r.answer == finalAnswer && r.reason == finalizeReason
    ensures r.invalidCount == |invalid| && r.groundingRequired == groundingRequired && r.document == document
    ensures PassesFixed(p) ==> Replay(p, r) == if SnippetsShow(r) then Some(r) else None
    ensures !p.leaks(REDACTION) ==>
              && SafelyShown(p.leaks, p.known, r.abstained, steps, r.steps)
              && (if r.abstained then r.plan == [] else SafePlan(p.leaks, plan, r.plan))
    ensures !r.abstained ==> LeaksNothing(p, r)
  {
    hide Texts.Blank, PublicSteps, PublicPlan, PassesFixed, Replay, SafelyShown, SafePlan;
    var answer, reason, abstained := finalAnswer, finalizeReason, abstains;
    var blocked := p.leaks(Shown(answer, reason));
    if blocked {
      answer, reason, abstained := BLOCKED_OUTPUT, Some("output_leak_blocked"), true;
    }
    var citations := if document.None? then [] else resolved;
    if !blocked && exists c :: c in citations && p.leaksCitation(c) {
      blocked := true;
      answer, reason, abstained := BLOCKED_OUTPUT, Some("output_leak_blocked"), true;
    }
    if blocked {
    } else if abstained {
      answer, reason := ABSTENTION, Some("model_abstained");
    } else if groundingRequired && invalid != [] {
      answer, reason, abstained := ABSTENTION, Some("grounding_required_with_invalid_citation"), true;
    } else if groundingRequired && citations == [] {
      answer, reason, abstained := ABSTENTION, Some("grounding_required_without_valid_citation"), true;
    }
    var status := if abstained then Abstained else if citations != [] then CitationIdsValid else NotRequested;
    r := Response(SCHEMA, if abstained then [] else PublicPlan(p.leaks, plan), PublicSteps(p.leaks, p.known, abstained, steps),
                  answer, reason, if abstained then [] else citations, [], |invalid|, abstained, status,
                  groundingRequired, document, false, None, None);
    if !p.leaks(REDACTION) {
      PublishedIsSafe(p.leaks, p.known, abstained, steps, plan);
    }
    if PassesFixed(p) {
      assert IsPublished(p, r, plan, steps);
      PublishedReplays(p, r, plan, steps);
    }
  }

  // What publishing makes of a response.
  ghost predicate IsPublished(p: Policy, r: Response, plan: seq<string>, steps: seq<StepRecord>) {
    && !r.awaiting && r.question.None? && r.conversation.None? && r.schema == SCHEMA && r.invalidIds == []
    && ValidScope(r.groundingRequired, r.document)
    && (forall c :: c in r.citations ==> !Texts.Blank(c.chunk) && Some(c.document) == r.document)
    && r.steps == PublicSteps(p.leaks, p.known, r.abstained, steps)
    && (if r.abstained then
          && r.plan == [] && r.citations == [] && r.status == Abstained
          && ((r.answer == BLOCKED_OUTPUT && r.reason == Some("output_leak_blocked"))
              || (r.answer == ABSTENTION && r.reason.Some? && r.reason.value in SAFE_REASONS
                  && r.reason.value != "input_safety_blocked" && r.reason.value != "output_leak_blocked"))
        else
          && r.plan == PublicPlan(p.leaks, plan) && !Leaks(p, r)
          && (r.groundingRequired ==> r.citations != [] && r.invalidCount == 0)
          && r.status == if r.citations != [] then CitationIdsValid else NotRequested)
  }

  // Main result: a published response is replayed unchanged exactly when every citation it shows has a
  // snippet that is not blank, which the cut at 240 characters may leave it without.
  lemma PublishedReplays(p: Policy, r: Response, plan: seq<string>, steps: seq<StepRecord>)
    requires PassesFixed(p) && IsPublished(p, r, plan, steps)
    ensures Replay(p, r) == if SnippetsShow(r) then Some(r) else None
  {
    hide Texts.Blank, PublicSteps, PublicPlan;
    PublishingTwice(p.leaks, p.known, r.abstained, steps, plan);
    if r.abstained {
      assert r.answer in [ABSTENTION, BLOCKED_OUTPUT, BLOCKED_INPUT] && r.reason.value in SAFE_REASONS;
      assert !Leaks(p, r);
    }
    assert Updated(p, r) == r;
    if r.citations != [] {
      assert r.citations[0] in r.citations;
    }
  }

  // Main result: replaying is idempotent, for every stored response whatever its age.
  lemma ReplayingTwice(p: Policy, r: Response)
    requires PassesFixed(p) && !r.awaiting && Replay(p, r).Some?
    ensures !Replay(p, r).value.awaiting && Replay(p, Replay(p, r).value) == Replay(p, r)
  {
    hide Texts.Blank, PublicSteps, PublicPlan;
    var once := Updated(p, r);
    PublishingTwice(p.leaks, p.known, true, r.steps, r.plan);
    PublishingTwice(p.leaks, p.known, false, r.steps, r.plan);
    if once.abstained {
      assert once.answer in [ABSTENTION, BLOCKED_OUTPUT, BLOCKED_INPUT];
      assert !p.leaks(Shown(once.answer, once.reason));
    }
    assert Updated(p, once) == once;
  }

  // Main result: what a replay returns leaks nothing and honours its grounding, whatever was stored.
  lemma ReplayedIsSafe(p: Policy, r: Response)
    requires PassesFixed(p) && !r.awaiting && Replay(p, r).Some?
    ensures var shown := Replay(p, r).value;
            && LeaksNothing(p, shown)
            && SafelyShown(p.leaks, p.known, shown.abstained, r.steps, shown.steps)
            && (if shown.abstained then shown.plan == [] && shown.citations == [] else SafePlan(p.leaks, r.plan, shown.plan))
            && shown.schema == SCHEMA && shown.invalidIds == []
            && (shown.abstained <==> r.abstained || r.invalidIds != [] || !LeaksNothing(p, r))
            && (!shown.abstained ==> shown.answer == r.answer && shown.reason == r.reason && shown.citations == r.citations)
            && (forall c :: c in shown.citations ==>
                  !Texts.Blank(c.chunk) && !Texts.Blank(c.snippet) && Some(c.document) == r.document && shown.document == r.document)
            && (shown.groundingRequired <==> r.groundingRequired)
            && (shown.groundingRequired && !shown.abstained ==> shown.citations != [] && shown.invalidCount == 0)
            && shown.status == (if shown.abstained then Abstained else if shown.citations != [] then CitationIdsValid else NotRequested)
            && shown.invalidCount == (if r.invalidCount >= |r.invalidIds| then r.invalidCount else |r.invalidIds|)
            && (shown.abstained ==>
                  && shown.reason.Some?
                  && (shown.reason.value == "legacy_abstained" || shown.reason.value in SAFE_REASONS)
                  && shown.answer == if shown.reason.value == "output_leak_blocked" then BLOCKED_OUTPUT
                                     else if shown.reason.value == "input_safety_blocked" then BLOCKED_INPUT else ABSTENTION)
    ensures r.schema in {1, 2} && (r.schema == 1 ==> r.citations == [])
    ensures r.question.None? && r.conversation.None?
    ensures r.groundingRequired || r.citations != [] ==> r.document.Some? && !Texts.Blank(r.document.value)
    ensures forall c :: c in r.citations ==>
              !Texts.Blank(c.chunk) && !Texts.Blank(c.document) && !Texts.Blank(c.snippet) && Some(c.document) == r.document
  {
    hide Texts.Blank, PublicSteps, PublicPlan, SafelyShown, SafePlan;
    PublishedIsSafe(p.leaks, p.known, true, r.steps, r.plan);
    PublishedIsSafe(p.leaks, p.known, false, r.steps, r.plan);
    var once := Updated(p, r);
    assert LeaksNothing(p, r) <==> !Leaks(p, r);
    if once.abstained {
      assert once.answer in [ABSTENTION, BLOCKED_OUTPUT, BLOCKED_INPUT];
      assert !p.leaks(Shown(once.answer, once.reason));
    }
  }

  // From the searches to the replay: what a run bound to a document cites comes from that document.
  lemma ResolvedAreInScope(ids: seq<string>, registry: map<string, Evidence>, document: Option<string>)
    requires Sound(registry, document)
    ensures forall c :: c in Valid(ids, registry) ==>
              && !Texts.Blank(c.chunk) && !Texts.Blank(c.document) && (document.Some? ==> Some(c.document) == document)
              && exists id :: id in ids && id in registry && c == View(registry[id]) && c.snippet <= registry[id].text
  {
    hide Texts.Blank;
    forall c | c in Valid(ids, registry) ensures exists id :: id in ids && id in registry && c == View(registry[id]) {
      CitationsAreEvidence(ids, registry, c);
    }
  }

  // Evidence whose text begins with a screenful of blanks is accepted but has nothing to show.
  lemma BlankSnippetIsPossible() returns (e: Evidence)
    ensures Sound(map[e.chunk := e], Some(e.document)) && Texts.Blank(View(e).snippet)
  {
    var blanks := seq(SNIPPET, _ => ' ');
    e := Evidence("c", "d", blanks + "x", 1, None);
    assert e.text[SNIPPET] == 'x' && "c"[0] == 'c' && "d"[0] == 'd';
    assert e.text[..SNIPPET] == blanks;
  }

  // ---- from the searches to the replay ----

  // A citation quotes a chunk that an acceptable search of the bound document returned under a requested id.
  ghost predicate Quotes(c: Citation, observations: seq<Observation>, ids: seq<string>, document: Option<string>) {
    exists o, e :: o in observations && Acceptable(o, document) && FoundIn(o, e) && e.chunk in ids && c == View(e)
  }

  ghost predicate Gathered(registry: map<string, Evidence>, observations: seq<Observation>, document: Option<string>) {
    forall id :: id in registry ==> Observed(registry[id], observations, document)
  }

  ghost predicate Observed(e: Evidence, observations: seq<Observation>, document: Option<string>) {
    exists o :: o in observations && Acceptable(o, document) && FoundIn(o, e)
  }

  lemma ObservedQuotes(registry: map<string, Evidence>, observations: seq<Observation>, ids: seq<string>, document: Option<string>, c: Citation)
    requires Sound(registry, document) && Gathered(registry, observations, document) && c in Valid(ids, registry)
    ensures Quotes(c, observations, ids, document)
  {
    hide FoundIn, Acceptable;
    CitationsAreEvidence(ids, registry, c);
    var id :| id in ids && id in registry && View(registry[id]) == c;
    assert Observed(registry[id], observations, document);
    var o :| o in observations && Acceptable(o, document) && FoundIn(o, registry[id]);
  }

  // Main result: a finished run, from its searches to its replay. Every citation shown quotes what a search of
  // the bound document returned for an id the model named; with grounding required an answer that is shown
  // cites something and names no unknown id; and replay returns the response unchanged exactly when every
  // snippet shows something. Nothing shown of answer, citations, plan and steps trips the leak check.
  method FinishRun(p: Policy, observations: seq<Observation>, ids: seq<string>, plan: seq<string>, steps: seq<StepRecord>,
                   finalAnswer: string, finalizeReason: Option<string>, groundingRequired: bool, document: Option<string>, abstains: bool)
    returns (r: Response)
    requires ValidScope(groundingRequired, document)
    ensures !r.awaiting && r.document == document && r.groundingRequired == groundingRequired
    ensures forall c :: c in r.citations ==> Quotes(c, observations, ids, document) && Some(c.document) == document
    ensures groundingRequired && !r.abstained ==> r.citations != [] && r.invalidCount == 0
    ensures !r.abstained ==> r.answer == finalAnswer && r.reason == finalizeReason
    ensures r.abstained ==> r.citations == [] && r.reason.Some? && r.reason.value in SAFE_REASONS
    ensures PassesFixed(p) ==> Replay(p, r) == if SnippetsShow(r) then Some(r) else None
    ensures !p.leaks(REDACTION) ==>
              && SafelyShown(p.leaks, p.known, r.abstained, steps, r.steps)
              && (if r.abstained then r.plan == [] else SafePlan(p.leaks, plan, r.plan))
    ensures !r.abstained ==> LeaksNothing(p, r)
  {
    hide CitedInOrder, ReportedInOrder, SafelyShown, SafePlan;
    hide Acceptable, FoundIn, Texts.Blank, PassesFixed, Replay, Quotes, Observed;
    var registry := new EvidenceRegistry();
    for i := 0 to |observations|
      invariant Sound(registry.entries, document) && Gathered(registry.entries, observations[..i], document)
    {
      ghost var before := registry.entries;
      var _ := registry.Collect(observations[i], document);
      GatheredMore(before, registry.entries, observations, i, document);
    }
    assert observations[..|observations|] == observations;
    var citations, invalid := registry.Resolve(ids);
    ResolvedAreInScope(ids, registry.entries, document);
    forall c | c in citations ensures Quotes(c, observations, ids, document) {
      ObservedQuotes(registry.entries, observations, ids, document, c);
    }
    r := BuildResponse(p, plan, steps, finalAnswer, finalizeReason, citations, invalid, groundingRequired, document, abstains);
  }

  lemma GatheredMore(before: map<string, Evidence>, after: map<string, Evidence>, observations: seq<Observation>, i: nat, document: Option<string>)
    requires i < |observations| && Gathered(before, observations[..i], document)
    requires forall id :: id in before ==> id in after && after[id] == before[id]
    requires forall id :: id in after && id !in before ==> Acceptable(observations[i], document) && FoundIn(observations[i], after[id])
    ensures Gathered(after, observations[..i + 1], document)
  {
    hide Acceptable, FoundIn;
    assert observations[..i + 1] == observations[..i] + [observations[i]];
    forall id | id in after ensures Observed(after[id], observations[..i + 1], document) {
      if id in before {
        assert Observed(before[id], observations[..i], document);
        var o :| o in observations[..i] && Acceptable(o, document) && FoundIn(o, before[id]);
        assert o in observations[..i + 1];
      } else {
        assert observations[i] in observations[..i + 1];
      }
    }
  }
}
