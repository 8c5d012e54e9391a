/**
 * The protocol-card pass: text windows around the triaged seed pages, the
 * per-window candidate extraction, the candidate log written seed by seed, and
 * the adjudication that turns the logged candidates into at most one coerced
 * winner per known CT field. LLM calls are parameters; the two artifact files
 * (the candidate log and the winners file) are the fields of
 * `ExtractionArtifacts`.
 */
module ProtocolCard {
  import opened Py
  import opened StableSort
  import opened LlmClient
  import opened Triage

  /** One line of `imaging_candidates.jsonl`. */
  datatype Candidate = Candidate(
    field: Value, page: int, rawSpan: string, value: Value,
    units: string, evidence: string, confidence: real, notes: string)

  function CandidateConfidence(c: Candidate): real { c.confidence }

  /** The eight CT fields the adjudicator knows, in prompt order. */
  const KnownFields: seq<string> :=
    ["slice_thickness_mm", "kernel", "kernel_family", "kVp", "mAs", "voxel_size_mm", "matrix", "fov_mm"]

  // ------------------------------------------------------------ windows

  function WindowStart(center: int, span: int): int { Max(0, center - span) }

  function WindowEnd(pages: seq<Page>, center: int, span: int): int
    requires pages != []
  {
    Min(pages[|pages| - 1].page + 1, center + span + 1)
  }

  /** The stripped text a page contributes to a window. */
  function Chunk(p: Page): string { Strip(p.text) }

  /** The stripped non-blank texts of the pages numbered in `[lo, hi)`, in list order. */
  function WindowChunks(pages: seq<Page>, lo: int, hi: int): seq<string> {
    if pages == [] then []
    else
      var p := pages[|pages| - 1];
      WindowChunks(pages[..|pages| - 1], lo, hi) + (if lo <= p.page < hi && Chunk(p) != "" then [Chunk(p)] else [])
  }

  /** The window text `build_windows` returns. */
  function WindowText(pages: seq<Page>, center: int, span: int): string {
    if pages == [] then ""
    else Join("\n\n", WindowChunks(pages, WindowStart(center, span), WindowEnd(pages, center, span)))
  }

  /** Whether the page at list position `i` contributes to the window `[lo, hi)`. */
  predicate Included(pages: seq<Page>, lo: int, hi: int, i: int) {
    0 <= i < |pages| && lo <= pages[i].page < hi && Chunk(pages[i]) != ""
  }

  /** The list positions of the pages a window includes. */
  function IncludedPages(pages: seq<Page>, lo: int, hi: int): set<nat> {
    set i: nat | i < |pages| && Included(pages, lo, hi, i)
  }

  lemma {:induction false} WindowChunksStep(pages: seq<Page>, i: int, lo: int, hi: int)
    requires 0 <= i < |pages|
    ensures WindowChunks(pages[..i + 1], lo, hi) == WindowChunks(pages[..i], lo, hi)
      + (if lo <= pages[i].page < hi && Chunk(pages[i]) != "" then [Chunk(pages[i])] else [])
  {
    assert pages[..i + 1][..i] == pages[..i];
  }

  /** `build_windows`: the text around `center` and the center itself. */
  method BuildWindows(pages: seq<Page>, center: int, span: int) returns (text: string, attributed: int)
    ensures text == WindowText(pages, center, span)
    ensures attributed == center
  {
    if pages == [] {
      return "", center;
    }
    var start := WindowStart(center, span);
    var end := WindowEnd(pages, center, span);
    var chunks: seq<string> := [];
    for i := 0 to |pages|
      invariant chunks == WindowChunks(pages[..i], start, end)
    {
      WindowChunksStep(pages, i, start, end);
      var idx := pages[i].page;
      if start <= idx < end {
        var t := Chunk(pages[i]);
        if t != "" {
          chunks := chunks + [t];
        }
      }
    }
    assert pages[..|pages|] == pages;
    assert WindowText(pages, center, span) == Join("\n\n", chunks);
    text := Join("\n\n", chunks);
    attributed := center;
  }

  /** The list position of the page a chunk of the window comes from. */
  lemma {:induction false} ChunkFromIncluded(pages: seq<Page>, lo: int, hi: int, t: string) returns (i: nat)
    requires t in WindowChunks(pages, lo, hi)
    ensures Included(pages, lo, hi, i) && t == Chunk(pages[i])
  {
    var init, n := pages[..|pages| - 1], |pages| - 1;
    if t in WindowChunks(init, lo, hi) {
      i := ChunkFromIncluded(init, lo, hi, t);
      assert pages[i] == init[i];
    } else {
      i := n;
    }
  }

  lemma {:induction false} ChunksGrow(pages: seq<Page>, lo: int, hi: int, t: string)
    requires pages != [] && t in WindowChunks(pages[..|pages| - 1], lo, hi)
    ensures t in WindowChunks(pages, lo, hi)
  {
  }

  lemma {:induction false} LastChunkIn(pages: seq<Page>, lo: int, hi: int)
    requires pages != [] && Included(pages, lo, hi, |pages| - 1)
    ensures Chunk(pages[|pages| - 1]) in WindowChunks(pages, lo, hi)
  {
  }

  lemma {:induction false} IncludedInChunks(pages: seq<Page>, lo: int, hi: int, i: int)
    requires Included(pages, lo, hi, i)
    ensures Chunk(pages[i]) in WindowChunks(pages, lo, hi)
  {
    var init, n := pages[..|pages| - 1], |pages| - 1;
    if i < n {
      assert pages[i] == init[i];
      IncludedInChunks(init, lo, hi, i);
      ChunksGrow(pages, lo, hi, Chunk(pages[i]));
    } else {
      LastChunkIn(pages, lo, hi);
    }
  }

  /** The chunks of a window are exactly the stripped texts of its included pages. */
  lemma {:induction false} WindowChunksIncluded(pages: seq<Page>, lo: int, hi: int)
    ensures forall t :: t in WindowChunks(pages, lo, hi) <==>
      exists i :: i in IncludedPages(pages, lo, hi) && t == Chunk(pages[i])
  {
    forall t ensures t in WindowChunks(pages, lo, hi) <==>
      exists i :: i in IncludedPages(pages, lo, hi) && t == Chunk(pages[i])
    {
      ChunkIffIncluded(pages, lo, hi, t);
    }
  }

  lemma {:induction false} ChunkIffIncluded(pages: seq<Page>, lo: int, hi: int, t: string)
    ensures t in WindowChunks(pages, lo, hi) <==>
      exists i :: i in IncludedPages(pages, lo, hi) && t == Chunk(pages[i])
  {
    if t in WindowChunks(pages, lo, hi) {
      var i := ChunkFromIncluded(pages, lo, hi, t);
      assert i in IncludedPages(pages, lo, hi);
    }
    if exists i :: i in IncludedPages(pages, lo, hi) && t == Chunk(pages[i]) {
      var i :| i in IncludedPages(pages, lo, hi) && t == Chunk(pages[i]);
      IncludedInChunks(pages, lo, hi, i);
    }
  }

  /** Widening the span by one never drops a page from the window. */
  lemma {:induction false} WindowGrowsWithSpan(pages: seq<Page>, center: int, span: int)
    requires pages != []
    ensures IncludedPages(pages, WindowStart(center, span), WindowEnd(pages, center, span))
         <= IncludedPages(pages, WindowStart(center, span + 1), WindowEnd(pages, center, span + 1))
  {
    var lo, hi := WindowStart(center, span), WindowEnd(pages, center, span);
    var lo', hi' := WindowStart(center, span + 1), WindowEnd(pages, center, span + 1);
    assert lo' <= lo && hi <= hi';
    forall i | i in IncludedPages(pages, lo, hi) ensures i in IncludedPages(pages, lo', hi') {
    }
  }

  /** With span 0 the window holds only pages numbered `center`. */
  lemma {:induction false} WindowSpanZero(pages: seq<Page>, center: int)
    requires pages != []
    ensures forall i :: i in IncludedPages(pages, WindowStart(center, 0), WindowEnd(pages, center, 0)) ==>
      pages[i].page == center
  {
  }

  // ------------------------------------------------------------ extraction

  /** Every conversion the extractor applies to one item's entries succeeds. */
  predicate ItemConverts(m: map<string, Value>, center: int) {
    ToInt(Get(m, "page", Int(center))).Ok? && StrippedOrEmpty(Get(m, "raw_span", Null)).Ok?
    && StrippedOrEmpty(Get(m, "units", Null)).Ok? && StrippedOrEmpty(Get(m, "evidence", Null)).Ok?
    && ToFloat(Or(Get(m, "confidence", Int(0)), Int(0))).Ok?
  }

  /** One raw item of the extractor's reply: None when it is skipped, either
      because it fails to convert or because it lacks field, raw span or evidence. */
  function AcceptItem(it: Value, center: int): (r: Option<Candidate>)
    ensures it.Obj? ==>
      var m := it.fields;
      (r.Some? <==> ItemConverts(m, center) && Truthy(Get(m, "field", Null))
                    && StrippedOrEmpty(Get(m, "raw_span", Null)).value != ""
                    && StrippedOrEmpty(Get(m, "evidence", Null)).value != "")
    ensures r.Some? ==> it.Obj? && (var m := it.fields;
      var c := r.value;
      c.field == Get(m, "field", Null) && c.value == Get(m, "value", Null)
      && Ok(c.page) == ToInt(Get(m, "page", Int(center)))
      && Ok(c.rawSpan) == StrippedOrEmpty(Get(m, "raw_span", Null))
      && Ok(c.units) == StrippedOrEmpty(Get(m, "units", Null))
      && c.evidence == Prefix(StrippedOrEmpty(Get(m, "evidence", Null)).value, 100)
      && Ok(c.confidence) == ToFloat(Or(Get(m, "confidence", Int(0)), Int(0)))
      && c.notes == (if Get(m, "notes", Null).Str? then Get(m, "notes", Null).s else ""))
    ensures r.Some? && it.Obj? && "page" !in it.fields ==> r.value.page == center
    ensures !it.Obj? ==> r.None?
  {
    if !it.Obj? || !ItemConverts(it.fields, center) then None
    else
      var m := it.fields;
      var field := Get(m, "field", Null);
      var rawSpan := StrippedOrEmpty(Get(m, "raw_span", Null)).value;
      var evidence := StrippedOrEmpty(Get(m, "evidence", Null)).value;
      if Truthy(field) && rawSpan != "" && evidence != "" then
        var notes := Get(m, "notes", Null);
        Some(Candidate(field, ToInt(Get(m, "page", Int(center))).value, rawSpan, Get(m, "value", Null),
                       StrippedOrEmpty(Get(m, "units", Null)).value, Prefix(evidence, 100),
                       ToFloat(Or(Get(m, "confidence", Int(0)), Int(0))).value,
                       if notes.Str? then notes.s else ""))
      else None
  }

  /** An accepted item carries a truthy field and stripped, non-empty raw span and evidence. */
  lemma {:induction false} AcceptedItemWellFormed(it: Value, center: int)
    requires AcceptItem(it, center).Some?
    ensures var c := AcceptItem(it, center).value;
      Truthy(c.field) && c.rawSpan != "" && Stripped(c.rawSpan) && Stripped(c.units)
      && c.evidence != "" && |c.evidence| <= 100 && !IsSpace(c.evidence[0])
  {
    var m := it.fields;
    StripStripped(Get(m, "raw_span", Null).s);
    StripStripped(Get(m, "evidence", Null).s);
    StripStripped(if Get(m, "units", Null).Str? then Get(m, "units", Null).s else "");
  }

  /** The accepted items, in reply order. */
  function AcceptedItems(items: seq<Value>, center: int): seq<Candidate> {
    if items == [] then []
    else
      AcceptedItems(items[..|items| - 1], center)
      + (match AcceptItem(items[|items| - 1], center) case Some(c) => [c] case None => [])
  }

  /** `resp.get("candidates") or []` as a sequence of items: a reply that is not an
      object raises, and so does iterating a number. Iterating a string or a dict
      yields strings, which the item loop skips one by one. */
  function CandidateItems(resp: Value): Outcome<seq<Value>> {
    if !resp.Obj? then Raised
    else
      match Or(Get(resp.fields, "candidates", Null), Arr([]))
      case Arr(xs) => Ok(xs)
      case Str(_) => Ok([])
      case Obj(_) => Ok([])
      case _ => Raised
  }

  /** `extract_ct_common` as written: a reply that is not an object raises, although
      the function promises never to raise on malformed JSON. */
  function ExtractAsWritten(window: string, center: int, reply: LlmReply): Outcome<seq<Candidate>> {
    if Strip(window) == "" then Ok([])
    else match reply
      case Failure(_) => Ok([])
      case Reply(resp) =>
        match CandidateItems(resp)
        case Raised => Raised
        case Ok(items) => Ok(AcceptedItems(items, center))
  }

  /** The extraction with a malformed reply yielding no candidates. */
  function ExtractResult(window: string, center: int, reply: LlmReply): seq<Candidate> {
    match ExtractAsWritten(window, center, reply)
    case Ok(cs) => cs
    case Raised => []
  }

  lemma {:induction false} AcceptedWellFormed(items: seq<Value>, center: int)
    ensures forall c :: c in AcceptedItems(items, center) ==>
      Truthy(c.field) && c.rawSpan != "" && Stripped(c.rawSpan) && Stripped(c.units)
      && c.evidence != "" && |c.evidence| <= 100 && !IsSpace(c.evidence[0])
  {
    if items != [] {
      AcceptedWellFormed(items[..|items| - 1], center);
      var last := items[|items| - 1];
      if AcceptItem(last, center).Some? {
        AcceptedItemWellFormed(last, center);
      }
    }
  }

  /** A reply that is not a JSON object, here a list: the code as written raises. */
  lemma ExtractRaisesOnListReply()
    ensures ExtractAsWritten("kVp 120", 0, Reply(Arr([]))).Raised?
    ensures ExtractResult("kVp 120", 0, Reply(Arr([]))) == []
  {
  }

  /**
   * `extract_ct_common`, corrected to return no candidates for a malformed reply:
   * a blank window or a failed call gives none; otherwise every item is tried on
   * its own and only well-formed candidates are kept, with evidence cut to 100
   * characters.
   */
  method ExtractCtCommon(window: string, center: int, reply: LlmReply) returns (out: seq<Candidate>)
    ensures out == ExtractResult(window, center, reply)
    ensures ExtractAsWritten(window, center, reply).Ok? ==> out == ExtractAsWritten(window, center, reply).value
    ensures Strip(window) == "" || reply.Failure? ==> out == []
    ensures forall c :: c in out ==>
      Truthy(c.field) && c.rawSpan != "" && Stripped(c.rawSpan) && Stripped(c.units)
      && c.evidence != "" && |c.evidence| <= 100 && !IsSpace(c.evidence[0])
  {
    out := [];
    if Strip(window) == "" {
      return;
    }
    if reply.Failure? {
      return;
    }
    var items := CandidateItems(reply.json);
    if items.Raised? {
      return;
    }
    out := AcceptAll(items.value, center);
    AcceptedWellFormed(items.value, center);
  }

  /** The item loop of `extract_ct_common`. */
  method AcceptAll(xs: seq<Value>, center: int) returns (out: seq<Candidate>)
    ensures out == AcceptedItems(xs, center)
  {
    out := [];
    for i := 0 to |xs|
      invariant out == AcceptedItems(xs[..i], center)
    {
      AcceptedItemsStep(xs, i, center);
      var c := AcceptItem(xs[i], center);
      if c.Some? {
        out := out + [c.value];
      }
    }
    assert xs[..|xs|] == xs;
  }

  lemma {:induction false} AcceptedItemsStep(xs: seq<Value>, i: int, center: int)
    requires 0 <= i < |xs|
    ensures AcceptedItems(xs[..i + 1], center) == AcceptedItems(xs[..i], center)
      + (match AcceptItem(xs[i], center) case Some(c) => [c] case None => [])
  {
    assert xs[..i + 1][..i] == xs[..i];
  }

  // ------------------------------------------------------------ seed pass

  /** The page of a seed, or None when the seed is skipped (not an object, page not
      an integer, or a negative page). */
  function SeedPage(seed: Value): (r: Option<int>)
    ensures r.Some? ==> 0 <= r.value
  {
    if !seed.Obj? then None
    else match ToInt(Get(seed.fields, "page", Int(-1)))
      case Raised => None
      case Ok(p) => if p < 0 then None else Some(p)
  }

  /** What one seed appends to the log: the candidates of its span-1 window. An
      exception inside the seed's iteration is caught, so it appends nothing. */
  function SeedHits(pages: seq<Page>, seed: Value, reply: LlmReply): seq<Candidate> {
    match SeedPage(seed)
    case None => []
    case Some(p) => ExtractResult(WindowText(pages, p, 1), p, reply)
  }

  /** The candidate log after the seed loop, seed by seed. */
  function SeedLog(pages: seq<Page>, seeds: seq<Value>, replyFor: nat -> LlmReply): seq<Candidate> {
    if seeds == [] then []
    else SeedLog(pages, seeds[..|seeds| - 1], replyFor) + SeedHits(pages, seeds[|seeds| - 1], replyFor(|seeds| - 1))
  }

  /** Iterating `sections["candidates"]` (truthy here): a list gives its items,
      a string or dict yields strings that are all skipped, a number raises. */
  function SeedList(seeds: Value): Outcome<seq<Value>> {
    match seeds
    case Arr(xs) => Ok(xs)
    case Str(_) => Ok([])
    case Obj(_) => Ok([])
    case _ => Raised
  }

  /** The seed loop catches every exception of a seed, so the log is the same
      whether the extraction raises on a malformed reply or returns nothing. */
  lemma {:induction false} SeedHitsMaskRaise(pages: seq<Page>, seed: Value, reply: LlmReply)
    requires SeedPage(seed).Some?
    ensures var p := SeedPage(seed).value;
      ExtractAsWritten(WindowText(pages, p, 1), p, reply).Raised? ==> SeedHits(pages, seed, reply) == []
  {
  }

  /** A seed with a negative page adds nothing to the log. */
  lemma {:induction false} NegativeSeedSkipped(pages: seq<Page>, seeds: seq<Value>, replyFor: nat -> LlmReply, page: int)
    requires page < 0
    ensures SeedLog(pages, seeds + [Obj(map["page" := Int(page)])], replyFor) == SeedLog(pages, seeds, replyFor)
  {
    var s := seeds + [Obj(map["page" := Int(page)])];
    assert s[..|s| - 1] == seeds;
  }

  // ------------------------------------------------------------ adjudication prompt

  /** A line of an adjudication or gap-report prompt. */
  datatype PromptLine =
    | Header(field: string)
    | Item(value: Value, units: string, page: int, evidence: string, confidence: real)
    | Blank

  /** The logged candidates naming `f`, in log order. */
  function FieldCandidates(cands: seq<Candidate>, f: string): (r: seq<Candidate>)
    ensures forall c :: c in r ==> c in cands && c.field == Str(f)
  {
    if cands == [] then []
    else FieldCandidates(cands[..|cands| - 1], f) + (if cands[|cands| - 1].field == Str(f) then [cands[|cands| - 1]] else [])
  }

  function TopCandidates(cands: seq<Candidate>, f: string, limit: int): seq<Candidate> {
    Prefix(SortDesc(FieldCandidates(cands, f), CandidateConfidence), limit)
  }

  function CandidateLine(c: Candidate): PromptLine {
    Item(c.value, c.units, c.page, Prefix(c.evidence, 120), c.confidence)
  }

  function CandidateLines(cs: seq<Candidate>): seq<PromptLine> {
    if cs == [] then [] else CandidateLines(cs[..|cs| - 1]) + [CandidateLine(cs[|cs| - 1])]
  }

  function FieldBlock(f: string, top: seq<Candidate>): seq<PromptLine> {
    if top == [] then [] else [Header(f)] + CandidateLines(top) + [Blank]
  }

  function BlocksFor(fields: seq<string>, cands: seq<Candidate>, limit: int): seq<PromptLine> {
    if fields == [] then []
    else BlocksFor(fields[..|fields| - 1], cands, limit)
         + FieldBlock(fields[|fields| - 1], TopCandidates(cands, fields[|fields| - 1], limit))
  }

  /** `"\n".join(lines).strip()` drops the blank line after the last block. */
  function DropTrailingBlank(lines: seq<PromptLine>): seq<PromptLine> {
    if lines != [] && lines[|lines| - 1] == Blank then lines[..|lines| - 1] else lines
  }

  predicate FieldsHashable(cands: seq<Candidate>) {
    forall i :: 0 <= i < |cands| ==> HashKey(cands[i].field).Ok?
  }

  /** The adjudication prompt: for each known field in order, its best candidates.
      `f in by` raises when a candidate's field is a list or a dict. */
  function AdjudicationPrompt(cands: seq<Candidate>, limit: int): Outcome<seq<PromptLine>> {
    if FieldsHashable(cands) then Ok(DropTrailingBlank(BlocksFor(KnownFields, cands, limit))) else Raised
  }

  /** The by-field lists `_group_candidates_for_prompt` fills. */
  function ByField(cands: seq<Candidate>): map<string, seq<Candidate>> {
    map f | f in KnownFields :: FieldCandidates(cands, f)
  }

  /** Appending one candidate extends the list of its field, if it names a known one. */
  lemma {:induction false} ByFieldStep(cands: seq<Candidate>, c: Candidate)
    ensures ByField(cands + [c]) ==
      if c.field.Str? && c.field.s in ByField(cands) then ByField(cands)[c.field.s := ByField(cands)[c.field.s] + [c]]
      else ByField(cands)
  {
    var s := cands + [c];
    assert s[..|s| - 1] == cands;
    var m, m' := ByField(cands), ByField(s);
    var e := if c.field.Str? && c.field.s in m then m[c.field.s := m[c.field.s] + [c]] else m;
    assert m'.Keys == e.Keys;
    forall f | f in m' ensures m'[f] == e[f] {
      assert FieldCandidates(s, f) == FieldCandidates(cands, f) + (if c.field == Str(f) then [c] else []);
    }
  }

  /** The first pass of `_group_candidates_for_prompt`: the candidates of each
      known field, in log order; a list or dict field raises. */
  method GroupByField(cands: seq<Candidate>) returns (r: Outcome<map<string, seq<Candidate>>>)
    ensures FieldsHashable(cands) ==> r == Ok(ByField(cands))
    ensures !FieldsHashable(cands) ==> r.Raised?
  {
    var byField: map<string, seq<Candidate>> := map f | f in KnownFields :: [];
    assert byField == ByField([]);
    for i := 0 to |cands|
      invariant byField == ByField(cands[..i])
      invariant FieldsHashable(cands[..i])
    {
      assert cands[..i + 1] == cands[..i] + [cands[i]];
      var f := cands[i].field;
      if HashKey(f).Raised? {
        assert !FieldsHashable(cands) by { assert cands[i] == cands[..i + 1][i]; }
        return Raised;
      }
      ByFieldStep(cands[..i], cands[i]);
      if f.Str? && f.s in byField {
        byField := byField[f.s := byField[f.s] + [cands[i]]];
      }
    }
    assert cands[..|cands|] == cands;
    r := Ok(byField);
  }

  /** One line per listed candidate, appended in order. */
  method AppendCandidateLines(lines: seq<PromptLine>, top: seq<Candidate>) returns (out: seq<PromptLine>)
    ensures out == lines + CandidateLines(top)
  {
    out := lines;
    for k := 0 to |top|
      invariant out == lines + CandidateLines(top[..k])
    {
      assert top[..k + 1][..k] == top[..k];
      out := out + [CandidateLine(top[k])];
    }
    assert top[..|top|] == top;
  }

  lemma {:induction false} BlocksForStep(fields: seq<string>, j: nat, cands: seq<Candidate>, limit: int)
    requires j < |fields|
    ensures BlocksFor(fields[..j + 1], cands, limit)
      == BlocksFor(fields[..j], cands, limit) + FieldBlock(fields[j], TopCandidates(cands, fields[j], limit))
  {
    assert fields[..j + 1][..j] == fields[..j];
  }

  /** The second pass of `_group_candidates_for_prompt`: a block per field that has candidates. */
  method FieldBlocks(fields: seq<string>, byField: map<string, seq<Candidate>>, cands: seq<Candidate>, limit: int)
    returns (lines: seq<PromptLine>)
    requires forall f :: f in fields ==> f in byField && byField[f] == FieldCandidates(cands, f)
    ensures lines == BlocksFor(fields, cands, limit)
  {
    lines := [];
    for j := 0 to |fields|
      invariant lines == BlocksFor(fields[..j], cands, limit)
    {
      var f := fields[j];
      var top := Prefix(SortDesc(byField[f], CandidateConfidence), limit);
      assert top == TopCandidates(cands, f, limit);
      BlocksForStep(fields, j, cands, limit);
      lines := AppendFieldBlock(lines, f, top);
    }
    assert fields[..|fields|] == fields;
  }

  /** One field's block: its header, a line per candidate and a blank line;
      nothing for a field without candidates. */
  method AppendFieldBlock(lines: seq<PromptLine>, f: string, top: seq<Candidate>) returns (out: seq<PromptLine>)
    ensures out == lines + FieldBlock(f, top)
  {
    out := lines;
    if top != [] {
      out := AppendCandidateLines(out + [Header(f)], top);
      out := out + [Blank];
    }
  }

  /** `_group_candidates_for_prompt`: the by-field lists are filled in one pass,
      then each field's candidates are sorted and cut. */
  method GroupCandidatesForPrompt(cands: seq<Candidate>, limit: int) returns (r: Outcome<seq<PromptLine>>)
    ensures r == AdjudicationPrompt(cands, limit)
  {
    var grouped := GroupByField(cands);
    if grouped.Raised? {
      return Raised;
    }
    var lines := FieldBlocks(KnownFields, grouped.value, cands, limit);
    r := Ok(DropTrailingBlank(lines));
  }

  /** The candidates listed for a field: at most `limit`, all naming that field and
      taken from the log, highest confidence first. */
  lemma {:induction false} TopCandidatesShape(cands: seq<Candidate>, f: string, limit: int)
    requires 0 <= limit
    ensures var top := TopCandidates(cands, f, limit);
      |top| <= limit
      && SortedDesc(top, CandidateConfidence)
      && forall c :: c in top ==> c in cands && c.field == Str(f)
  {
    var all := FieldCandidates(cands, f);
    SortDescSorted(all, CandidateConfidence);
    SortDescSameElements(all, CandidateConfidence);
    var top := TopCandidates(cands, f, limit);
    forall c | c in top ensures c in cands && c.field == Str(f) {
      assert c in SortDesc(all, CandidateConfidence);
    }
  }

  lemma {:induction false} CandidateLinesAreItems(cs: seq<Candidate>)
    ensures forall l :: l in CandidateLines(cs) ==> l.Item?
  {
    if cs != [] {
      CandidateLinesAreItems(cs[..|cs| - 1]);
    }
  }

  lemma {:induction false} FieldBlockHeader(f: string, top: seq<Candidate>)
    ensures forall l :: l in FieldBlock(f, top) && l.Header? ==> l.field == f
  {
    CandidateLinesAreItems(top);
  }

  /** Only the listed fields head a block of the prompt. */
  lemma {:induction false} PromptHeadersKnown(fields: seq<string>, cands: seq<Candidate>, limit: int)
    ensures forall l :: l in BlocksFor(fields, cands, limit) && l.Header? ==> l.field in fields
  {
    if fields != [] {
      var init, f := fields[..|fields| - 1], fields[|fields| - 1];
      PromptHeadersKnown(init, cands, limit);
      FieldBlockHeader(f, TopCandidates(cands, f, limit));
      forall l | l in BlocksFor(fields, cands, limit) && l.Header? ensures l.field in fields {
        if l in BlocksFor(init, cands, limit) {
          assert l.field in init;
        }
      }
    }
  }

  // ------------------------------------------------------------ coercion

  /** A coerced winner as written to `imaging_extracted.json`. */
  datatype Winner = Winner(value: Value, units: Value, page: int, evidence: string, confidence: real, reason: string)

  predicate IsFloatField(f: string) { f == "slice_thickness_mm" || f == "fov_mm" || f == "mAs" }

  predicate IsList(v: Value, n: nat) { v.Arr? && |v.items| == n }

  predicate AllReal(xs: seq<Value>) { forall i :: 0 <= i < |xs| ==> xs[i].Real? }

  predicate AllInt(xs: seq<Value>) { forall i :: 0 <= i < |xs| ==> xs[i].Int? }

  /** The shape a coerced value of field `fname` has, with its units. */
  predicate WellShaped(fname: string, v: Value, u: Value) {
    fname in KnownFields
    && (IsFloatField(fname) ==> v.Real?)
    && (fname == "kVp" ==> v.Int?)
    && (fname == "voxel_size_mm" ==> IsList(v, 3) && AllReal(v.items) && u == Str("mm"))
    && (fname == "matrix" ==> IsList(v, 2) && AllInt(v.items) && u == Str(""))
    && (fname == "kernel" || fname == "kernel_family" ==> v.Str?)
  }

  /** Every item converts with `float()`. */
  predicate FloatsConvert(xs: seq<Value>) { forall i :: 0 <= i < |xs| ==> ToFloat(xs[i]).Ok? }

  /** Every item converts with `int()`. */
  predicate IntsConvert(xs: seq<Value>) { forall i :: 0 <= i < |xs| ==> ToInt(xs[i]).Ok? }

  /** A voxel size: a 3-list converted item by item with `float()`. */
  function VoxelOf(v: Value): (r: Option<Value>)
    ensures r.Some? <==> IsList(v, 3) && FloatsConvert(v.items)
    ensures r.Some? ==> IsList(r.value, 3) && AllReal(r.value.items)
    ensures r.Some? ==> forall i :: 0 <= i < 3 ==> r.value.items[i] == Real(ToFloat(v.items[i]).value)
  {
    if IsList(v, 3) && FloatsConvert(v.items) then
      Some(Arr([Real(ToFloat(v.items[0]).value), Real(ToFloat(v.items[1]).value),
                Real(ToFloat(v.items[2]).value)]))
    else None
  }

  /** A matrix: a 2-list converted item by item with `int()`. */
  function MatrixOf(v: Value): (r: Option<Value>)
    ensures r.Some? <==> IsList(v, 2) && IntsConvert(v.items)
    ensures r.Some? ==> IsList(r.value, 2) && AllInt(r.value.items)
    ensures r.Some? ==> forall i :: 0 <= i < 2 ==> r.value.items[i] == Int(ToInt(v.items[i]).value)
  {
    if IsList(v, 2) && IntsConvert(v.items) then
      Some(Arr([Int(ToInt(v.items[0]).value), Int(ToInt(v.items[1]).value)]))
    else None
  }

  /** The conversion inside the `try` of `_coerce_field`: the coerced value and its
      units, or None for an unknown field, a wrong shape or a failed conversion. */
  function CoerceValue(fname: string, v: Value, u: Value): (r: Option<(Value, Value)>)
    ensures r.Some? ==> WellShaped(fname, r.value.0, r.value.1)
    ensures fname !in KnownFields ==> r.None?
    ensures IsFloatField(fname) ==>
      (r.Some? <==> ToFloat(v).Ok?) && (r.Some? ==> r.value == (Real(ToFloat(v).value), u))
    ensures fname == "kVp" ==>
      (r.Some? <==> ToInt(v).Ok?) && (r.Some? ==> r.value == (Int(ToInt(v).value), u))
    ensures fname == "voxel_size_mm" ==>
      (r.Some? <==> IsList(v, 3) && FloatsConvert(v.items))
      && (r.Some? ==> r.value.1 == Str("mm") && IsList(r.value.0, 3)
                      && forall i :: 0 <= i < 3 ==> r.value.0.items[i] == Real(ToFloat(v.items[i]).value))
    ensures fname == "matrix" ==>
      (r.Some? <==> IsList(v, 2) && IntsConvert(v.items))
      && (r.Some? ==> r.value.1 == Str("") && IsList(r.value.0, 2)
                      && forall i :: 0 <= i < 2 ==> r.value.0.items[i] == Int(ToInt(v.items[i]).value))
    ensures fname == "kernel" || fname == "kernel_family" ==> r == Some((Str(Render(v)), u))
  {
    if IsFloatField(fname) then
      match ToFloat(v) case Ok(x) => Some((Real(x), u)) case Raised => None
    else if fname == "kVp" then
      match ToInt(v) case Ok(n) => Some((Int(n), u)) case Raised => None
    else if fname == "voxel_size_mm" then
      match VoxelOf(v) case Some(w) => Some((w, Str("mm"))) case None => None
    else if fname == "matrix" then
      match MatrixOf(v) case Some(w) => Some((w, Str(""))) case None => None
    else if fname == "kernel" || fname == "kernel_family" then Some((Str(Render(v)), u))
    else None
  }

  /** A winner: a well-shaped value, the entry's page as an integer, and evidence and
      reason cut to 200 and 120 characters. */
  predicate ValidWinner(fname: string, m: map<string, Value>, w: Winner) {
    WellShaped(fname, w.value, w.units)
    && ToInt(Get(m, "page", Null)) == Ok(w.page)
    && ToFloat(Get(m, "confidence", Int(0))) == Ok(w.confidence)
    && |w.evidence| <= 200 && |w.reason| <= 120
  }

  /** The entry's value, units, page and confidence all convert for field `fname`. */
  predicate EntryConverts(fname: string, m: map<string, Value>) {
    CoerceValue(fname, Get(m, "value", Null), Or(Get(m, "units", Null), Str(""))).Some?
    && ToInt(Get(m, "page", Null)).Ok? && ToFloat(Get(m, "confidence", Int(0))).Ok?
  }

  /** The winner built from an entry whose evidence `e` and reason `r` are already stripped. */
  function CoerceEntry(fname: string, m: map<string, Value>, e: string, r: string): (w: Option<Winner>)
    ensures w.Some? <==> EntryConverts(fname, m)
    ensures w.Some? ==> ValidWinner(fname, m, w.value)
    ensures w.Some? ==>
      (w.value.value, w.value.units) == CoerceValue(fname, Get(m, "value", Null), Or(Get(m, "units", Null), Str(""))).value
      && w.value.evidence == Prefix(e, 200) && w.value.reason == Prefix(r, 120)
    ensures "page" !in m ==> w.None?
    ensures fname == "voxel_size_mm" && !IsList(Get(m, "value", Null), 3) ==> w.None?
    ensures fname == "matrix" && !IsList(Get(m, "value", Null), 2) ==> w.None?
  {
    match CoerceValue(fname, Get(m, "value", Null), Or(Get(m, "units", Null), Str("")))
    case None => None
    case Some((v, u)) =>
      match (ToInt(Get(m, "page", Null)), ToFloat(Get(m, "confidence", Int(0))))
      case (Ok(p), Ok(c)) => Some(Winner(v, u, p, Prefix(e, 200), c, Prefix(r, 120)))
      case _ => None
  }

  datatype Coerced = Coerced(winner: Winner) | Dropped | CoerceRaised

  /** `_coerce_field` as written: evidence and reason are stripped before the `try`,
      so a non-string evidence or reason raises instead of dropping the entry. */
  function CoerceFieldAsWritten(fname: string, entry: Value): Coerced {
    if !entry.Obj? then Dropped
    else
      var m := entry.fields;
      match (StrippedOrEmpty(Get(m, "evidence", Null)), StrippedOrEmpty(Get(m, "reason", Null)))
      case (Ok(e), Ok(r)) => (match CoerceEntry(fname, m, e, r) case Some(w) => Coerced(w) case None => Dropped)
      case _ => CoerceRaised
  }

  /**
   * `_coerce_field`, corrected so that an unreadable evidence or reason drops the
   * entry like every other failure: None for a non-object entry, an unknown field,
   * a missing page, a voxel size that is not a 3-list, a matrix that is not a
   * 2-list or any failed conversion; a winner otherwise, well shaped for its field.
   */
  function CoerceField(fname: string, entry: Value): (r: Option<Winner>)
    ensures !entry.Obj? ==> r.None?
    ensures fname !in KnownFields ==> r.None?
    ensures entry.Obj? && "page" !in entry.fields ==> r.None?
    ensures fname == "voxel_size_mm" && entry.Obj? && !IsList(Get(entry.fields, "value", Null), 3) ==> r.None?
    ensures fname == "matrix" && entry.Obj? && !IsList(Get(entry.fields, "value", Null), 2) ==> r.None?
    ensures r.Some? ==> entry.Obj? && ValidWinner(fname, entry.fields, r.value)
  {
    if !entry.Obj? then None
    else
      var m := entry.fields;
      match (StrippedOrEmpty(Get(m, "evidence", Null)), StrippedOrEmpty(Get(m, "reason", Null)))
      case (Ok(e), Ok(r)) => CoerceEntry(fname, m, e, r)
      case _ => None
  }

  /**
   * An object entry yields a winner exactly when every conversion succeeds; the
   * winner holds the converted value and units, and the stripped evidence and reason
   * cut to 200 and 120 characters.
   */
  lemma {:induction false} CoerceFieldWinner(fname: string, m: map<string, Value>)
    ensures var r := CoerceField(fname, Obj(m));
      (r.Some? <==> EntryConverts(fname, m) && StrippedOrEmpty(Get(m, "evidence", Null)).Ok?
                    && StrippedOrEmpty(Get(m, "reason", Null)).Ok?)
      && (r.Some? ==>
            (r.value.value, r.value.units) == CoerceValue(fname, Get(m, "value", Null), Or(Get(m, "units", Null), Str(""))).value
            && r.value.evidence == Prefix(StrippedOrEmpty(Get(m, "evidence", Null)).value, 200)
            && r.value.reason == Prefix(StrippedOrEmpty(Get(m, "reason", Null)).value, 120))
  {
    var ev := StrippedOrEmpty(Get(m, "evidence", Null));
    var rs := StrippedOrEmpty(Get(m, "reason", Null));
    if ev.Ok? && rs.Ok? {
      assert CoerceField(fname, Obj(m)) == CoerceEntry(fname, m, ev.value, rs.value);
    }
  }

  /** The corrected coercion agrees with the code wherever the code does not raise. */
  lemma {:induction false} CoerceFieldAgrees(fname: string, entry: Value)
    ensures CoerceFieldAsWritten(fname, entry).Coerced? ==> CoerceField(fname, entry) == Some(CoerceFieldAsWritten(fname, entry).winner)
    ensures CoerceFieldAsWritten(fname, entry).Dropped? ==> CoerceField(fname, entry).None?
    ensures CoerceFieldAsWritten(fname, entry).CoerceRaised? ==> CoerceField(fname, entry).None?
  {
  }

  /** A kVp entry whose evidence is a number: the code raises, the corrected coercion drops it. */
  lemma CoerceRaisesOnNumericEvidence()
    ensures var entry := Obj(map["value" := Int(120), "page" := Int(3), "evidence" := Int(7)]);
      CoerceFieldAsWritten("kVp", entry).CoerceRaised? && CoerceField("kVp", entry).None?
  {
  }

  // ------------------------------------------------------------ adjudication

  /** `resp.get("fields") or {}` as a dict; anything else raises at `.items()`. */
  function RawFields(resp: Value): Outcome<map<string, Value>> {
    if !resp.Obj? then Raised
    else
      var raw := Or(Get(resp.fields, "fields", Null), Obj(map[]));
      if raw.Obj? then Ok(raw.fields) else Raised
  }

  /** The coerced entries among the fields `keys` of the reply. */
  function WinnersAmong(raw: map<string, Value>, keys: set<string>): map<string, Winner> {
    map k | k in raw && k in keys && CoerceField(k, raw[k]).Some? :: CoerceField(k, raw[k]).value
  }

  /** The coerced entries of the reply, one per field that survives coercion. */
  function WinnersOf(raw: map<string, Value>): map<string, Winner> {
    WinnersAmong(raw, raw.Keys)
  }

  lemma {:induction false} WinnersAmongStep(raw: map<string, Value>, keys: set<string>, k: string)
    requires k in raw && k !in keys
    ensures WinnersAmong(raw, keys + {k}) ==
      if CoerceField(k, raw[k]).Some? then WinnersAmong(raw, keys)[k := CoerceField(k, raw[k]).value]
      else WinnersAmong(raw, keys)
  {
  }

  function WinnersAsWritten(raw: map<string, Value>): map<string, Winner> {
    map k | k in raw && CoerceFieldAsWritten(k, raw[k]).Coerced? :: CoerceFieldAsWritten(k, raw[k]).winner
  }

  lemma {:induction false} WinnersAgree(raw: map<string, Value>)
    requires forall k :: k in raw ==> !CoerceFieldAsWritten(k, raw[k]).CoerceRaised?
    ensures WinnersOf(raw) == WinnersAsWritten(raw)
  {
    var w, v := WinnersOf(raw), WinnersAsWritten(raw);
    forall k | k in raw ensures (k in w <==> k in v) && (k in w ==> w[k] == v[k]) {
      CoerceFieldAgrees(k, raw[k]);
    }
    assert w.Keys == v.Keys;
    MapsEqual(w, v);
  }

  lemma {:induction false} MapsEqual<K, V>(a: map<K, V>, b: map<K, V>)
    requires a.Keys == b.Keys && forall k :: k in a ==> a[k] == b[k]
    ensures a == b
  {
  }

  /** `adjudicate_candidates_async` as written: a coercion that raises aborts it. */
  function AdjudicationAsWritten(cands: seq<Candidate>, reply: LlmReply): Outcome<map<string, Winner>> {
    if cands == [] then Ok(map[])
    else if AdjudicationPrompt(cands, 5).Raised? then Raised
    else match reply
      case Failure(_) => Ok(map[])
      case Reply(resp) =>
        match RawFields(resp)
        case Raised => Raised
        case Ok(raw) =>
          if exists k :: k in raw && CoerceFieldAsWritten(k, raw[k]).CoerceRaised? then Raised
          else Ok(WinnersAsWritten(raw))
  }

  /** The adjudication with the corrected coercion. */
  function Adjudication(cands: seq<Candidate>, reply: LlmReply): Outcome<map<string, Winner>> {
    if cands == [] then Ok(map[])
    else if AdjudicationPrompt(cands, 5).Raised? then Raised
    else match reply
      case Failure(_) => Ok(map[])
      case Reply(resp) =>
        match RawFields(resp)
        case Raised => Raised
        case Ok(raw) => Ok(WinnersOf(raw))
  }

  /**
   * The winners: none for an empty log or a failed call; otherwise one coerced
   * entry per known field the reply names, each exactly the coercion of the
   * reply's entry.
   */
  lemma {:induction false} AdjudicationWinners(cands: seq<Candidate>, reply: LlmReply)
    ensures cands == [] ==> Adjudication(cands, reply) == Ok(map[])
    ensures FieldsHashable(cands) && reply.Failure? ==> Adjudication(cands, reply) == Ok(map[])
    ensures Adjudication(cands, reply).Ok? ==> forall k :: k in Adjudication(cands, reply).value ==> k in KnownFields
    ensures cands != [] && reply.Reply? && Adjudication(cands, reply).Ok? ==>
      RawFields(reply.json).Ok? &&
      forall k :: k in Adjudication(cands, reply).value <==>
        k in RawFields(reply.json).value && CoerceField(k, RawFields(reply.json).value[k]).Some?
  {
  }

  /** The corrected adjudication agrees with the code wherever the code does not raise. */
  lemma {:induction false} AdjudicationAgrees(cands: seq<Candidate>, reply: LlmReply)
    ensures AdjudicationAsWritten(cands, reply).Ok? ==> Adjudication(cands, reply) == AdjudicationAsWritten(cands, reply)
  {
    if AdjudicationAsWritten(cands, reply).Ok? && cands != [] && reply.Reply? && RawFields(reply.json).Ok? {
      WinnersAgree(RawFields(reply.json).value);
    }
  }

  /** One kVp candidate, and a reply whose kVp entry carries numeric evidence. */
  const NumericEvidenceCands := [Candidate(Str("kVp"), 3, "120 kVp", Int(120), "kVp", "120 kVp", 0.9, "")]
  const NumericEvidenceRaw := map["kVp" := Obj(map["value" := Int(120), "page" := Int(3), "evidence" := Int(7)])]
  const NumericEvidenceReply := Reply(Obj(map["fields" := Obj(NumericEvidenceRaw)]))

  lemma {:induction false} NumericEvidenceReaches()
    ensures AdjudicationPrompt(NumericEvidenceCands, 5).Ok?
    ensures RawFields(NumericEvidenceReply.json) == Ok(NumericEvidenceRaw)
  {
    assert FieldsHashable(NumericEvidenceCands);
  }

  /** On that reply the code as written raises out of the adjudication. */
  lemma {:induction false} AsWrittenRaisesOnNumericEvidence()
    ensures AdjudicationAsWritten(NumericEvidenceCands, NumericEvidenceReply).Raised?
  {
    NumericEvidenceReaches();
    CoerceRaisesOnNumericEvidence();
    assert CoerceFieldAsWritten("kVp", NumericEvidenceRaw["kVp"]).CoerceRaised?;
  }

  /** On that reply the corrected adjudication leaves kVp out. */
  lemma {:induction false} CorrectedSkipsNumericEvidence()
    ensures Adjudication(NumericEvidenceCands, NumericEvidenceReply) == Ok(map[])
  {
    NumericEvidenceReaches();
    CoerceRaisesOnNumericEvidence();
    assert WinnersOf(NumericEvidenceRaw) == map[];
  }

  /** `adjudicate_candidates_async` with the corrected coercion: builds the prompt,
      then coerces the reply's entries one by one. */
  method AdjudicateCandidates(cands: seq<Candidate>, reply: LlmReply) returns (r: Outcome<map<string, Winner>>)
    ensures r == Adjudication(cands, reply)
    ensures AdjudicationAsWritten(cands, reply).Ok? ==> r == AdjudicationAsWritten(cands, reply)
  {
    AdjudicationAgrees(cands, reply);
    if cands == [] {
      return Ok(map[]);
    }
    var prompt := GroupCandidatesForPrompt(cands, 5);
    if prompt.Raised? {
      return Raised;
    }
    if reply.Failure? {
      return Ok(map[]);
    }
    var raw := RawFields(reply.json);
    if raw.Raised? {
      return Raised;
    }
    var entries := raw.value;
    var finalFields: map<string, Winner> := map[];
    var done: set<string> := {};
    assert finalFields == WinnersAmong(entries, done);
    while done != entries.Keys
      invariant done <= entries.Keys
      invariant finalFields == WinnersAmong(entries, done)
      decreases |entries.Keys - done|
    {
      var fname :| fname in entries.Keys - done;
      WinnersAmongStep(entries, done, fname);
      var coerced := CoerceField(fname, entries[fname]);
      if coerced.Some? {
        finalFields := finalFields[fname := coerced.value];
      }
      done := done + {fname};
    }
    r := Ok(finalFields);
  }

  // ------------------------------------------------------------ the pass

  /** The seed loop of `run_protocol_extraction_async`: each seed's window
      through the extractor, in order; a seed without a page adds nothing. */
  method SeedCandidates(pages: seq<Page>, ss: seq<Value>, extractReply: nat -> LlmReply) returns (log: seq<Candidate>)
    ensures log == SeedLog(pages, ss, extractReply)
  {
    log := [];
    for j := 0 to |ss|
      invariant log == SeedLog(pages, ss[..j], extractReply)
    {
      assert ss[..j + 1][..j] == ss[..j];
      var pidx := SeedPage(ss[j]);
      if pidx.None? {
        continue;
      }
      var window, center := BuildWindows(pages, pidx.value, 1);
      var hits := ExtractCtCommon(window, center, extractReply(j));
      log := log + hits;
    }
    assert ss[..|ss|] == ss;
  }

  /** The sections a pass works from: those given, else the stored `sections.json`
      (`Null` when the file is missing or cannot be decoded). */
  function PassSections(given: Value, stored: Value): (r: Value)
    ensures given != Null ==> r == given
    ensures given == Null ==> r == stored
  {
    if given == Null then stored else given
  }

  /**
   * The seeds of a pass: None when it stops before the seed loop (no pages, falsy
   * sections, or no truthy `candidates` entry); Raised when `sections.get` is applied
   * to something other than a dict or the seed list cannot be iterated.
   */
  function PassSeeds(pages: seq<Page>, sections: Value): (r: Outcome<Option<seq<Value>>>)
    ensures pages == [] || !Truthy(sections) ==> r == Ok(None)
    ensures pages != [] && Truthy(sections) && !sections.Obj? ==> r.Raised?
    ensures sections.Obj? && !Truthy(Get(sections.fields, "candidates", Null)) ==> r == Ok(None)
    ensures r.Ok? && r.value.Some? ==>
      pages != [] && sections.Obj? && Truthy(Get(sections.fields, "candidates", Null))
      && SeedList(Get(sections.fields, "candidates", Null)) == Ok(r.value.value)
  {
    if pages == [] || !Truthy(sections) then Ok(None)
    else if !sections.Obj? then Raised
    else
      var seeds := Get(sections.fields, "candidates", Null);
      if !Truthy(seeds) then Ok(None)
      else match SeedList(seeds)
        case Raised => Raised
        case Ok(xs) => Ok(Some(xs))
  }

  /** The two artifact files of a protocol-card pass. */
  class ExtractionArtifacts {
    /** `imaging_candidates.jsonl`, one candidate per line. */
    var candidateLog: seq<Candidate>
    /** The fields of `imaging_extracted.json`; None until a pass writes it. */
    var extracted: Option<map<string, Winner>>

    constructor ()
      ensures candidateLog == [] && extracted == None
    {
      candidateLog := [];
      extracted := None;
    }

    /**
     * `run_protocol_extraction_async`: the log is truncated first; the sections are
     * those given, else the stored ones; without pages, sections or seeds the pass
     * stops there; otherwise every seed appends its window's candidates (a failing
     * seed appends nothing) and the adjudication rewrites the winners, unless it
     * raises, in which case the old winners stay. Sections that are not a dict, or
     * a seed list that cannot be iterated, raise out of the pass. The result says
     * whether the winners were written.
     */
    method RunProtocolExtraction(pages: seq<Page>, sections: Value, storedSections: Value,
                                 extractReply: nat -> LlmReply, adjudicationReply: LlmReply)
      returns (r: Outcome<bool>)
      modifies this
      ensures PassSeeds(pages, PassSections(sections, storedSections)) == Ok(None) ==>
        candidateLog == [] && extracted == old(extracted) && r == Ok(false)
      ensures PassSeeds(pages, PassSections(sections, storedSections)).Raised? ==>
        candidateLog == [] && extracted == old(extracted) && r.Raised?
      ensures PassSeeds(pages, PassSections(sections, storedSections)).Ok? &&
              PassSeeds(pages, PassSections(sections, storedSections)).value.Some? ==>
        candidateLog == SeedLog(pages, PassSeeds(pages, PassSections(sections, storedSections)).value.value, extractReply)
        && (match Adjudication(candidateLog, adjudicationReply)
            case Raised => extracted == old(extracted) && r == Ok(false)
            case Ok(w) => extracted == Some(w) && r == Ok(true))
        && (AdjudicationAsWritten(candidateLog, adjudicationReply).Ok? ==>
              extracted == Some(AdjudicationAsWritten(candidateLog, adjudicationReply).value))
    {
      candidateLog := [];
      var seeds := PassSeeds(pages, PassSections(sections, storedSections));
      if seeds.Raised? {
        return Raised;
      }
      if seeds.value.None? {
        return Ok(false);
      }
      candidateLog := SeedCandidates(pages, seeds.value.value, extractReply);
      var res := AdjudicateCandidates(candidateLog, adjudicationReply);
      if res.Raised? {
        return Ok(false);
      }
      extracted := Some(res.value);
      r := Ok(true);
    }
  }
}
