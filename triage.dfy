/**
 * Paper triage: the early-page text sent to the imaging classifier and the
 * title extractor, the fallback verdict, the clean-up of the extracted title,
 * and the selection of the method pages by their per-page classification.
 * Each LLM call is a parameter: `reply` for a single call, `replyFor(i)` for
 * the call made on page `i`.
 */
module Triage {
  import opened Py
  import opened StableSort
  import opened LlmClient

  /** One page of extracted PDF text, as `pdf_pages_text` returns it. */
  datatype Page = Page(page: int, text: string)

  // ------------------------------------------------------------ early text

  /** The stripped texts of the pages that are not blank, in page order. */
  function NonBlankTexts(pages: seq<Page>): seq<string> {
    if pages == [] then []
    else
      var t := Strip(pages[|pages| - 1].text);
      NonBlankTexts(pages[..|pages| - 1]) + (if t != "" then [t] else [])
  }

  /** The first `n` pages' non-blank texts joined by blank lines, cut to `maxChars`. */
  function EarlyTextOf(pages: seq<Page>, n: int, maxChars: int): string {
    var blocks := NonBlankTexts(Prefix(pages, n));
    if blocks == [] then "" else Prefix(Join("\n\n", blocks), maxChars)
  }

  /** The early-text loop of `imaging_verdict` and `infer_title`. */
  method EarlyText(pages: seq<Page>, n: int, maxChars: int) returns (text: string)
    ensures text == EarlyTextOf(pages, n, maxChars)
    ensures 0 <= maxChars ==> |text| <= maxChars
  {
    var first := Prefix(pages, n);
    var blocks: seq<string> := [];
    for i := 0 to |first|
      invariant blocks == NonBlankTexts(first[..i])
    {
      NonBlankTextsStep(first, i);
      var t := Strip(first[i].text);
      if t != "" {
        blocks := blocks + [t];
      }
    }
    assert first[..|first|] == first;
    text := if blocks == [] then "" else Prefix(Join("\n\n", blocks), maxChars);
    assert EarlyTextOf(pages, n, maxChars) == text;
  }

  lemma {:induction false} NonBlankTextsStep(pages: seq<Page>, i: int)
    requires 0 <= i < |pages|
    ensures NonBlankTexts(pages[..i + 1]) == NonBlankTexts(pages[..i])
      + (if Strip(pages[i].text) != "" then [Strip(pages[i].text)] else [])
  {
    assert pages[..i + 1][..i] == pages[..i];
  }

  /** Blank pages contribute nothing: the early text equals that of the pages with
      their blank ones removed. */
  lemma {:induction false} BlankPageIgnored(pages: seq<Page>, p: Page)
    requires Strip(p.text) == ""
    ensures NonBlankTexts(pages + [p]) == NonBlankTexts(pages)
  {
    assert (pages + [p])[..|pages|] == pages;
  }

  // ------------------------------------------------------------ imaging verdict

  /** The verdict returned when the classifier call fails. */
  function FallbackVerdict(message: string): (v: Value)
    ensures v.Obj? && Get(v.fields, "is_imaging", Null) == Bool(false)
    ensures Get(v.fields, "modalities", Null) == Arr([]) && Get(v.fields, "confidence", Null) == Real(0.0)
  {
    Obj(map[
      "is_imaging" := Bool(false),
      "modalities" := Arr([]),
      "confidence" := Real(0.0),
      "reasons" := Arr([Str("llm error: " + Prefix(message, 120))]),
      "counter_signals" := Arr([Str("fallback verdict")])
    ])
  }

  /** `imaging_verdict`: the early text of the first three pages (at most 6000
      characters) is what the classifier sees; its reply is returned as is, and a
      failed call gives the non-imaging fallback. */
  method ImagingVerdict(pages: seq<Page>, reply: LlmReply) returns (earlyText: string, verdict: Value)
    ensures earlyText == EarlyTextOf(pages, 3, 6000) && |earlyText| <= 6000
    ensures reply.Reply? ==> verdict == reply.json
    ensures reply.Failure? ==> verdict == FallbackVerdict(reply.message)
  {
    earlyText := EarlyText(pages, 3, 6000);
    match reply {
      case Reply(v) => verdict := v;
      case Failure(e) => verdict := FallbackVerdict(e);
    }
  }

  // ------------------------------------------------------------ title

  datatype TitleResult = TitleResult(title: string, confidence: real, reasons: Value)

  predicate IsTitleTrim(c: char) { c == ' ' || c == ':' || c == '-' }

  /** Titles longer than 300 characters keep their first 297 followed by "...". */
  function CapTitle(t: string): (r: string)
    ensures |r| <= 300
    ensures |t| <= 300 ==> r == t
    ensures 300 < |t| ==> |r| == 300 && r[..297] == t[..297] && r[297..] == "..."
  {
    if |t| > 300 then t[..297] + "..." else t
  }

  /** A title starting with "abstract" (any case) loses those 8 characters and then
      spaces, colons and hyphens at both ends. */
  function DropAbstract(t: string): string {
    if StartsWith(Lower(t), "abstract") then TrimEnd(TrimStart(t[8..], IsTitleTrim), IsTitleTrim) else t
  }

  /** The clean-up of `infer_title`: collapse whitespace, cap the length, drop a
      leading "abstract". */
  function CleanTitle(title: string): string {
    DropAbstract(CapTitle(CollapseSpaces(title)))
  }

  lemma {:induction false} WellSpacedSlice(s: string, a: nat, b: nat)
    requires WellSpaced(s) && a <= b <= |s|
    requires a < b ==> !IsSpace(s[a]) && !IsSpace(s[b - 1])
    ensures WellSpaced(s[a..b]) && Stripped(s[a..b])
  {
    var r := s[a..b];
    forall i | 0 <= i < |r| && IsSpace(r[i])
      ensures r[i] == ' ' && 0 < i < |r| - 1 && !IsSpace(r[i - 1]) && !IsSpace(r[i + 1])
    {
      assert r[i] == s[a + i];
      assert r[i - 1] == s[a + i - 1];
      assert r[i + 1] == s[a + i + 1];
    }
  }

  lemma {:induction false} CapWellSpaced(s: string)
    requires WellSpaced(s) && Stripped(s)
    ensures WellSpaced(CapTitle(s)) && Stripped(CapTitle(s))
  {
    if |s| > 300 {
      var r := CapTitle(s);
      forall i | 0 <= i < |r| && IsSpace(r[i])
        ensures r[i] == ' ' && 0 < i < |r| - 1 && !IsSpace(r[i - 1]) && !IsSpace(r[i + 1])
      {
        assert i < 297 && r[i] == s[i] && r[i - 1] == s[i - 1];
        if i < 296 {
          assert r[i + 1] == s[i + 1];
        }
      }
      assert r[0] == s[0] && r[|r| - 1] == '.';
    }
  }

  lemma {:induction false} TrimStartSlice(t: string, k: nat) returns (a: nat)
    requires k <= |t|
    ensures k <= a <= |t| && TrimStart(t[k..], IsTitleTrim) == t[a..]
    ensures forall i :: k <= i < a ==> IsTitleTrim(t[i])
    ensures a < |t| ==> !IsTitleTrim(t[a])
  {
    var u := t[k..];
    var v := TrimStart(u, IsTitleTrim);
    a := k + (|u| - |v|);
    assert v == t[a..];
    forall i | k <= i < a ensures IsTitleTrim(t[i]) {
      assert t[i] == u[i - k];
    }
    if a < |t| {
      assert t[a] == v[0];
    }
  }

  lemma {:induction false} TrimEndSlice(t: string, a: nat) returns (b: nat)
    requires a <= |t|
    ensures a <= b <= |t| && TrimEnd(t[a..], IsTitleTrim) == t[a..b]
    ensures forall i :: b <= i < |t| ==> IsTitleTrim(t[i])
    ensures a < b ==> !IsTitleTrim(t[b - 1])
  {
    var v := t[a..];
    var w := TrimEnd(v, IsTitleTrim);
    b := a + |w|;
    assert w == t[a..b];
    forall i | b <= i < |t| ensures IsTitleTrim(t[i]) {
      assert t[i] == v[i - a];
    }
    if a < b {
      assert t[b - 1] == w[|w| - 1];
    }
  }

  /** `t[8:].strip(" :-")` is the slice `t[a..b]` with only trimmed characters outside it. */
  lemma {:induction false} TrimmedSlice(t: string) returns (a: nat, b: nat)
    requires 8 <= |t|
    ensures 8 <= a <= b <= |t|
    ensures TrimEnd(TrimStart(t[8..], IsTitleTrim), IsTitleTrim) == t[a..b]
    ensures forall i :: 8 <= i < a ==> IsTitleTrim(t[i])
    ensures forall i :: b <= i < |t| ==> IsTitleTrim(t[i])
    ensures a < b ==> !IsTitleTrim(t[a]) && !IsTitleTrim(t[b - 1])
  {
    a := TrimStartSlice(t, 8);
    b := TrimEndSlice(t, a);
  }

  /** The clean title has no whitespace runs and no whitespace at either end. */
  lemma {:induction false} CleanTitleWellSpaced(title: string)
    ensures WellSpaced(CleanTitle(title)) && Stripped(CleanTitle(title))
  {
    var c := CollapseSpaces(title);
    CollapseWellSpaced(title);
    CapWellSpaced(c);
    var t := CapTitle(c);
    if StartsWith(Lower(t), "abstract") {
      var a, b := TrimmedSlice(t);
      WellSpacedSlice(t, a, b);
      assert CleanTitle(title) == t[a..b];
    } else {
      assert CleanTitle(title) == t;
    }
  }

  /** The clean title is at most 300 characters long. */
  lemma {:induction false} CleanTitleLength(title: string)
    ensures |CleanTitle(title)| <= 300
  {
    var t := CapTitle(CollapseSpaces(title));
    if StartsWith(Lower(t), "abstract") {
      var a, b := TrimmedSlice(t);
      assert CleanTitle(title) == t[a..b];
    }
  }

  /** A capped title that starts with "abstract" becomes a slice of itself after
      position 8, with only spaces, colons and hyphens cut from either end. */
  lemma {:induction false} AbstractDropped(title: string)
    requires StartsWith(Lower(CapTitle(CollapseSpaces(title))), "abstract")
    ensures var t := CapTitle(CollapseSpaces(title));
      exists a, b :: 8 <= a <= b <= |t| && CleanTitle(title) == t[a..b]
        && (forall i :: 8 <= i < a ==> IsTitleTrim(t[i]))
        && (forall i :: b <= i < |t| ==> IsTitleTrim(t[i]))
        && (a < b ==> !IsTitleTrim(t[a]) && !IsTitleTrim(t[b - 1]))
  {
    var t := CapTitle(CollapseSpaces(title));
    var a, b := TrimmedSlice(t);
    assert CleanTitle(title) == t[a..b];
  }

  /** The title fields of a successful reply; a reply that is not an object, or
      whose title or confidence cannot be read, raises. */
  function TitleFromReply(resp: Value): Outcome<TitleResult> {
    if !resp.Obj? then Raised
    else
      var m := resp.fields;
      match (StrippedOrEmpty(Get(m, "title", Null)), ToFloat(Or(Get(m, "confidence", Int(0)), Int(0))))
      case (Ok(t), Ok(conf)) => Ok(TitleResult(CleanTitle(t), conf, Or(Get(m, "reasons", Null), Arr([]))))
      case _ => Raised
  }

  /** `infer_title`: no early text means no call and an empty title; a failed
      call gives an empty title; otherwise the cleaned title of the reply. */
  method InferTitle(pages: seq<Page>, maxPages: int, maxChars: int, reply: LlmReply)
    returns (r: Outcome<TitleResult>)
    ensures EarlyTextOf(pages, maxPages, maxChars) == "" ==>
              r == Ok(TitleResult("", 0.0, Arr([Str("no text available")])))
    ensures EarlyTextOf(pages, maxPages, maxChars) != "" && reply.Failure? ==>
              r == Ok(TitleResult("", 0.0, Arr([Str("llm error")])))
    ensures EarlyTextOf(pages, maxPages, maxChars) != "" && reply.Reply? ==> r == TitleFromReply(reply.json)
    ensures r.Ok? ==> WellSpaced(r.value.title) && Stripped(r.value.title) && |r.value.title| <= 300
  {
    var early := EarlyText(pages, maxPages, maxChars);
    if early == "" {
      return Ok(TitleResult("", 0.0, Arr([Str("no text available")])));
    }
    match reply {
      case Failure(_) =>
        return Ok(TitleResult("", 0.0, Arr([Str("llm error")])));
      case Reply(resp) =>
        r := TitleFromReply(resp);
        if r.Ok? {
          var t := StrippedOrEmpty(Get(resp.fields, "title", Null)).value;
          CleanTitleWellSpaced(t);
          CleanTitleLength(t);
        }
    }
  }

  // ------------------------------------------------------------ page selection

  /** A kept page; `labels` is the set of the reply's labels. */
  datatype TriageEntry = TriageEntry(page: int, score: real, labels: set<Key>, modalities: Value, snippets: Value)

  function EntryScore(e: TriageEntry): real { e.score }

  /** `set(v)`: lists give the set of their (hashable) items, strings their
      characters, dicts their keys; anything else raises. */
  function LabelSet(v: Value): (r: Outcome<set<Key>>)
    ensures v.Arr? ==> (r.Ok? <==> forall i :: 0 <= i < |v.items| ==> HashKey(v.items[i]).Ok?)
    ensures v.Arr? && r.Ok? ==> forall i :: 0 <= i < |v.items| ==> HashKey(v.items[i]).value in r.value
    ensures v.Arr? && r.Ok? ==> forall k :: k in r.value ==> exists i :: 0 <= i < |v.items| && HashKey(v.items[i]) == Ok(k)
    ensures v.Str? ==> r.Ok? && forall k :: k in r.value <==> exists i :: 0 <= i < |v.s| && k == KStr([v.s[i]])
    ensures v.Obj? ==> r.Ok? && forall k :: k in r.value <==> k.KStr? && k.s in v.fields
    ensures !(v.Arr? || v.Str? || v.Obj?) ==> r.Raised?
  {
    match v
    case Arr(items) =>
      if forall i :: 0 <= i < |items| ==> HashKey(items[i]).Ok? then
        Ok(set i | 0 <= i < |items| :: HashKey(items[i]).value)
      else Raised
    case Str(s) => Ok(set i | 0 <= i < |s| :: KStr([s[i]]))
    case Obj(m) => Ok(set k | k in m :: KStr(k))
    case _ => Raised
  }

  /** The page is about methods or acquisition, or names a modality. */
  predicate Selected(labels: set<Key>, mods: Value) {
    KStr("methods") in labels || KStr("acquisition") in labels || Truthy(mods)
  }

  /**
   * One iteration of the `triage_pages` loop: None when the page is skipped.
   * A page with text and a reply is kept exactly when the reply is a dict
   * whose labels, modalities and score select it and whose evidence can be
   * sliced; the entry then carries the reply's own score, label set,
   * modalities and first three snippets. Reading a non-dict reply, an
   * unhashable label or an unconvertible score raises.
   */
  function ClassifyPage(p: Page, reply: LlmReply): (r: Outcome<Option<TriageEntry>>)
    ensures p.text == "" || reply.Failure? ==> r == Ok(None)
    ensures p.text != "" && reply.Reply? && !reply.json.Obj? ==> r.Raised?
    ensures p.text != "" && reply.Reply? && reply.json.Obj? ==>
      var m := reply.json.fields;
      var labels := LabelSet(Or(Get(m, "labels", Null), Arr([])));
      var score := ToFloat(Or(Get(m, "score", Int(0)), Int(0)));
      var mods := Or(Get(m, "modalities", Null), Arr([]));
      var snippets := SliceValue(Or(Get(m, "evidence", Null), Arr([])), 3);
      (labels.Raised? || score.Raised? ==> r.Raised?)
      && (labels.Ok? && score.Ok? ==>
            ((r.Ok? && r.value.Some?) <==> Selected(labels.value, mods) && score.value > 0.0 && snippets.Ok?)
            && (!(Selected(labels.value, mods) && score.value > 0.0) ==> r == Ok(None))
            && (r.Ok? && r.value.Some? ==>
                  r.value.value == TriageEntry(p.page, score.value, labels.value, mods, snippets.value)))
    ensures r.Ok? && r.value.Some? ==>
      var e := r.value.value;
      p.text != "" && reply.Reply? && e.page == p.page && e.score > 0.0
      && Selected(e.labels, e.modalities)
      && (e.snippets.Arr? ==> |e.snippets.items| <= 3) && (e.snippets.Str? ==> |e.snippets.s| <= 3)
  {
    if p.text == "" then Ok(None)
    else match reply
      case Failure(_) => Ok(None)
      case Reply(resp) =>
        if !resp.Obj? then Raised
        else
          var m := resp.fields;
          var mods := Or(Get(m, "modalities", Null), Arr([]));
          match (LabelSet(Or(Get(m, "labels", Null), Arr([]))), ToFloat(Or(Get(m, "score", Int(0)), Int(0))))
          case (Ok(labels), Ok(score)) =>
            if Selected(labels, mods) && score > 0.0 then
              match SliceValue(Or(Get(m, "evidence", Null), Arr([])), 3)
              case Ok(snippets) => Ok(Some(TriageEntry(p.page, score, labels, mods, snippets)))
              case Raised => Raised
            else Ok(None)
          case _ => Raised
  }

  /** A page whose reply labels it "methods" with a positive score is kept,
      with that score, its labels and its first three evidence items. */
  lemma {:induction false} MethodsPageKept(p: Page, m: map<string, Value>, labels: seq<string>, score: real, evidence: seq<Value>)
    requires p.text != ""
    requires "methods" in labels && 0.0 < score
    requires Get(m, "labels", Null) == Arr(StrValues(labels))
    requires Get(m, "score", Int(0)) == Real(score)
    requires Get(m, "evidence", Null) == Arr(evidence)
    ensures ClassifyPage(p, Reply(Obj(m))).Ok?
    ensures var e := ClassifyPage(p, Reply(Obj(m))).value;
      e.Some? && e.value.page == p.page && e.value.score == score
      && e.value.labels == (set l | l in labels :: KStr(l))
      && e.value.snippets == Arr(Prefix(evidence, 3))
  {
  }

  /** The entries the loop appends, in page order. */
  function Kept(pages: seq<Page>, replyFor: nat -> LlmReply): Outcome<seq<TriageEntry>> {
    if pages == [] then Ok([])
    else
      match Kept(pages[..|pages| - 1], replyFor)
      case Raised => Raised
      case Ok(k) =>
        match ClassifyPage(pages[|pages| - 1], replyFor(|pages| - 1))
        case Raised => Raised
        case Ok(None) => Ok(k)
        case Ok(Some(e)) => Ok(k + [e])
  }

  /** `triage_pages`: the kept entries sorted by score, highest first, cut to `topK`. */
  function TriageOf(pages: seq<Page>, replyFor: nat -> LlmReply, topK: int): Outcome<seq<TriageEntry>> {
    match Kept(pages, replyFor)
    case Raised => Raised
    case Ok(k) => Ok(Prefix(SortDesc(k, EntryScore), topK))
  }

  method TriagePages(pages: seq<Page>, replyFor: nat -> LlmReply, topK: int) returns (r: Outcome<seq<TriageEntry>>)
    ensures r == TriageOf(pages, replyFor, topK)
  {
    var results: seq<TriageEntry> := [];
    for i := 0 to |pages|
      invariant Kept(pages[..i], replyFor) == Ok(results)
    {
      assert pages[..i + 1][..i] == pages[..i];
      var step := ClassifyPage(pages[i], replyFor(i));
      if step.Raised? {
        KeptRaisedPersists(pages, replyFor, i + 1);
        assert pages[..|pages|] == pages;
        return Raised;
      }
      if step.value.Some? {
        results := results + [step.value.value];
      }
    }
    assert pages[..|pages|] == pages;
    results := SortDesc(results, EntryScore);
    r := Ok(Prefix(results, topK));
  }

  lemma {:induction false} KeptRaisedPersists(pages: seq<Page>, replyFor: nat -> LlmReply, i: nat)
    requires i <= |pages| && Kept(pages[..i], replyFor).Raised?
    ensures Kept(pages, replyFor).Raised?
    decreases |pages| - i
  {
    if i < |pages| {
      assert pages[..i + 1][..i] == pages[..i];
      KeptRaisedPersists(pages, replyFor, i + 1);
    } else {
      assert pages[..i] == pages;
    }
  }

  /** Every kept entry comes from some page's own classification. */
  lemma {:induction false} KeptFromPages(pages: seq<Page>, replyFor: nat -> LlmReply)
    requires Kept(pages, replyFor).Ok?
    ensures forall e :: e in Kept(pages, replyFor).value ==>
      exists i :: 0 <= i < |pages| && ClassifyPage(pages[i], replyFor(i)) == Ok(Some(e))
  {
    if pages != [] {
      var init := pages[..|pages| - 1];
      KeptFromPages(init, replyFor);
      forall e | e in Kept(pages, replyFor).value
        ensures exists i :: 0 <= i < |pages| && ClassifyPage(pages[i], replyFor(i)) == Ok(Some(e))
      {
        if e in Kept(init, replyFor).value {
          var i :| 0 <= i < |init| && ClassifyPage(init[i], replyFor(i)) == Ok(Some(e));
          assert pages[i] == init[i];
        } else {
          assert ClassifyPage(pages[|pages| - 1], replyFor(|pages| - 1)) == Ok(Some(e));
        }
      }
    }
  }

  /**
   * The triage result: at most `topK` entries, each one a page that passed the
   * selection (non-empty text, successful call, a methods/acquisition label or a
   * modality, positive score, at most three snippets), in non-increasing score
   * order; the sort is stable, so entries with equal scores keep page order.
   */
  lemma {:induction false} TriageResult(pages: seq<Page>, replyFor: nat -> LlmReply, topK: int)
    requires 0 <= topK && TriageOf(pages, replyFor, topK).Ok?
    ensures var r := TriageOf(pages, replyFor, topK).value;
      var kept := Kept(pages, replyFor).value;
      |r| <= topK
      && SortedDesc(r, EntryScore)
      && (forall e :: e in r ==> exists i :: 0 <= i < |pages| && ClassifyPage(pages[i], replyFor(i)) == Ok(Some(e)))
      && r == SortDesc(kept, EntryScore)[..|r|]
      && (forall c :: WithKey(SortDesc(kept, EntryScore), EntryScore, c) == WithKey(kept, EntryScore, c))
  {
    var kept := Kept(pages, replyFor).value;
    var sorted := SortDesc(kept, EntryScore);
    var r := Prefix(sorted, topK);
    SortDescSorted(kept, EntryScore);
    SortDescSameElements(kept, EntryScore);
    KeptFromPages(pages, replyFor);
    forall c ensures WithKey(sorted, EntryScore, c) == WithKey(kept, EntryScore, c) {
      SortDescStable(kept, EntryScore, c);
    }
    forall e | e in r ensures e in kept {
      assert e in sorted;
    }
  }
}
