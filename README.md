# Protocol pilot agent, modelled in Dafny

This project models the agent core of the protocol pilot. The pilot reads a
scientific PDF, finds the pages that describe the CT imaging protocol, extracts
candidate acquisition parameters (slice thickness, kernel, kVp, mAs, voxel size,
matrix, FOV), lets a language model adjudicate one winner per field, and writes
a gap report of what is still missing. A small tool-calling agent drives the
extraction, re-running it with a wider page window while gaps remain, and
records why it stopped.

One Dafny module per source file:

| module | file | models |
|---|---|---|
| `Py` | `py.dfy` | the Python value semantics the code relies on: JSON values, truthiness, `dict.get`, `float()`/`int()`, `strip`, `lower`, `split`, `join`, slicing, `str()`, hashing of dictionary keys; an exception is the outcome `Raised` |
| `StableSort` | `stable_sort.dfy` | `sorted(..., reverse=True)` / `list.sort(reverse=True)`: a stable descending sort |
| `LlmClient` | `llm_client.dfy` | `agent/llm_client.py`: the retry loop with exponential backoff, the code-fence stripping, the best-effort JSON decoder, `llm_json` |
| `Triage` | `triage.dfy` | `agent/triage.py`: early-page text, the imaging verdict with its fallback, title inference and clean-up, page triage |
| `ProtocolCard` | `protocol_card.dfy` | `agent/protocol_card.py`: text windows, candidate extraction, the seed pass over the triaged pages, adjudication and field coercion |
| `GapReport` | `gap_report.dfy` | `agent/gap_report.py`: unit normalisation, grouping keys, representatives, the gap prompt, reply validation, summary normalisation and the stub report |
| `Utils` | `utils.dfy` | `agent/utils.py`: `read_json`, `summarize_gaps`, `summarize_gaps_from_dir` |
| `Storage` | `storage.dfy` | the job status store: `write_status` as an append-only log of status records |
| `Tools` | `tools.dfy` | `agent/tools.py`: the two agent tools, `extract_and_build_gaps` and `extract_with_window` |
| `AgentRunner` | `agent_runner.dfy` | `agent/agent_runner.py`: the step budget, the stop reason, the final and error statuses of `agent_run` |

Every call to the language model is a parameter of the model.
- A single call is an `LlmReply`: `Reply(json)`, or `Failure(message)` when the call raised.
- A call per page or per seed is a function `nat -> LlmReply`, indexed by position.
- The retry loop takes `attempt(k)`, what the k-th invocation returns.

Other outside inputs are parameters too:
- `json.loads` is `parse`.
- The clock is the timestamp `now`.
- Environment variables are `Option<string>`.
- Artifact files are the parsed values read back: `None` (or the JSON `null` value, for `sections.json`, `imaging_extracted.json` and `doc_flags.json`) when missing or unreadable.

Files the code writes are state:
- `ExtractionArtifacts` holds the candidate log and the winners file.
- `StatusLog` holds the status writes.

Loops in the source are methods with loop invariants. Each is proved equal to a
recursive specification function, and the properties are lemmas about those
functions.

## Model

| member | source | states |
|---|---|---|
| Py.Or | agent/protocol_card.py:93 | `v or d` is `v` exactly when `v` is truthy, else `d` |
| Py.Get | agent/protocol_card.py:97-104 | `dict.get(k, default)` returns the stored value when the key is present and the default otherwise |
| Py.HashKey | agent/gap_report.py:160-163 | a value can be used as a dictionary key unless it is a list or a dict (those raise `TypeError`) |
| Py.Prefix | agent/triage.py:106 | `s[:n]` is a prefix of `s` of length `min(n, len(s))` for non-negative `n` |
| Py.SliceValue | agent/triage.py:168 | slicing succeeds exactly on strings and lists, and `[:n]` keeps at most `n` items |
| Py.StrippedOrEmpty | agent/protocol_card.py:99-102 | `(v or "").strip()` is `""` for a falsy value, the stripped string for a string, and raises for any other truthy value |
| Py.TrimStart | agent/triage.py:144 | `lstrip(chars)` removes exactly the leading run of characters to drop: the result is a suffix that starts with a kept character |
| Py.TrimEnd | agent/triage.py:144 | `rstrip(chars)` removes exactly the trailing run of characters to drop |
| Py.StripStripped | agent/llm_client.py:46 | `strip()` leaves no whitespace at either end and never lengthens the string |
| Py.StripIdempotent | agent/llm_client.py:46-54 | stripping a string without surrounding whitespace returns it unchanged |
| Py.StripTwice | agent/llm_client.py:50-54 | stripping twice is the same as stripping once |
| Py.Lower | agent/llm_client.py:48 | `lower()` keeps the length and lowers each ASCII capital letter in place |
| Py.ReplaceChar | agent/gap_report.py:119 | `replace(a, b)` of single characters replaces exactly the occurrences of `a` |
| Py.CollapseWellSpaced | agent/triage.py:139 | `" ".join(s.split())` has single spaces between words and none at either end |
| Py.SplitNoSeparator | agent/gap_report.py:120 | `split(sep)` of a string without the separator is the one-element list of the string |
| Py.SplitFirst | agent/gap_report.py:120 | `split(sep)` cuts at the first separator and splits the rest the same way |
| Py.ParseDigits | agent/agent_runner.py:27 | `int()` of a non-empty run of decimal digits is its decimal value |
| Py.EnvIntDefault | agent/tools.py:24 | an unset variable reads as its digit-string default |
| Py.Trunc | agent/gap_report.py:86 | `int()` of a float truncates toward zero |
| Py.ToFloat | agent/gap_report.py:57-61 | `float()` keeps ints and floats and raises on `None`, lists and dicts |
| Py.ToInt | agent/protocol_card.py:98 | `int()` keeps ints and raises on `None`, lists and dicts |
| Py.Round3 | agent/gap_report.py:134 | `round(x, 3)` is within 0.0005 of `x` and a whole number of thousandths |
| StableSort.SortDescSorted | agent/triage.py:170 | the descending sort yields non-increasing keys |
| StableSort.SortDescPermutation | agent/triage.py:170 | the sort output is a permutation of its input |
| StableSort.SortDescStable | agent/gap_report.py:186 | elements with equal keys keep their original relative order |
| StableSort.SortDescSameElements | agent/protocol_card.py:230 | the sort output and its input have the same elements |
| LlmClient.AttemptText | agent/llm_client.py:28-29 | an answer succeeds exactly when its content is falsy or a string, which `(content or "").strip()` accepts |
| LlmClient.FirstSuccess | agent/llm_client.py:26-33 | the attempt that is returned is the first successful one, and every earlier attempt failed |
| LlmClient.Backoffs | agent/llm_client.py:34 | the k-th sleep is `backoff * 2**k`, one per failed attempt before the last |
| LlmClient.InvokeWithRetries | agent/llm_client.py:22-37 | up to `max_retries + 1` attempts; returns the stripped content of the first success with sleeps only after the earlier failures; otherwise raises the last error (for a non-string content, `'<type>' object has no attribute 'strip'`), or the fixed error when no attempt ran |
| LlmClient.FirstIndex | agent/llm_client.py:58 | the first occurrence of a character, or none |
| LlmClient.LastIndex | agent/llm_client.py:58 | the last occurrence of a character, or none |
| LlmClient.OpeningDropped | agent/llm_client.py:48-52 | a leading ```` ```json ```` in any case drops 7 characters, else a leading ```` ``` ```` drops 3, and the rest is stripped; text without a fence is unchanged; stripped text stays stripped and never grows |
| LlmClient.ClosingDropped | agent/llm_client.py:53-54 | a trailing ```` ``` ```` is dropped and the rest stripped; otherwise the text is unchanged; stripped text stays stripped |
| LlmClient.Unfence | agent/llm_client.py:46-54 | the text handed to the decoder has no surrounding whitespace and is never longer than the content |
| LlmClient.UnfenceIgnoresOuterSpace | agent/llm_client.py:46 | content with and without surrounding whitespace unfences to the same text |
| LlmClient.JsonFenceDropped | agent/llm_client.py:48-50 | any fence that lowers to ```` ```json ```` is cut with the whitespace after it |
| LlmClient.UpperFenceDropped | agent/llm_client.py:48-50 | ```` ```JSON ```` is recognised like ```` ```json ```` |
| LlmClient.PlainFenceDropped | agent/llm_client.py:51-52 | a bare ```` ``` ```` fence not followed by `json` is cut with the whitespace after it |
| LlmClient.ClosingFenceDropped | agent/llm_client.py:53-54 | a closing ```` ``` ```` is cut with the whitespace before it |
| LlmClient.BraceBlob | agent/llm_client.py:58-60 | a blob exists exactly when some `{` comes before the last `}`, and it is the text from the first `{` through the last `}` |
| LlmClient.BraceBlobOf | agent/llm_client.py:58 | around an object whose prefix has no `{` and whose suffix has no `}`, the blob is exactly that object, whatever braces it holds inside |
| LlmClient.ParseJsonBestEffort | agent/llm_client.py:40-61 | when the unfenced content decodes, that value is the result; otherwise the result is the decoded first-`{`-to-last-`}` blob, and it raises exactly when there is no such blob or the blob does not decode |
| LlmClient.BlobFallback | agent/llm_client.py:55-61 | unfenced text that does not decode falls back to the value of its brace blob |
| LlmClient.EmbeddedObjectDecodes | agent/llm_client.py:40-61 | an object embedded in prose decodes to the object's own value when the whole reply does not decode |
| LlmClient.FencedReplyDecodes | agent/llm_client.py:40-56 | a body wrapped in a ```` ```json ```` fence decodes to the body's own value (fence round trip) |
| LlmClient.LlmJson | agent/llm_client.py:64-79 | with a model override, a single call without retries or sleeps; otherwise the retry loop, sleeping backoff·2^k after each failed attempt but the last; when every attempt fails the caller gets the last attempt's error, a success is decoded |
| Triage.EarlyText | agent/triage.py:101-106 | the non-blank stripped texts of the first `n` pages, joined by blank lines, cut to `max_chars` characters |
| Triage.BlankPageIgnored | agent/triage.py:103-105 | a page whose text strips to nothing adds nothing to the early text |
| Triage.FallbackVerdict | agent/triage.py:110-118 | the fallback verdict says not imaging, with no modalities and zero confidence |
| Triage.ImagingVerdict | agent/triage.py:99-118 | the model's reply is returned as is; a failed call gives the fallback verdict; the early text is the first 3 pages cut to 6000 characters |
| Triage.CapTitle | agent/triage.py:140-141 | titles over 300 characters become their first 297 followed by `...`; shorter titles are unchanged |
| Triage.CleanTitleWellSpaced | agent/triage.py:138-144 | the cleaned title has single inner spaces and no surrounding whitespace |
| Triage.CleanTitleLength | agent/triage.py:139-144 | the cleaned title is at most 300 characters |
| Triage.AbstractDropped | agent/triage.py:143-144 | a title starting with "abstract" loses those 8 characters and the surrounding run of spaces, colons and dashes |
| Triage.InferTitle | agent/triage.py:120-145 | no early text gives an empty title with reason "no text available"; a failed call gives reason "llm error"; otherwise the cleaned title of the reply, always well spaced and at most 300 characters |
| Triage.LabelSet | agent/triage.py:159 | `set(v)`: a list gives exactly the keys of its items and raises when one is unhashable; a string gives its characters, a dict its keys; any other value raises |
| Triage.ClassifyPage | agent/triage.py:148-169 | an empty page or a failed call is skipped; a non-dict reply, unhashable labels or an unconvertible score raise; otherwise the page is kept exactly when labels or modalities select it, the score is positive and the evidence slices, with the reply's score, labels, modalities and first 3 snippets |
| Triage.MethodsPageKept | agent/triage.py:159-167 | a reply labelled "methods" with a positive score keeps the page with that score, its label set and its first three evidence items |
| Triage.TriagePages | agent/triage.py:147-171 | the loop computes the kept entries sorted by score and cut to `top_k` |
| Triage.KeptRaisedPersists | agent/triage.py:150-161 | an exception on one page escapes the whole triage |
| Triage.KeptFromPages | agent/triage.py:149-169 | every kept entry comes from the classification of one of the pages |
| Triage.TriageResult | agent/triage.py:170-171 | the result has at most `top_k` entries, is sorted by descending score, each entry comes from a page, it is a prefix of the sorted entries, and entries with equal scores keep page order |
| ProtocolCard.BuildWindows | agent/protocol_card.py:62-79 | the window text joins, in page order, the non-blank stripped texts of the pages whose index is in `[center - span, center + span]`, bounded by the last page's index; the attributed page is the center |
| ProtocolCard.WindowChunksIncluded | agent/protocol_card.py:72-77 | a text is a window chunk exactly when it is the stripped text of an included page |
| ProtocolCard.WindowGrowsWithSpan | agent/protocol_card.py:69-70 | widening the span never drops a page from the window |
| ProtocolCard.WindowSpanZero | agent/protocol_card.py:69-74 | with span 0 only pages indexed at the center are included |
| ProtocolCard.AcceptItem | agent/protocol_card.py:95-117 | a dict item is accepted exactly when `int(page)`, the three `(x or "").strip()` and `float(confidence or 0)` succeed and field, raw span and evidence are truthy; the candidate holds the item's field and value, those converted entries, the evidence cut to 100 characters and the notes when they are a string; a missing page defaults to the center; a non-dict item is dropped |
| ProtocolCard.AcceptedItemWellFormed | agent/protocol_card.py:97-115 | an accepted candidate has a truthy field, non-empty stripped raw span and evidence, stripped units, and at most 100 characters of evidence |
| ProtocolCard.ExtractCtCommon | agent/protocol_card.py:81-118 | corrected (see Findings): blank window text or a failed call gives no candidates; otherwise the accepted items in order, each well formed; equal to the code's result wherever the code does not raise |
| ProtocolCard.SeedPage | agent/protocol_card.py:152-154 | a seed is used only with a non-negative integer page |
| ProtocolCard.NegativeSeedSkipped | agent/protocol_card.py:152-154 | a seed with a negative page appends nothing to the candidate log |
| ProtocolCard.SeedHitsMaskRaise | agent/protocol_card.py:151-160 | an extraction that raises inside a seed's iteration appends nothing |
| ProtocolCard.SeedCandidates | agent/protocol_card.py:150-160 | the loop appends each seed's window candidates in seed order |
| ProtocolCard.FieldCandidates | agent/protocol_card.py:223-227 | the candidates grouped under a field are input candidates of that field |
| ProtocolCard.GroupByField | agent/protocol_card.py:223-227 | grouping raises exactly when some candidate's field is unhashable; otherwise candidates of the known fields are grouped in order |
| ProtocolCard.GroupCandidatesForPrompt | agent/protocol_card.py:222-242 | the prompt loop computes the specified prompt lines |
| ProtocolCard.TopCandidatesShape | agent/protocol_card.py:230 | each field lists at most `limit` of its own candidates by descending confidence |
| ProtocolCard.PromptHeadersKnown | agent/protocol_card.py:229-241 | every header in the prompt names a known field |
| ProtocolCard.VoxelOf | agent/protocol_card.py:258-262 | a voxel size converts exactly when it is a 3-list whose items all convert with `float()`, each item to its own float |
| ProtocolCard.MatrixOf | agent/protocol_card.py:264-268 | a matrix converts exactly when it is a 2-list whose items all convert with `int()`, each item to its own int |
| ProtocolCard.CoerceValue | agent/protocol_card.py:253-273 | slice thickness, FOV and mAs give `float(v)` with the given units and kVp `int(v)`, each exactly when the conversion succeeds; a voxel size gives its floats item by item in "mm" and a matrix its ints with no units, exactly for a 3-list or 2-list that converts; a kernel gives `str(v)`; an unknown field gives nothing; every result has its field's shape |
| ProtocolCard.CoerceEntry | agent/protocol_card.py:274-276 | a winner exists exactly when the value, `int(page)` and `float(confidence)` convert; it holds the converted value and units, the evidence cut to 200 and the reason to 120 characters |
| ProtocolCard.CoerceField | agent/protocol_card.py:244-276 | corrected (see Findings): non-dicts, unknown fields, missing pages and malformed lists give no winner; every winner is valid for its field |
| ProtocolCard.CoerceFieldWinner | agent/protocol_card.py:244-276 | a dict entry yields a winner exactly when every conversion succeeds and evidence and reason strip; the winner holds the converted value and units and the stripped evidence and reason cut to 200 and 120 characters |
| ProtocolCard.CoerceFieldAgrees | agent/protocol_card.py:244-276 | the corrected coercion returns what the code returns whenever the code does not raise |
| ProtocolCard.CoerceRaisesOnNumericEvidence | agent/protocol_card.py:250-252 | numeric evidence makes the code raise before its `try`, while the corrected coercion drops the field |
| ProtocolCard.AdjudicationWinners | agent/protocol_card.py:283-305 | no candidates or a failed call give no winners; winners are known fields; with a reply, a field wins exactly when its entry coerces |
| ProtocolCard.AdjudicationAgrees | agent/protocol_card.py:298-303 | the corrected adjudication agrees with the code wherever the code does not raise |
| ProtocolCard.AsWrittenRaisesOnNumericEvidence | agent/protocol_card.py:250-252 | one reply entry with numeric evidence makes the whole adjudication raise |
| ProtocolCard.CorrectedSkipsNumericEvidence | agent/protocol_card.py:300-303 | with the corrected coercion that entry is just left out |
| ProtocolCard.AdjudicateCandidates | agent/protocol_card.py:283-305 | corrected (see Findings): the adjudication loop computes the specified winners, which equal the code's wherever the code does not raise |
| ProtocolCard.ExtractionArtifacts.constructor | agent/protocol_card.py:9-10 | a fresh artifact directory holds no candidates and no winners |
| ProtocolCard.PassSections | agent/protocol_card.py:135-143 | the sections given are used; without them, the stored `sections.json` |
| ProtocolCard.PassSeeds | agent/protocol_card.py:145-149 | no pages, falsy sections or a falsy `candidates` entry stop the pass; truthy sections that are not a dict raise at `sections.get`; otherwise the seeds are the iterated `candidates` |
| ProtocolCard.ExtractionArtifacts.RunProtocolExtraction | agent/protocol_card.py:120-169 | corrected adjudication (see Findings): the candidate log is always truncated; without pages, sections or seeds the pass stops; an iterable seed list logs every seed's candidates and rewrites the winners unless adjudication raises, which keeps the old winners, and the winners are the code's wherever its adjudication does not raise; non-dict sections or a non-iterable seed list raise |
| ProtocolCard.ExtractRaisesOnListReply | agent/protocol_card.py:84-93 | a JSON list as the reply makes the extraction raise, although its documentation promises `[]`; the corrected extraction returns `[]` |
| GapReport.ScaleToMm | agent/gap_report.py:78-81 | centimetres are multiplied by 10, micrometres divided by 1000, other units unchanged |
| GapReport.FloatsOf | agent/gap_report.py:96-100 | a list converts when every item converts, each to its own float; otherwise some item fails |
| GapReport.VoxelFromList | agent/gap_report.py:94-105 | the loop computes the normalised voxel list |
| GapReport.VoxelNormalized | agent/gap_report.py:92-109 | a number becomes an isotropic triple; two floats are padded with the last; three are kept; other lengths or a bad item give `None` |
| GapReport.VoxelListNormalized | agent/gap_report.py:94-105 | the list cases of the voxel normalisation |
| GapReport.MatrixValue | agent/gap_report.py:111-123 | a normalised matrix is `None` or a pair of ints |
| GapReport.MatrixPairKept | agent/gap_report.py:112-114 | a two-item list of ints is kept as that pair |
| GapReport.MatrixTwoParts | agent/gap_report.py:117-121 | text like `512x512` or `512×512` parses to the pair of numbers |
| GapReport.MatrixThreeParts | agent/gap_report.py:120 | text with two separators does not unpack into two parts and gives `None` |
| GapReport.UnitsToMillimetres | agent/gap_report.py:74-82 | a length in cm or µm normalises to the same value as the equivalent length in mm |
| GapReport.NormUnitsValue | agent/gap_report.py:63-128 | the per-field normalisation computes the specified canonical value |
| GapReport.GroupKey | agent/gap_report.py:130-132 | a missing normalised value has no group key |
| GapReport.KernelKeyOf | agent/gap_report.py:125-126 | a kernel's group key is its stripped lowercase text |
| GapReport.KernelKeyIgnoresCase | agent/gap_report.py:141-142 | kernels that differ only in case and surrounding whitespace share a group |
| GapReport.NumericKeyRounds | agent/gap_report.py:133-134 | lengths and exposures that round to the same thousandth share a group |
| GapReport.RepOf | agent/gap_report.py:163-170 | a representative keeps the candidate's value, page, confidence and units, and its evidence is the candidate's first 200 characters |
| GapReport.RepresentativesByField | agent/gap_report.py:145-171 | the loop computes the specified representatives per field |
| GapReport.RepsDistinct | agent/gap_report.py:160-163 | each field holds at most one representative per group key |
| GapReport.OfferExisting | agent/gap_report.py:161-163 | a later candidate replaces a group's representative only with strictly higher confidence |
| GapReport.BestIndex | agent/gap_report.py:161-162 | the best candidate of a group has the highest confidence, and is the first such on ties |
| GapReport.RepresentativeIsBest | agent/gap_report.py:145-171 | each group's representative is its best candidate, and a group has one exactly when it has a candidate |
| GapReport.SortDescDistinct | agent/gap_report.py:185-186 | sorting a field's representatives keeps their group keys distinct |
| GapReport.TopRepsShape | agent/gap_report.py:185-187 | at most `limit` representatives per field, distinct, sorted by descending confidence, equal confidences in first-seen order |
| GapReport.RepresentativesSorted | agent/gap_report.py:180-188 | the loop computes the specified sorted representatives |
| GapReport.Escape | agent/gap_report.py:201-203 | escaping never shortens a string, leaves a quote-free string unchanged and never yields a leading bare quote |
| GapReport.EscapeRoundTrip | agent/gap_report.py:201-203 | removing the inserted backslashes gives the original text back |
| GapReport.EscapedQuotes | agent/gap_report.py:201-205 | every double quote in the escaped text is preceded by a backslash |
| GapReport.GroupCandidatesForPrompt | agent/gap_report.py:190-207 | the prompt loop computes the specified prompt lines, raising where grouping raises |
| GapReport.StubSummary | agent/gap_report.py:313-332 | the stub's summary counts match its (empty) lists |
| GapReport.StubProvenance | agent/gap_report.py:325-329 | the stub records where its inputs came from and when |
| GapReport.StubValid | agent/gap_report.py:313-332 | the stub passes validation exactly when its modalities are a list |
| GapReport.NormalizeKeepsOthers | agent/gap_report.py:374-389 | normalisation rewrites only the summary and the provenance and completes the provenance |
| GapReport.NormalizeCounts | agent/gap_report.py:375-380 | after normalisation each summary count equals the length of its list |
| GapReport.NormalizeStillValid | agent/gap_report.py:374-389 | a valid reply is still valid after normalisation |
| GapReport.NormalizeValid | agent/gap_report.py:369-392 | the written report is valid, its counts match its lists, its provenance is complete, and every other key is the model's |
| GapReport.FromReplyValid | agent/gap_report.py:369-394 | a failed call or an invalid reply gives the stub; otherwise a valid report with matching counts and complete provenance |
| GapReport.GapReportContract | agent/gap_report.py:337-394 | the report always has matching counts and complete provenance; it is the stub when there is nothing to work with, the call failed or the reply is invalid |
| GapReport.GapReportAgrees | agent/gap_report.py:337-394 | the corrected report equals the code's wherever the code does not raise |
| GapReport.UnhashableGroupRaises | agent/gap_report.py:361-367 | a candidate of an unknown field with a list value makes the code raise before its `try`; the corrected version writes the stub |
| GapReport.ReportFromReply | agent/gap_report.py:369-394 | the reply handling computes the specified report |
| GapReport.StoredGet | agent/gap_report.py:30-37 | a missing, unreadable or falsy document reads as `{}` so every key is absent; a truthy non-dict raises at `.get` |
| GapReport.BuildGapReportLlm | agent/gap_report.py:337-394 | corrected (see Findings): a stored document that is not a dict raises; otherwise the written report is the specified one, with matching counts, complete provenance, valid when the modalities are a list, and equal to the code's wherever the code does not raise |
| Utils.Len | agent/utils.py:32 | `len()` of a list or string is its length; anything but a list, string or dict raises |
| Utils.SummaryValue | agent/tools.py:51 | a summary written into a status has the same keys and counts |
| Utils.SummaryCountsMissing | agent/utils.py:22-33 | the summary has only the key "missing"; non-dicts and absent or falsy lists count 0, a list counts its items, and it raises exactly on a truthy value without a length |
| Utils.NoReportNothingMissing | agent/utils.py:36-39 | without a readable report nothing is missing |
| Utils.WrittenReportSummary | agent/utils.py:22-33 | for a report whose counts match its lists, the summary agrees with the report's own summary |
| Storage.StatusLog.constructor | agent/tools.py:10 | a new status store holds no writes |
| Storage.StatusLog.WriteStatus | agent/tools.py:40 | a status write is appended and nothing else changes |
| Tools.MaxSpan | agent/tools.py:22-26 | the maximum span is between 0 and 10 |
| Tools.MaxSpanValues | agent/tools.py:22-26 | unset or unparsable gives 4; values are clamped into `[0, 10]` |
| Tools.ClampSpan | agent/tools.py:84 | the span is clamped into `[0, max_span]` and kept when already in range |
| Tools.ClampIdempotent | agent/tools.py:84 | clamping twice is clamping once |
| Tools.WriteIfAny | agent/tools.py:121-132 | a done status is appended when there is one |
| Tools.ExtractTool | agent/tools.py:36-61 | a start status is always written; the done status and the counts follow only when the pipeline and the summary succeed |
| Tools.ExtractReportsSummary | agent/tools.py:43-61 | the tool reports the gap summary; missing is its count, conflicts and ambiguous are always 0; no report means no gaps |
| Tools.CountOf | agent/tools.py:100-106 | an absent count is 0, an int is itself, and `None`, lists and dicts raise |
| Tools.CountsOf | agent/tools.py:100-106 | counts come from a dict only, default to 0, and each equals `int()` of its entry |
| Tools.AfterOf | agent/tools.py:98 | a truthy "after" from the pipeline is used as is; otherwise the result is the stored gap summary, failing exactly when that summary cannot be computed |
| Tools.WindowTool | agent/tools.py:81-152 | the span is clamped first; a start status is always written; the done status and the result follow unless the pipeline or the counting raises |
| Tools.RunWindow | agent/tools.py:86-152 | writes the start status, then the done status of the computed result |
| Tools.WindowSpanInRange | agent/tools.py:84 | the reported span is within `[0, max_span]`, and is the requested span when that is in range |
| Tools.WindowDefaults | agent/tools.py:97-108 | a missing "before" counts zeros; a missing or falsy "after" is the stored summary and counts its missing entries; a missing "improved" is false |
| Tools.WindowFailsOnlyOnAfter | agent/tools.py:97-106 | without "before", the tool fails exactly when reading or counting "after" raises |
| AgentRunner.MaxSteps | agent/agent_runner.py:25-29 | the step budget is at least 1 |
| AgentRunner.MaxStepsValues | agent/agent_runner.py:25-29 | unset or unparsable gives 7; smaller values are raised to 1 |
| AgentRunner.StopReasonOf | agent/agent_runner.py:155-162 | "gaps_resolved" exactly when missing + conflicts is 0; else "budget_exhausted" exactly when the budget is used up; else "model_chose_stop" |
| AgentRunner.ResolvedIffNothingMissing | agent/agent_runner.py:136-158 | with the summary read from the gap report, gaps count as resolved exactly when nothing is missing |
| AgentRunner.OutputText | agent/agent_runner.py:120 | the recorded agent output is the first 2000 characters of the output, or empty |
| AgentRunner.FinalStatusFields | agent/agent_runner.py:110-121 | the final status is done/completed with the stop reason, steps used, budget, last action and capped output |
| AgentRunner.Finalize | agent/agent_runner.py:99-121 | exactly the final status is appended |
| AgentRunner.AgentRunJob | agent/agent_runner.py:124-168 | the start status and then the final or error status are written; the run's result is returned, or the exception re-raised |
| AgentRunner.UncountableSummaryError | agent/agent_runner.py:166-168 | when the summary cannot be counted, the error status holds `object of type '<type>' has no len()` for an int, float or bool |
| AgentRunner.RunRecordsOutcome | agent/agent_runner.py:124-168 | success exactly when the agent finished and the summary could be computed; then the status records the steps, last action, a budget of at least 1 and capped output; on failure it records "agent error" and "exception" |

## Left out

- Reading PDFs (`pdf_pages_text`), the file system, JSON encoding and decoding, the clock and environment variables are not modelled. Pages, parsed artifact files, `json.loads`, timestamps and environment values are parameters.
- The language model and the agent executor are parameters. Their replies, and the exceptions their calls raise, are inputs. Asynchronous execution and timeouts are not modelled.
- `agent/pipeline.py` is not part of this model. The tools take the pipeline's returned value, or `Raised`, as a parameter.
- `storage/paths.py` does not define `write_status`, so its store is modelled as an append-only sequence of status records in write order. `write_json` is the assignment of the `ExtractionArtifacts` fields.
- `_read_jsonl` is not modelled line by line. The candidate log is read back as the list of candidates written to it.
- `build_agent`, `_chat` and the prompt templates' wording are not modelled. Prompts are sequences of header and item lines, not formatted text.
- `llm_json_typed` (pydantic validation) and `_make_chat` are not modelled.
- Floats are exact reals. Binary rounding, `inf` and `nan` are not modelled. `float()` of a string accepts decimal notation with an optional exponent.
- Py.Render: `str()` is exact for `None`, booleans, ints, strings and integral floats below 10^16. Other floats, lists and dicts render as a fixed stand-in.
- Py.Lower: `lower()` lowers ASCII capitals only.
- Dictionary iteration order is not modelled where it does not change the outcome. Buckets whose order matters are association lists.
- AgentRunner.RunRecordsOutcome: `intermediate_steps` is modelled as a list of steps and the output as an optional string. A `None` or non-list `intermediate_steps` inside the guarded block is not modelled.
- ProtocolCard.ExtractCtCommon, ProtocolCard.AdjudicateCandidates, ProtocolCard.ExtractionArtifacts.RunProtocolExtraction and GapReport.BuildGapReportLlm follow the corrected definitions of the Findings. Each also proves that it returns what the code returns wherever the code does not raise. Where the code raises, the code as written is modelled by ExtractAsWritten, AdjudicationAsWritten and GapReportAsWritten.
- ProtocolCard.ExtractionArtifacts.RunProtocolExtraction: for the one input of the adjudication Finding, the code as written keeps the old winners file, while the model writes the winners of the other fields.
- Py.ParseInt: `int()` and `float()` of a string accept ASCII decimal digits only, with `_` between digits. Python also accepts the decimal digits of other scripts (Arabic-Indic, fullwidth, ...).
- Py.ParseFloat: the same ASCII-only restriction as `int()`; the strings `inf` and `nan` are not read.
- The two agent tools' StructuredTool wrappers and argument schemas are not modelled. The span bound 0..4 of the schema is not enforced by the tool itself, and the model follows the tool.

## Findings

| source | as written | input that shows it | evidently intended | confidence | as-written member | corrected member |
|---|---|---|---|---|---|---|
| agent/gap_report.py:361-367 | the candidates are grouped before the `try`, so an unhashable group key raises out of `build_gap_report_llm_async` and no report is written | one candidate of an unknown field (`TR`) whose value is a list `[30, 60]` | "on any failure, write a minimal stub report" | not executed | GapReport.UnhashableGroupRaises | GapReport.GapReportContract |
| agent/protocol_card.py:250-252 | `evidence` and `reason` are stripped before the `try`, so a numeric evidence raises out of the adjudication and the winners file is not rewritten | a reply entry `{"value": 120, "page": 3, "evidence": 7}` for `kVp` | a malformed entry is dropped like any other coercion failure | not executed | ProtocolCard.AsWrittenRaisesOnNumericEvidence | ProtocolCard.CorrectedSkipsNumericEvidence |
| agent/protocol_card.py:86-93 | `resp.get` is called on whatever the reply decodes to, so a JSON list raises although the documentation says it never raises on JSON issues | the model answers `[]` | return `[]` | not executed | ProtocolCard.ExtractRaisesOnListReply | ProtocolCard.ExtractCtCommon |
