/**
 * The chat-model client: a bounded retry loop with exponential backoff and a
 * best-effort JSON decoder for the model's reply. The chat model itself, the
 * clock and the JSON parser are parameters: `attempt(k)` is what the k-th
 * call returns, sleeps are recorded as a list of delays, and `parse` is
 * `json.loads` (None for a decode error).
 */
module LlmClient {
  import opened Py

  /** What a caller of `llm_json` sees: a decoded reply or an exception. */
  datatype LlmReply = Reply(json: Value) | Failure(message: string)

  /** One call of the chat model: the message content, or the exception it raised. */
  datatype Attempt = Answer(content: Value) | Error(message: string)

  datatype InvokeResult = Content(text: string) | LastError(message: string) | NoAttempt

  /** The message of the exception `.strip()` raises on content that is not a string. */
  function StripError(c: Value): string {
    "'" + TypeName(c) + "' object has no attribute 'strip'"
  }

  /** A call that returned content `(content or "").strip()` accepts: none, or a string. */
  predicate Succeeded(a: Attempt) {
    a.Answer? && (!Truthy(a.content) || a.content.Str?)
  }

  /** The stripped text of a successful attempt; None when the attempt failed. */
  function AttemptText(a: Attempt): (r: Option<string>)
    ensures r.Some? <==> Succeeded(a)
  {
    match a
    case Error(_) => None
    case Answer(c) =>
      match StrippedOrEmpty(c)
      case Ok(t) => Some(t)
      case Raised => None
  }

  function AttemptError(a: Attempt): string {
    if a.Error? then a.message else StripError(a.content)
  }

  /** The first of the first `n` attempts that succeeds. */
  function FirstSuccess(attempt: nat -> Attempt, n: nat): (r: Option<nat>)
    ensures r.Some? ==> r.value < n && Succeeded(attempt(r.value))
    ensures r.Some? ==> forall k :: 0 <= k < r.value ==> !Succeeded(attempt(k))
    ensures r.None? ==> forall k :: 0 <= k < n ==> !Succeeded(attempt(k))
  {
    if n == 0 then None
    else
      var earlier := FirstSuccess(attempt, n - 1);
      if earlier.Some? then earlier
      else if Succeeded(attempt(n - 1)) then Some(n - 1)
      else None
  }

  /** An attempt that succeeds after `k` failures is the first success among any longer run. */
  lemma {:induction false} FirstSuccessAt(attempt: nat -> Attempt, k: nat, n: nat)
    requires k < n && FirstSuccess(attempt, k).None? && Succeeded(attempt(k))
    ensures FirstSuccess(attempt, n) == Some(k)
  {
  }

  function Pow2(k: nat): (p: nat) ensures 1 <= p {
    if k == 0 then 1 else 2 * Pow2(k - 1)
  }

  /** The sleep after failed attempt k: `backoff * 2**k`. */
  function Delay(backoff: real, k: nat): real {
    backoff * Pow2(k) as real
  }

  /** The sleeps before attempts 1 .. n, one per failed attempt. */
  function Backoffs(backoff: real, n: nat): (d: seq<real>)
    ensures |d| == n
    ensures forall k :: 0 <= k < n ==> d[k] == Delay(backoff, k)
  {
    if n == 0 then [] else Backoffs(backoff, n - 1) + [Delay(backoff, n - 1)]
  }

  /**
   * `_ainvoke_with_retries`: up to `maxRetries + 1` calls; the first content
   * that strips cleanly is returned; after a failed call that is not the last,
   * the loop sleeps `backoff * 2**attempt`; when every call failed the last
   * exception is re-raised, and with no call at all a RuntimeError is raised.
   */
  method InvokeWithRetries(maxRetries: int, backoff: real, attempt: nat -> Attempt)
    returns (r: InvokeResult, delays: seq<real>)
    ensures var n := Max(0, maxRetries + 1);
      match FirstSuccess(attempt, n)
      case Some(i) => r == Content(AttemptText(attempt(i)).value) && delays == Backoffs(backoff, i)
      case None =>
        (n == 0 ==> r == NoAttempt && delays == [])
        && (n > 0 ==> r == LastError(AttemptError(attempt(n - 1))) && delays == Backoffs(backoff, n - 1))
  {
    var n := Max(0, maxRetries + 1);
    var lastFailed: Option<nat> := None;
    delays := [];
    var k := 0;
    while k < n
      invariant 0 <= k <= n
      invariant FirstSuccess(attempt, k).None?
      invariant delays == Backoffs(backoff, k)
      invariant k == 0 || k <= maxRetries
      invariant k == 0 <==> lastFailed.None?
      invariant 0 < k ==> lastFailed == Some(k - 1)
    {
      var text := AttemptText(attempt(k));
      if text.Some? {
        FirstSuccessAt(attempt, k, n);
        return Content(text.value), delays;
      }
      assert FirstSuccess(attempt, k + 1).None?;
      lastFailed := Some(k);
      if k >= maxRetries {
        k := k + 1;
        break;
      }
      delays := delays + [Delay(backoff, k)];
      k := k + 1;
    }
    if lastFailed.Some? {
      return LastError(AttemptError(attempt(lastFailed.value))), delays;
    }
    return NoAttempt, delays;
  }

  // ------------------------------------------------------------ JSON decoding

  predicate EndsWith(s: string, p: string) {
    |p| <= |s| && s[|s| - |p|..] == p
  }

  /**
   * Drop a leading ```` ```json ```` or ```` ``` ```` fence, matched case-insensitively,
   * and strip what follows it; text without a fence is left alone.
   */
  function OpeningDropped(s: string): (r: string)
    ensures StartsWith(Lower(s), "```json") ==> r == Strip(s[7..])
    ensures !StartsWith(Lower(s), "```json") && StartsWith(Lower(s), "```") ==> r == Strip(s[3..])
    ensures !StartsWith(Lower(s), "```") ==> r == s
    ensures Stripped(s) ==> Stripped(r)
    ensures |r| <= |s|
  {
    if StartsWith(Lower(s), "```json") then
      assert Lower(s)[..3] == Lower(s)[..7][..3];
      StripStripped(s[7..]); Strip(s[7..])
    else if StartsWith(Lower(s), "```") then StripStripped(s[3..]); Strip(s[3..])
    else s
  }

  /** Drop one trailing ```` ``` ```` fence and strip what precedes it. */
  function ClosingDropped(s: string): (r: string)
    ensures EndsWith(s, "```") ==> r == Strip(s[..|s| - 3])
    ensures !EndsWith(s, "```") ==> r == s
    ensures Stripped(s) ==> Stripped(r)
    ensures |r| <= |s|
  {
    if EndsWith(s, "```") then StripStripped(s[..|s| - 3]); Strip(s[..|s| - 3]) else s
  }

  /**
   * Strip the reply, then drop a leading ```` ```json ```` or ```` ``` ```` fence and a
   * trailing ```` ``` ````: the text handed to the decoder never has surrounding whitespace.
   */
  function Unfence(content: string): (r: string)
    ensures Stripped(r)
    ensures |r| <= |content|
  {
    StripStripped(content);
    ClosingDropped(OpeningDropped(Strip(content)))
  }

  /** Surrounding whitespace makes no difference to what is decoded. */
  lemma {:induction false} UnfenceIgnoresOuterSpace(content: string)
    ensures Unfence(Strip(content)) == Unfence(content)
  {
    StripTwice(content);
  }

  /** A ```` ```json ```` fence, in any case, is dropped with the whitespace after it. */
  lemma {:induction false} JsonFenceDropped(fence: string, rest: string)
    requires Lower(fence) == "```json"
    ensures OpeningDropped(fence + rest) == Strip(rest)
  {
    var s := fence + rest;
    assert Lower(s)[..7] == "```json" by {
      forall i | 0 <= i < 7 ensures Lower(s)[i] == "```json"[i] {
        assert s[i] == fence[i];
      }
    }
    assert s[7..] == rest;
  }

  /** The opening fence is matched whatever its case: ```` ```JSON ```` is dropped as well. */
  lemma {:induction false} UpperFenceDropped(body: string)
    ensures OpeningDropped("```JSON" + body) == Strip(body)
  {
    assert Lower("```JSON") == "```json";
    JsonFenceDropped("```JSON", body);
  }

  /** A bare ```` ``` ```` fence, not followed by `json`, is dropped with the whitespace after it. */
  lemma {:induction false} PlainFenceDropped(body: string)
    requires body == [] || LowerChar(body[0]) != 'j'
    ensures OpeningDropped("```" + body) == Strip(body)
  {
    var s := "```" + body;
    assert Lower(s)[..3] == "```" by {
      forall i | 0 <= i < 3 ensures Lower(s)[i] == "```"[i] {
        assert s[i] == "```"[i];
      }
    }
    if body != [] {
      assert Lower(s)[3] != "```json"[3];
    }
    assert s[3..] == body;
  }

  /** The closing fence is dropped with the whitespace before it. */
  lemma {:induction false} ClosingFenceDropped(t: string)
    ensures ClosingDropped(t + "```") == Strip(t)
  {
    var s := t + "```";
    assert s[|s| - 3..] == "```";
    assert s[..|s| - 3] == t;
  }

  /** Index of the first `c` in `s`. */
  function FirstIndex(s: string, c: char): (r: Option<nat>)
    ensures r.Some? ==> r.value < |s| && s[r.value] == c && c !in s[..r.value]
    ensures r.None? ==> c !in s
  {
    if s == [] then None
    else if s[0] == c then Some(0)
    else match FirstIndex(s[1..], c)
      case None => None
      case Some(i) => Some(i + 1)
  }

  /** Index of the last `c` in `s`. */
  function LastIndex(s: string, c: char): (r: Option<nat>)
    ensures r.Some? ==> r.value < |s| && s[r.value] == c && c !in s[r.value + 1..]
    ensures r.None? ==> c !in s
  {
    if s == [] then None
    else if s[|s| - 1] == c then Some(|s| - 1)
    else LastIndex(s[..|s| - 1], c)
  }

  /** `re.search(r"\{.*\}", s, re.S)`: from the first `{` to the last `}` after it. */
  function BraceBlob(s: string): (r: Option<string>)
    ensures r.Some? <==> FirstIndex(s, '{').Some? && LastIndex(s, '}').Some? &&
                         FirstIndex(s, '{').value < LastIndex(s, '}').value
    ensures r.Some? ==> r.value == s[FirstIndex(s, '{').value..LastIndex(s, '}').value + 1]
    ensures r.Some? ==> 2 <= |r.value| && r.value[0] == '{' && r.value[|r.value| - 1] == '}'
  {
    match (FirstIndex(s, '{'), LastIndex(s, '}'))
    case (Some(i), Some(j)) => if i < j then Some(s[i..j + 1]) else None
    case _ => None
  }

  /** `_parse_json_best_effort`: decode the unfenced text, else the first `{...}` blob in it. */
  function ParseJsonBestEffort(content: string, parse: string -> Option<Value>): (r: Outcome<Value>)
    ensures parse(Unfence(content)).Some? ==> r == Ok(parse(Unfence(content)).value)
    ensures parse(Unfence(content)).None? ==>
      (r.Ok? <==> BraceBlob(Unfence(content)).Some? && parse(BraceBlob(Unfence(content)).value).Some?)
    ensures parse(Unfence(content)).None? && r.Ok? ==> r.value == parse(BraceBlob(Unfence(content)).value).value
  {
    var s := Unfence(content);
    match parse(s)
    case Some(v) => Ok(v)
    case None =>
      match BraceBlob(s)
      case Some(blob) => (match parse(blob) case Some(v) => Ok(v) case None => Raised)
      case None => Raised
  }

  lemma {:induction false} StripAfterNewline(b: string)
    requires b != [] && Stripped(b)
    ensures Strip("\n" + b + "\n```") == b + "\n```"
  {
    var t := b + "\n```";
    assert t[0] == b[0] && t[|t| - 1] == '`';
    assert "\n" + b + "\n```" == ['\n'] + t;
    StripLeadingSpace('\n', t);
  }

  /** On text that is already stripped, unfencing drops the opening fence, then the closing one. */
  lemma {:induction false} UnfenceStripped(content: string)
    requires Stripped(content)
    ensures Unfence(content) == ClosingDropped(OpeningDropped(content))
  {
    StripIdempotent(content);
  }

  lemma {:induction false} OpeningOf(body: string)
    requires body != [] && Stripped(body)
    ensures OpeningDropped("```json\n" + body + "\n```") == body + "\n```"
  {
    var rest := "\n" + body + "\n```";
    assert "```json\n" + body + "\n```" == "```json" + rest;
    JsonFenceDropped("```json", rest);
    StripAfterNewline(body);
  }

  lemma {:induction false} ClosingOf(body: string)
    requires body != [] && Stripped(body)
    ensures ClosingDropped(body + "\n```") == body
  {
    var s1 := body + "\n```";
    assert s1[|s1| - 3..] == "```";
    assert s1[..|s1| - 3] == body + "\n";
    StripTrailingSpace(body, '\n');
  }

  /**
   * A reply wrapped in a ```` ```json ```` code fence decodes to the same value
   * as the bare JSON text inside it.
   */
  lemma {:induction false} FencedReplyDecodes(body: string, parse: string -> Option<Value>)
    requires body != [] && Stripped(body)
    requires parse(body).Some?
    ensures ParseJsonBestEffort("```json\n" + body + "\n```", parse) == Ok(parse(body).value)
  {
    var content := "```json\n" + body + "\n```";
    assert content[0] == '`' && content[|content| - 1] == '`';
    UnfenceStripped(content);
    OpeningOf(body);
    ClosingOf(body);
    assert Unfence(content) == body;
  }

  /**
   * Text around a brace-delimited object is cut away: the blob runs from the first `{`
   * to the last `}`, whatever braces the object holds inside.
   */
  lemma {:induction false} BraceBlobOf(p: string, body: string, q: string)
    requires '{' !in p && '}' !in q
    ensures BraceBlob(p + "{" + body + "}" + q) == Some("{" + body + "}")
  {
    var s := p + "{" + body + "}" + q;
    var j := |p| + 1 + |body|;
    assert s[|p|] == '{' && s[j] == '}';
    var fi := FirstIndex(s, '{');
    var li := LastIndex(s, '}');
    assert s[|p|..j + 1] == "{" + body + "}";
  }

  /** Unfenced text that does not decode as a whole falls back to its brace blob. */
  lemma {:induction false} BlobFallback(s: string, parse: string -> Option<Value>)
    requires Stripped(s) && !StartsWith(Lower(s), "```") && !EndsWith(s, "```")
    requires parse(s).None? && BraceBlob(s).Some? && parse(BraceBlob(s).value).Some?
    ensures ParseJsonBestEffort(s, parse) == Ok(parse(BraceBlob(s).value).value)
  {
    StripIdempotent(s);
    assert Unfence(s) == s;
  }

  /**
   * When the reply is not JSON as a whole, the object embedded in the prose around it
   * is decoded instead.
   */
  lemma {:induction false} EmbeddedObjectDecodes(p: string, body: string, q: string, parse: string -> Option<Value>)
    requires '{' !in p && '}' !in q
    requires Stripped(p + "{" + body + "}" + q)
    requires !StartsWith(Lower(p + "{" + body + "}" + q), "```") && !EndsWith(p + "{" + body + "}" + q, "```")
    requires parse(p + "{" + body + "}" + q).None? && parse("{" + body + "}").Some?
    ensures ParseJsonBestEffort(p + "{" + body + "}" + q, parse) == Ok(parse("{" + body + "}").value)
  {
    BraceBlobOf(p, body, q);
    BlobFallback(p + "{" + body + "}" + q, parse);
  }

  /** The single call made when the caller overrides the model: its content is not stripped. */
  function SingleAttempt(a: Attempt): InvokeResult {
    match a
    case Error(e) => LastError(e)
    case Answer(c) => if !Truthy(c) then Content("") else if c.Str? then Content(c.s) else LastError(StripError(c))
  }

  /** What the caller of `llm_json` receives for the model's content. */
  function ReplyOf(r: InvokeResult, parse: string -> Option<Value>): LlmReply {
    match r
    case Content(t) => (match ParseJsonBestEffort(t, parse) case Ok(v) => Reply(v) case Raised => Failure("JSONDecodeError"))
    case LastError(e) => Failure(e)
    case NoAttempt => Failure("LLM invocation failed without an exception")
  }

  /**
   * `llm_json`: one call without retries when the caller overrides the model,
   * otherwise the retry loop; then the best-effort decoder. Every failure
   * reaches the caller as an exception.
   */
  method LlmJson(modelOverride: bool, maxRetries: int, backoff: real, attempt: nat -> Attempt,
                 parse: string -> Option<Value>)
    returns (reply: LlmReply, delays: seq<real>)
    ensures modelOverride ==> delays == [] && reply == ReplyOf(SingleAttempt(attempt(0)), parse)
    ensures !modelOverride ==>
              var n := Max(0, maxRetries + 1);
              match FirstSuccess(attempt, n)
              case None =>
                (n == 0 ==> reply == Failure("LLM invocation failed without an exception") && delays == [])
                && (n > 0 ==> reply == Failure(AttemptError(attempt(n - 1))) && delays == Backoffs(backoff, n - 1))
              case Some(i) =>
                reply == ReplyOf(Content(AttemptText(attempt(i)).value), parse) && delays == Backoffs(backoff, i)
  {
    var r: InvokeResult;
    if modelOverride {
      r, delays := SingleAttempt(attempt(0)), [];
    } else {
      r, delays := InvokeWithRetries(maxRetries, backoff, attempt);
    }
    reply := ReplyOf(r, parse);
  }
}
