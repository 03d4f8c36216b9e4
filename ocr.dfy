/**
 * `parse_ocr_json.py`: reads the credits a Gemini OCR call returned and
 * merges them into the song's metadata dict, in place.
 *
 * `extract_json_from_text` tries three strings in turn and keeps the first
 * that parses: the whole text, the first ```` ```json ```` block, and the
 * `{...}` span. `main` walks the reply's envelope and, with a dict for
 * metadata, sets its "credits" key.
 */
module OcrCredits {
  import opened Wrappers
  import opened Json
  import opened Strings
  import Cover

  // ---- extract_json_from_text ----

  /**
   * `re.findall(r'```json\s*(.*?)\s*```', text, re.DOTALL)[0]`.
   *
   * The leftmost match starts at the first "```json" (a later one would
   * itself supply the closing "```" the first one lacks, and two cannot
   * overlap). Its lazy group ends at the first "```" after it, and the two
   * `\s*` take the whitespace on either side, so the group is that stretch
   * of text with its surrounding whitespace stripped.
   */
  function CodeBlock(text: string): (r: Option<string>) {
    var i := FindFrom(text, "```json", 0);
    if i == -1 then None
    else
      var p := FindFrom(text, "```", i + 7);
      if p == -1 then None else Some(Strip(text[i + 7..p]))
  }

  /**
   * `re.findall(r'\{.*\}', text, re.DOTALL)`: the greedy span from the first
   * "{" to the last "}" ends past every other "}", so there is at most one.
   */
  function BraceMatches(text: string): (r: seq<string>)
    ensures |r| <= 1
  {
    match Cover.BraceSpan(text)
    case Some(span) => [span]
    case None => []
  }

  /** The strings tried, in order. */
  function Attempts(text: string): seq<string> {
    [text] + (match CodeBlock(text) case Some(block) => [block] case None => []) + BraceMatches(text)
  }

  /** The first of `attempts` that parses, with the value it parses to. */
  function FirstParse(parse: Parser, attempts: seq<string>): Option<Json>
    decreases |attempts|
  {
    if attempts == [] then None
    else if parse(attempts[0]).Some? then parse(attempts[0])
    else FirstParse(parse, attempts[1..])
  }

  /** What `extract_json_from_text` returns; `None` is Python's `None`. */
  function Extracted(parse: Parser, text: string): Option<Json> {
    FirstParse(parse, Attempts(text))
  }

  /** `extract_json_from_text`, returning as soon as one string parses. */
  method ExtractJson(parse: Parser, text: string) returns (r: Option<Json>)
    ensures r == Extracted(parse, text)
  {
    var block := CodeBlock(text);
    var rest := match block case Some(b) => [b] case None => [];
    var matches := BraceMatches(text);
    assert Attempts(text) == [text] + (rest + matches);
    r := parse(text);
    if r.Some? {
      return;
    }
    SkipFailed(parse, [text], rest + matches);
    if block.Some? {
      assert (rest + matches)[0] == block.value;
      r := parse(block.value);
      if r.Some? {
        return;
      }
      SkipFailed(parse, rest, matches);
    } else {
      assert rest + matches == matches;
    }
    assert matches[0..] == matches;
    for k := 0 to |matches|
      invariant Extracted(parse, text) == FirstParse(parse, matches[k..])
    {
      r := parse(matches[k]);
      if r.Some? {
        return;
      }
      assert matches[k..][1..] == matches[k + 1..];
    }
    r := None;
  }

  /** Attempts that all fail can be skipped. */
  lemma {:induction false} SkipFailed(parse: Parser, failed: seq<string>, rest: seq<string>)
    requires forall i :: 0 <= i < |failed| ==> parse(failed[i]).None?
    ensures FirstParse(parse, failed + rest) == FirstParse(parse, rest)
    decreases |failed|
  {
    if failed != [] {
      assert (failed + rest)[0] == failed[0];
      assert (failed + rest)[1..] == failed[1..] + rest;
      SkipFailed(parse, failed[1..], rest);
    } else {
      assert failed + rest == rest;
    }
  }

  /**
   * The value is the parse of the first attempt that parses, and every
   * earlier attempt failed; `None` exactly when none parses.
   */
  lemma {:induction false} FirstParseIsFirst(parse: Parser, attempts: seq<string>)
    ensures FirstParse(parse, attempts).None? <==> forall i :: 0 <= i < |attempts| ==> parse(attempts[i]).None?
    ensures FirstParse(parse, attempts).Some? ==> exists k ::
      (&& 0 <= k < |attempts|
       && parse(attempts[k]) == FirstParse(parse, attempts)
       && forall i :: 0 <= i < k ==> parse(attempts[i]).None?)
    decreases |attempts|
  {
    if attempts != [] && parse(attempts[0]).None? {
      var tail := attempts[1..];
      FirstParseIsFirst(parse, tail);
      assert forall i :: 0 <= i < |tail| ==> tail[i] == attempts[i + 1];
      if FirstParse(parse, tail).Some? {
        var k :| 0 <= k < |tail| && parse(tail[k]) == FirstParse(parse, tail)
          && forall i :: 0 <= i < k ==> parse(tail[i]).None?;
        assert parse(attempts[k + 1]) == FirstParse(parse, attempts);
      }
    }
  }

  /** At most three strings are tried: the text, one block, one span. */
  lemma AttemptsBound(text: string)
    ensures 1 <= |Attempts(text)| <= 3 && Attempts(text)[0] == text
  {
  }

  /** Text that parses as a whole is taken as it is, block or no block. */
  lemma WholeTextFirst(parse: Parser, text: string)
    requires parse(text).Some?
    ensures Extracted(parse, text) == parse(text)
  {
  }

  /** Otherwise a block that parses wins over the span. */
  lemma BlockBeforeSpan(parse: Parser, text: string, block: string)
    requires parse(text).None? && CodeBlock(text) == Some(block) && parse(block).Some?
    ensures Extracted(parse, text) == parse(block)
  {
    SkipFailed(parse, [text], Attempts(text)[1..]);
    assert Attempts(text) == [text] + Attempts(text)[1..];
  }

  /** With no block, a text that does not parse falls back to the span. */
  lemma SpanLast(parse: Parser, text: string)
    requires parse(text).None? && CodeBlock(text).None?
    ensures Extracted(parse, text) == FirstParse(parse, BraceMatches(text))
  {
    SkipFailed(parse, [text], BraceMatches(text));
    assert Attempts(text) == [text] + BraceMatches(text);
  }

  /** "```json", a body without backticks, and "```": the block is the stripped body. */
  lemma CodeBlockWrapped(body: string, rest: string)
    requires forall t :: 0 <= t < |body| ==> body[t] != '`'
    ensures CodeBlock("```json" + body + "```" + rest) == Some(Strip(body))
  {
    var s := "```json" + body + "```" + rest;
    var p := 7 + |body|;
    assert IsAt(s, "```json", 0) by { assert s[0..7] == "```json"; }
    FindFromIs(s, "```json", 0, 0);
    assert IsAt(s, "```", p) by { assert s[p..p + 3] == "```"; }
    forall j | 7 <= j < p ensures !IsAt(s, "```", j) {
      assert s[j] == body[j - 7];
      assert s[j..j + 3][0] == s[j];
    }
    FindFromIs(s, "```", 7, p);
    assert s[7..p] == body;
  }

  // ---- main ----

  /** The failures `main` reports, each with its own error text. */
  datatype OcrError =
    | ResponseNotJson   // "JSON 解析失败: ..."
    | NoCandidates      // "Gemini 响应中未找到候选结果"
    | NoText            // "Gemini 响应中未找到文本内容"
    | CreditsNotJson    // "OCR 结果不是有效的 JSON 格式"
    | BadMetadata       // "元数据格式无效"
    | OcrFailed         // "OCR 解析失败: ..."

  /**
   * How far the reply gets: to the value read at that stage (the model's
   * text, then the credits extracted from it), or to an error.
   */
  datatype Step = Reached(value: Json) | Stopped(error: OcrError)

  /**
   * The model's text: `candidates[0].get('content', {}).get('parts', [])[0].get('text', '')`,
   * stopping on falsy candidates or parts; a step that raises, or a text
   * that is not a string (`json.loads` raises `TypeError`), is an `OcrFailed`.
   */
  function ReplyText(parse: Parser, response: string): Step {
    match parse(response)
    case None => Stopped(ResponseNotJson)
    case Some(data) =>
      match Get(data, "candidates", JArr([]))
      case None => Stopped(OcrFailed)
      case Some(candidates) =>
        if !Truthy(candidates) then Stopped(NoCandidates)
        else
          match First(candidates)
          case None => Stopped(OcrFailed)
          case Some(candidate) =>
            match Get(candidate, "content", JObj([]))
            case None => Stopped(OcrFailed)
            case Some(content) =>
              match Get(content, "parts", JArr([]))
              case None => Stopped(OcrFailed)
              case Some(parts) =>
                if !Truthy(parts) then Stopped(NoText)
                else
                  match First(parts)
                  case None => Stopped(OcrFailed)
                  case Some(part) =>
                    match Get(part, "text", JStr(""))
                    case None => Stopped(OcrFailed)
                    case Some(text) => if text.JStr? then Reached(text) else Stopped(OcrFailed)
  }

  /** The credits to merge: the extracted value, unless it is `None` (or JSON `null`). */
  function CreditsStep(parse: Parser, response: string): Step {
    match ReplyText(parse, response)
    case Stopped(e) => Stopped(e)
    case Reached(text) =>
      match Extracted(parse, text.s)
      case None => Stopped(CreditsNotJson)
      case Some(credits) => if credits.JNull? then Stopped(CreditsNotJson) else Reached(credits)
  }

  /** The `success` and `error` fields `main` returns. */
  datatype Reply = Reply(success: bool, error: Option<OcrError>)

  function OcrReply(parse: Parser, response: string, metadata: Json): Reply {
    match CreditsStep(parse, response)
    case Stopped(e) => Reply(false, Some(e))
    case Reached(_) => if metadata.JObj? then Reply(true, None) else Reply(false, Some(BadMetadata))
  }

  /** The metadata after `main`: "credits" set on a dict when the credits were read. */
  function Updated(parse: Parser, response: string, metadata: Json): Json {
    match CreditsStep(parse, response)
    case Stopped(_) => metadata
    case Reached(credits) =>
      if metadata.JObj? then JObj(SetKey(metadata.entries, "credits", credits)) else metadata
  }

  /** The caller's metadata object, which `main` updates in place. */
  class Metadata {
    var value: Json

    constructor (value: Json)
      ensures this.value == value
    {
      this.value := value;
    }
  }

  /** The dict `main` returns; its "metadata" is the caller's own object. */
  datatype Output = Output(metadata: Metadata, success: bool, error: Option<OcrError>)

  /** `main`. */
  method ParseOcr(parse: Parser, response: string, metadata: Metadata) returns (out: Output)
    modifies metadata
    ensures out.metadata == metadata
    ensures Reply(out.success, out.error) == OcrReply(parse, response, old(metadata.value))
    ensures metadata.value == Updated(parse, response, old(metadata.value))
  {
    var step := ReplyText(parse, response);
    if step.Stopped? {
      return Output(metadata, false, Some(step.error));
    }
    var credits := ExtractJson(parse, step.value.s);
    if credits.None? || credits.value.JNull? {
      return Output(metadata, false, Some(CreditsNotJson));
    }
    if !metadata.value.JObj? {
      return Output(metadata, false, Some(BadMetadata));
    }
    metadata.value := JObj(SetKey(metadata.value.entries, "credits", credits.value));
    return Output(metadata, true, None);
  }

  // ---- what main promises ----

  /** `main` succeeds exactly when the credits were read and the metadata is a dict. */
  lemma SuccessIff(parse: Parser, response: string, metadata: Json)
    ensures OcrReply(parse, response, metadata).success <==>
      CreditsStep(parse, response).Reached? && metadata.JObj?
    ensures OcrReply(parse, response, metadata).success <==> OcrReply(parse, response, metadata).error.None?
  {
  }

  /** Credits read into metadata that is not a dict fail with the bad-metadata error. */
  lemma BadMetadataFails(parse: Parser, response: string, metadata: Json)
    requires CreditsStep(parse, response).Reached? && !metadata.JObj?
    ensures OcrReply(parse, response, metadata) == Reply(false, Some(BadMetadata))
    ensures Updated(parse, response, metadata) == metadata
  {
  }

  /** Every failure leaves the metadata as it was. */
  lemma FailureKeepsMetadata(parse: Parser, response: string, metadata: Json)
    requires !OcrReply(parse, response, metadata).success
    ensures Updated(parse, response, metadata) == metadata
  {
  }

  /** On success "credits" holds the extracted value and every other key reads as before. */
  lemma OnlyCreditsChange(parse: Parser, response: string, metadata: Json, key: string)
    requires OcrReply(parse, response, metadata).success
    ensures metadata.JObj? && Updated(parse, response, metadata).JObj?
    ensures Lookup(Updated(parse, response, metadata).entries, "credits") == Some(CreditsStep(parse, response).value)
    ensures key != "credits" ==> Lookup(Updated(parse, response, metadata).entries, key) == Lookup(metadata.entries, key)
  {
    var credits := CreditsStep(parse, response).value;
    SetKeyReads(metadata.entries, "credits", credits);
    if key != "credits" {
      SetKeyKeeps(metadata.entries, "credits", credits, key);
    }
  }

  /** A falsy value other than `None`, such as `{}`, is still merged. */
  lemma FalsyCreditsMerged(parse: Parser, response: string, metadata: seq<(string, Json)>, text: string)
    requires ReplyText(parse, response) == Reached(JStr(text)) && Extracted(parse, text) == Some(JObj([]))
    ensures OcrReply(parse, response, JObj(metadata)).success
    ensures Lookup(Updated(parse, response, JObj(metadata)).entries, "credits") == Some(JObj([]))
  {
    SetKeyReads(metadata, "credits", JObj([]));
  }

  /** A reply that is not JSON fails with its own error. */
  lemma ResponseNotJsonFails(parse: Parser, response: string, metadata: Json)
    requires parse(response).None?
    ensures OcrReply(parse, response, metadata) == Reply(false, Some(ResponseNotJson))
  {
  }

  /** A reply without candidates, or with an empty list of them, fails. */
  lemma NoCandidatesFails(parse: Parser, response: string, data: seq<(string, Json)>, metadata: Json)
    requires parse(response) == Some(JObj(data))
    requires !HasKey(data, "candidates") || Lookup(data, "candidates") == Some(JArr([]))
    ensures OcrReply(parse, response, metadata) == Reply(false, Some(NoCandidates))
  {
    LookupFound(data, "candidates");
  }

  /** A first candidate without parts fails with the missing-text error. */
  lemma NoPartsFails(parse: Parser, response: string, data: seq<(string, Json)>, rest: seq<Json>,
                     content: seq<(string, Json)>, metadata: Json)
    requires parse(response) == Some(JObj(data))
    requires Lookup(data, "candidates") == Some(JArr([JObj([("content", JObj(content))])] + rest))
    requires !HasKey(content, "parts")
    ensures OcrReply(parse, response, metadata) == Reply(false, Some(NoText))
  {
    LookupFound(content, "parts");
  }

  /** Text from which nothing parses fails with the not-JSON error. */
  lemma NothingParsesFails(parse: Parser, response: string, text: string, metadata: Json)
    requires ReplyText(parse, response) == Reached(JStr(text))
    requires forall i :: 0 <= i < |Attempts(text)| ==> parse(Attempts(text)[i]).None?
    ensures OcrReply(parse, response, metadata) == Reply(false, Some(CreditsNotJson))
  {
    FirstParseIsFirst(parse, Attempts(text));
  }
}
