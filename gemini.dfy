/**
 * `parse_gemini_response.py`: reads the cover comparison out of a Gemini
 * Vision reply. The model's text sits at `candidates[0].content.parts[0].text`;
 * a ```` ```json ```` fenced block in it, when there is one, holds the JSON.
 *
 * Every exception the node catches is folded into one failure record; the
 * text of the exception is not modelled.
 */
module GeminiResponse {
  import opened Wrappers
  import opened Json
  import opened Strings

  // ---- the fenced block: re.search(r"```json\s*\n(.*?)\n```", text, re.DOTALL) ----

  /** The end of the run of whitespace starting at `j`. */
  function SpaceEnd(s: string, j: nat): (e: nat)
    requires j <= |s|
    ensures j <= e <= |s|
    ensures forall t :: j <= t < e ==> IsSpace(s[t])
    ensures e < |s| ==> !IsSpace(s[e])
    decreases |s| - j
  {
    if j < |s| && IsSpace(s[j]) then SpaceEnd(s, j + 1) else j
  }

  /**
   * The lazy group after the newline at `k`, or, when no "\n```" follows,
   * the one after the previous newline at or above `lo`: `\s*` gives back
   * characters one at a time until `\n(.*?)\n```` matches.
   */
  function BodyFrom(s: string, lo: nat, k: int): (r: Option<string>)
    requires -1 <= k < |s|
    decreases k + 1
  {
    if k < lo then None
    else if s[k] == '\n' && FindFrom(s, "\n```", k + 1) != -1 then
      Some(s[k + 1..FindFrom(s, "\n```", k + 1)])
    else BodyFrom(s, lo, k - 1)
  }

  /** The group of the leftmost match starting at or after `from`. */
  function Fence(s: string, from: nat): (r: Option<string>)
    decreases |s| - from
  {
    if from + 7 > |s| then None
    else if IsAt(s, "```json", from) then
      match BodyFrom(s, from + 7, SpaceEnd(s, from + 7) - 1)
      case Some(body) => Some(body)
      case None => Fence(s, from + 1)
    else Fence(s, from + 1)
  }

  /**
   * A match of the pattern: "```json" at `i`, whitespace up to a newline at
   * `k`, the group, and the first "\n```" after the newline at `m`.
   */
  predicate FencedAt(s: string, i: nat, k: nat, m: nat) {
    && IsAt(s, "```json", i) && i + 7 <= k < m && IsAt(s, "\n```", m) && s[k] == '\n'
    && (forall t :: i + 7 <= t < k ==> IsSpace(s[t]))
    && (forall j :: k + 1 <= j < m ==> !IsAt(s, "\n```", j))
  }

  /** What `BodyFrom` returns is the group after one of the run's newlines. */
  lemma {:induction false} BodyFromShape(s: string, i: nat, k: int)
    requires IsAt(s, "```json", i) && -1 <= k < |s|
    requires forall t :: i + 7 <= t <= k ==> IsSpace(s[t])
    ensures BodyFrom(s, i + 7, k).Some? ==>
      exists k': nat, m: nat :: k' <= k && FencedAt(s, i, k', m) && BodyFrom(s, i + 7, k).value == s[k' + 1..m]
    decreases k + 1
  {
    if k >= i + 7 {
      var m := FindFrom(s, "\n```", k + 1);
      if s[k] == '\n' && m != -1 {
        assert FencedAt(s, i, k, m);
      } else {
        BodyFromShape(s, i, k - 1);
      }
    }
  }

  /** Whatever `Fence` returns is the group of a match of the pattern. */
  lemma {:induction false} FenceShape(s: string, from: nat)
    ensures Fence(s, from).Some? ==>
      exists i: nat, k: nat, m: nat :: from <= i && FencedAt(s, i, k, m) && Fence(s, from).value == s[k + 1..m]
    decreases |s| - from
  {
    if from + 7 <= |s| {
      if IsAt(s, "```json", from) && BodyFrom(s, from + 7, SpaceEnd(s, from + 7) - 1).Some? {
        BodyFromShape(s, from, SpaceEnd(s, from + 7) - 1);
      } else {
        FenceShape(s, from + 1);
      }
    }
  }

  /**
   * The usual reply: "```json", a newline, the JSON and "\n```". A
   * non-empty body without backticks that does not start with whitespace
   * comes back whole.
   */
  lemma FenceWrapped(body: string, rest: string)
    requires forall t :: 0 <= t < |body| ==> body[t] != '`'
    requires body != [] && !IsSpace(body[0])
    ensures Fence("```json\n" + body + "\n```" + rest, 0) == Some(body)
  {
    var s := "```json\n" + body + "\n```" + rest;
    var m := 8 + |body|;
    assert IsAt(s, "```json", 0) by { assert s[0..7] == "```json"; }
    assert s[8..m] == body;
    assert IsAt(s, "\n```", m) by { assert s[m..m + 4] == "\n```"; }
    forall j | 8 <= j < m ensures !IsAt(s, "\n```", j) {
      if j + 1 < m {
        assert s[j + 1] == body[j + 1 - 8];
      } else {
        assert s[j + 1] == '\n';
      }
      assert s[j..j + 4][1] == s[j + 1];
    }
    FindFromIs(s, "\n```", 8, m);
    assert s[8] == body[0];
    assert SpaceEnd(s, 7) == 8 by {
      assert SpaceEnd(s, 8) == 8;
    }
  }

  // ---- the node ----

  /** The node's output record; `raised` stands for a non-empty `error`. */
  datatype Comparison = Comparison(
    isSame: Json,
    confidence: Json,
    differences: Json,
    notes: Json,
    rawJson: string,
    success: bool,
    raised: bool)

  /** The record built in the `except` branch. */
  const FailedComparison := Comparison(JBool(false), JNum(0.0), JArr([]), JStr(""), "", false, true)

  /** A string reply is parsed; anything else is used as it is. */
  function ResponseData(parse: Parser, response: Json): Option<Json> {
    if response.JStr? then parse(response.s) else Some(response)
  }

  /**
   * `data.get("candidates", [{}])[0].get("content", {}).get("parts", [{}])[0].get("text", "")`;
   * `None` when a step raises.
   */
  function ResponseText(data: Json): Option<Json> {
    match Get(data, "candidates", JArr([JObj([])]))
    case None => None
    case Some(candidates) =>
      match First(candidates)
      case None => None
      case Some(candidate) =>
        match Get(candidate, "content", JObj([]))
        case None => None
        case Some(content) =>
          match Get(content, "parts", JArr([JObj([])]))
          case None => None
          case Some(parts) =>
            match First(parts)
            case None => None
            case Some(part) => Get(part, "text", JStr(""))
  }

  /** The string that is parsed: the fenced block, else the whole text. */
  function JsonText(text: string): string {
    match Fence(text, 0)
    case Some(body) => body
    case None => text
  }

  /** The success record of a parsed comparison, with its defaults. */
  function Read(json: string, entries: seq<(string, Json)>): Comparison {
    Comparison(GetOr(entries, "is_same", JBool(false)), GetOr(entries, "confidence", JNum(0.0)),
               GetOr(entries, "differences", JArr([])), GetOr(entries, "notes", JStr("")),
               json, true, false)
  }

  /** The node's `main`; `re.search` raises `TypeError` on a text that is not a string. */
  function ParseComparison(parse: Parser, response: Json): Comparison {
    match ResponseData(parse, response)
    case None => FailedComparison
    case Some(data) =>
      match ResponseText(data)
      case None => FailedComparison
      case Some(text) =>
        if !text.JStr? then FailedComparison
        else
          var json := JsonText(text.s);
          match parse(json)
          case None => FailedComparison
          case Some(result) => if result.JObj? then Read(json, result.entries) else FailedComparison
  }

  // ---- what the record promises ----

  /** A parser that rejects the empty string, as `json.loads("")` does. */
  predicate RejectsEmpty(parse: Parser) {
    parse("").None?
  }

  /** A successful record carries no error; a failed one is exactly the failure record. */
  lemma SuccessOrFailure(parse: Parser, response: Json)
    ensures var r := ParseComparison(parse, response);
      (r.success <==> !r.raised) && (!r.success ==> r == FailedComparison)
  {
  }

  /**
   * On success `raw_json` is the string that was parsed, into a dict whose
   * fields the record carries (with their defaults), and it is the fenced
   * block when the text has one and the whole text otherwise.
   */
  lemma SuccessReadsParsed(parse: Parser, response: Json)
    requires ParseComparison(parse, response).success
    ensures var r := ParseComparison(parse, response);
      exists data, text, entries ::
        (&& ResponseData(parse, response) == Some(data)
         && ResponseText(data) == Some(JStr(text))
         && r.rawJson == (if Fence(text, 0).Some? then Fence(text, 0).value else text)
         && parse(r.rawJson) == Some(JObj(entries))
         && r == Read(r.rawJson, entries))
  {
    var data := ResponseData(parse, response).value;
    var text := ResponseText(data).value;
    var entries := parse(JsonText(text.s)).value.entries;
    assert ParseComparison(parse, response) == Read(JsonText(text.s), entries);
  }

  /** A fenced block's content is what gets parsed, wherever the block sits. */
  lemma FencedContentParsed(text: string)
    requires Fence(text, 0).Some?
    ensures exists i: nat, k: nat, m: nat :: FencedAt(text, i, k, m) && JsonText(text) == text[k + 1..m]
  {
    FenceShape(text, 0);
  }

  /** A reply without candidates yields the text "", which does not parse: the node fails. */
  lemma NoCandidatesFails(parse: Parser, entries: seq<(string, Json)>)
    requires RejectsEmpty(parse) && !HasKey(entries, "candidates")
    ensures ParseComparison(parse, JObj(entries)) == FailedComparison
  {
    LookupFound(entries, "candidates");
    assert ResponseText(JObj(entries)) == Some(JStr(""));
    assert Fence("", 0) == None;
  }

  /** An empty candidate list raises `IndexError`: the node fails. */
  lemma EmptyCandidatesFails(parse: Parser, entries: seq<(string, Json)>)
    requires Lookup(entries, "candidates") == Some(JArr([]))
    ensures ParseComparison(parse, JObj(entries)) == FailedComparison
  {
  }

  /** A reply whose JSON reads "is_same": true with a confidence passes both on. */
  lemma ReadsVerdict(json: string, entries: seq<(string, Json)>, isSame: Json, confidence: Json)
    requires Lookup(entries, "is_same") == Some(isSame) && Lookup(entries, "confidence") == Some(confidence)
    ensures Read(json, entries).isSame == isSame && Read(json, entries).confidence == confidence
    ensures Read(json, entries).success && Read(json, entries).rawJson == json
  {
  }

  /** A dict without the comparison's keys reads with every default. */
  lemma MissingFieldsDefault(json: string, entries: seq<(string, Json)>)
    requires !HasKey(entries, "is_same") && !HasKey(entries, "confidence")
    requires !HasKey(entries, "differences") && !HasKey(entries, "notes")
    ensures Read(json, entries) == Comparison(JBool(false), JNum(0.0), JArr([]), JStr(""), json, true, false)
  {
    LookupFound(entries, "is_same");
    LookupFound(entries, "confidence");
    LookupFound(entries, "differences");
    LookupFound(entries, "notes");
  }
}
