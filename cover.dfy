/**
 * `parse_cover_comparison_json` of consolidate.py: read the AI verdict on
 * whether two cover images are the same, from a JSON object found in the
 * response text or, failing that, from keywords in the text.
 *
 * The node is a chain of expressions, so it is modelled as functions; the
 * lemmas state the decision table of each path.
 */
module Cover {
  import opened Wrappers
  import opened Json
  import opened Strings
  import opened FieldCheck

  // ---- locating the JSON object ----

  /** The first index at or after `i` holding `c`. */
  function FirstFrom(s: string, c: char, i: nat): (r: Option<nat>)
    requires i <= |s|
    ensures r.Some? ==> i <= r.value < |s|
    decreases |s| - i
  {
    if i == |s| then None
    else if s[i] == c then Some(i)
    else FirstFrom(s, c, i + 1)
  }

  /** The last index below `n` holding `c`. */
  function LastBelow(s: string, c: char, n: nat): (r: Option<nat>)
    requires n <= |s|
    ensures r.Some? ==> r.value < n
  {
    if n == 0 then None
    else if s[n - 1] == c then Some(n - 1)
    else LastBelow(s, c, n - 1)
  }

  /** `FirstFrom` finds an occurrence of `c` with none between `i` and it, or reports that there is none. */
  lemma {:induction false} FirstFromFacts(s: string, c: char, i: nat)
    requires i <= |s|
    ensures FirstFrom(s, c, i).Some? ==>
      var k := FirstFrom(s, c, i).value;
      i <= k < |s| && s[k] == c && forall m :: i <= m < k ==> s[m] != c
    ensures FirstFrom(s, c, i).None? ==> forall m :: i <= m < |s| ==> s[m] != c
    decreases |s| - i
  {
    if i < |s| && s[i] != c {
      FirstFromFacts(s, c, i + 1);
    }
  }

  /** `LastBelow` finds an occurrence of `c` with none between it and `n`, or reports that there is none. */
  lemma {:induction false} LastBelowFacts(s: string, c: char, n: nat)
    requires n <= |s|
    ensures LastBelow(s, c, n).Some? ==>
      var k := LastBelow(s, c, n).value;
      k < n && s[k] == c && forall m :: k < m < n ==> s[m] != c
    ensures LastBelow(s, c, n).None? ==> forall m :: 0 <= m < n ==> s[m] != c
  {
    if n > 0 && s[n - 1] != c {
      LastBelowFacts(s, c, n - 1);
    }
  }

  /**
   * `re.search(r"\{.*\}", s, re.DOTALL).group()`: the greedy span from the
   * first `{` to the last `}`, or `None` when no `}` follows a `{`.
   */
  function BraceSpan(s: string): Option<string> {
    match FirstFrom(s, '{', 0)
    case None => None
    case Some(i) =>
      match LastBelow(s, '}', |s|)
      case None => None
      case Some(j) => if i < j then Some(s[i..j + 1]) else None
  }

  /**
   * A span is found exactly when some `{` precedes some `}`; it then starts
   * at the first `{` and ends at the last `}` of the text.
   */
  lemma BraceSpanShape(s: string)
    ensures BraceSpan(s).Some? <==> exists i, j :: 0 <= i < j < |s| && s[i] == '{' && s[j] == '}'
    ensures BraceSpan(s).Some? ==> exists i, j ::
      && 0 <= i < j < |s| && BraceSpan(s).value == s[i..j + 1] && s[i] == '{' && s[j] == '}'
      && (forall m :: 0 <= m < i ==> s[m] != '{') && (forall m :: j < m < |s| ==> s[m] != '}')
  {
    FirstFromFacts(s, '{', 0);
    LastBelowFacts(s, '}', |s|);
    if exists i, j :: 0 <= i < j < |s| && s[i] == '{' && s[j] == '}' {
      var i, j :| 0 <= i < j < |s| && s[i] == '{' && s[j] == '}';
      assert FirstFrom(s, '{', 0).Some? && FirstFrom(s, '{', 0).value <= i;
      assert LastBelow(s, '}', |s|).Some? && LastBelow(s, '}', |s|).value >= j;
    }
  }

  // ---- the verdict ----

  /**
   * The returned dict: `status`, `confidence`, `differences` (absent from
   * the keyword fallback), `notes` and `is_same`. Values read from the JSON
   * object are kept as they were parsed.
   */
  datatype CoverVerdict = CoverVerdict(
    status: Status,
    confidence: Json,
    differences: Option<Json>,
    notes: Json,
    isSame: Json)

  /** A value Python compares with `0.8`: a number or a bool (as 0 or 1); anything else raises `TypeError`. */
  function AsNumber(j: Json): Option<real> {
    match j
    case JBool(b) => Some(if b then 1.0 else 0.0)
    case JInt(i) => Some(i as real)
    case JNum(n) => Some(n)
    case _ => None
  }

  /**
   * `"确认" if is_same and confidence > 0.8 else "存疑"`; `None` when
   * `is_same` is truthy and `confidence` cannot be compared.
   */
  function Decide(isSame: Json, confidence: Json): Option<Status> {
    if !Truthy(isSame) then Some(Questionable)
    else
      match AsNumber(confidence)
      case None => None
      case Some(x) => Some(if x > 0.8 then Confirmed else Questionable)
  }

  /** The verdict read from a parsed dict, or `None` when deciding raises. */
  function ReadVerdict(entries: seq<(string, Json)>): Option<CoverVerdict> {
    var isSame := GetOr(entries, "is_same", JBool(false));
    var confidence := GetOr(entries, "confidence", JNum(0.0));
    match Decide(isSame, confidence)
    case None => None
    case Some(status) =>
      Some(CoverVerdict(status, confidence, Some(GetOr(entries, "differences", JArr([]))),
                        GetOr(entries, "notes", JStr("")), isSame))
  }

  /** A same-meaning keyword occurs in the cleaned text. */
  predicate SaysSame(text: string) {
    Contains(text, "相同") || Contains(text, "same") || Contains(text, "yes")
  }

  /** A different-meaning keyword occurs in the cleaned text. */
  predicate SaysDifferent(text: string) {
    Contains(text, "不相同") || Contains(text, "different") || Contains(text, "no")
  }

  /** The keyword fallback on the lower-cased, stripped text; `notes` is the raw response. */
  function Fallback(response: string): CoverVerdict {
    var text := Strip(Lower(response));
    if SaysSame(text) then CoverVerdict(Confirmed, JNum(0.9), None, JStr(response), JBool(true))
    else if SaysDifferent(text) then CoverVerdict(Questionable, JNum(0.5), None, JStr(response), JBool(false))
    else CoverVerdict(NotFound, JNum(0.0), None, JStr(response), JBool(false))
  }

  /**
   * `parse_cover_comparison_json`: the JSON path when a span parses to a
   * dict; a decode error, or a non-dict whose `.get` raises
   * `AttributeError`, falls back to keywords. `None` is the `TypeError`
   * of comparing an unorderable `confidence`, which is not caught.
   */
  function ParseCover(parse: Parser, response: string): Option<CoverVerdict> {
    match BraceSpan(response)
    case None => Some(Fallback(response))
    case Some(span) =>
      match parse(span)
      case Some(JObj(entries)) => ReadVerdict(entries)
      case _ => Some(Fallback(response))
  }

  /** Whether the JSON path applies: a span is found and parses to a dict. */
  predicate ParsesToDict(parse: Parser, response: string) {
    BraceSpan(response).Some? && parse(BraceSpan(response).value).Some? && parse(BraceSpan(response).value).value.JObj?
  }

  /** The parsed dict, when the JSON path applies. */
  function ParsedEntries(parse: Parser, response: string): seq<(string, Json)>
    requires ParsesToDict(parse, response)
  {
    parse(BraceSpan(response).value).value.entries
  }

  // ---- what the verdict promises ----

  /**
   * On the JSON path the status is 确认 exactly when `is_same` is truthy
   * and `confidence` exceeds 0.8 strictly, and 存疑 otherwise; the parser
   * raises exactly when `is_same` is truthy and `confidence` is not a number.
   */
  lemma ParsedStatus(parse: Parser, response: string)
    requires ParsesToDict(parse, response)
    ensures var e := ParsedEntries(parse, response);
      var isSame, confidence := GetOr(e, "is_same", JBool(false)), GetOr(e, "confidence", JNum(0.0));
      && (ParseCover(parse, response).None? <==> Truthy(isSame) && AsNumber(confidence).None?)
      && (ParseCover(parse, response).Some? ==>
            && ParseCover(parse, response).value.confidence == confidence
            && ParseCover(parse, response).value.isSame == isSame
            && ParseCover(parse, response).value.status != NotFound
            && (ParseCover(parse, response).value.status == Confirmed <==>
                  Truthy(isSame) && AsNumber(confidence).value > 0.8))
  {
  }

  /** A parsed dict without any of the four keys reads as 存疑 with False, 0.0, [] and "". */
  lemma ParsedDefaults(parse: Parser, response: string)
    requires ParsesToDict(parse, response)
    requires var e := ParsedEntries(parse, response);
      !HasKey(e, "is_same") && !HasKey(e, "confidence") && !HasKey(e, "differences") && !HasKey(e, "notes")
    ensures ParseCover(parse, response) == Some(CoverVerdict(Questionable, JNum(0.0), Some(JArr([])), JStr(""), JBool(false)))
  {
    var e := ParsedEntries(parse, response);
    LookupFound(e, "is_same");
    LookupFound(e, "confidence");
    LookupFound(e, "differences");
    LookupFound(e, "notes");
  }

  /** A verdict with `is_same: true` and a confidence above 0.8 confirms and reports that confidence. */
  lemma ConfidentSameConfirms(parse: Parser, response: string, confidence: real)
    requires ParsesToDict(parse, response)
    requires Lookup(ParsedEntries(parse, response), "is_same") == Some(JBool(true))
    requires Lookup(ParsedEntries(parse, response), "confidence") == Some(JNum(confidence)) && confidence > 0.8
    ensures ParseCover(parse, response).Some?
    ensures ParseCover(parse, response).value.status == Confirmed
    ensures ParseCover(parse, response).value.confidence == JNum(confidence)
  {
  }

  /**
   * Without a dict to read, the keywords decide in order: a same-keyword
   * confirms with 0.9, else a different-keyword gives 存疑 with 0.5, else
   * 未查到 with 0.0; `notes` is the raw response and there is no
   * `differences` key.
   */
  lemma FallbackTable(parse: Parser, response: string)
    requires !ParsesToDict(parse, response)
    ensures ParseCover(parse, response).Some?
    ensures var v, text := ParseCover(parse, response).value, Strip(Lower(response));
      && v.notes == JStr(response) && v.differences.None?
      && (v.status == Confirmed <==> SaysSame(text))
      && (v.status == Questionable <==> !SaysSame(text) && SaysDifferent(text))
      && (v.status == NotFound <==> !SaysSame(text) && !SaysDifferent(text))
      && v.confidence == (if SaysSame(text) then JNum(0.9) else if SaysDifferent(text) then JNum(0.5) else JNum(0.0))
      && v.isSame == JBool(SaysSame(text))
  {
  }

  /** Every text containing 不相同 also contains 相同. */
  lemma NegationContainsSame(text: string)
    requires Contains(text, "不相同")
    ensures Contains(text, "相同")
  {
    var i := FindFrom(text, "不相同", 0);
    assert text[i + 1..i + 3] == text[i..i + 3][1..];
    ContainsAt(text, "相同", i + 1);
  }

  /**
   * The fallback reads a text that says 不相同 ("not the same") as 确认,
   * because the same-keyword 相同 is tested first and occurs inside it.
   */
  lemma NegationReadsAsSame(parse: Parser, response: string)
    requires !ParsesToDict(parse, response)
    requires Contains(Strip(Lower(response)), "不相同")
    ensures ParseCover(parse, response) == Some(CoverVerdict(Confirmed, JNum(0.9), None, JStr(response), JBool(true)))
  {
    NegationContainsSame(Strip(Lower(response)));
  }

  // ---- the cover_art field of the report ----

  /** The `ai_comparison` part of the `cover_art` field, after `main`'s defaults. */
  datatype AiComparison = AiComparison(rawResponse: string, isSame: Json, confidence: Json, differences: Json, notes: Json)

  /**
   * `main`'s reading of the cover verdict: an empty response is not parsed
   * and reads as 未查到 with False, 0.0, [] and ""; otherwise the parsed
   * verdict with `differences` defaulting to []. `None` when parsing raises.
   */
  function CoverReading(parse: Parser, response: string): Option<(Status, AiComparison)> {
    if response == [] then Some((NotFound, AiComparison(response, JBool(false), JNum(0.0), JArr([]), JStr(""))))
    else
      match ParseCover(parse, response)
      case None => None
      case Some(v) => Some((v.status, AiComparison(response, v.isSame, v.confidence, v.differences.GetOr(JArr([])), v.notes)))
  }

  /** The reading keeps the parser's status and `is_same`, and records the raw response. */
  lemma CoverReadingKeepsVerdict(parse: Parser, response: string)
    ensures response == [] ==> CoverReading(parse, response).Some? && CoverReading(parse, response).value.0 == NotFound
    ensures response != [] ==> (CoverReading(parse, response).None? <==> ParseCover(parse, response).None?)
    ensures response != [] && ParseCover(parse, response).Some? ==>
      var v, c := ParseCover(parse, response).value, CoverReading(parse, response).value;
      c.0 == v.status && c.1.isSame == v.isSame && c.1.confidence == v.confidence && c.1.rawResponse == response
  {
  }
}
