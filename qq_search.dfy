/**
 * `find_qqmusic_match.py`: picks the QQ Music candidate from a search
 * response. The selection is "the first result": the NetEase title and
 * artist are accepted but not consulted.
 *
 * Every exception the node catches is folded into one failure record; the
 * text of the exception (`str(e)`) is not modelled.
 */
module QQSearch {
  import opened Wrappers
  import opened Json

  /** The `error` text of the output: empty, "搜索无结果", or the text of an exception. */
  datatype SearchError = NoError | NoResults | Raised

  /** The node's output record. */
  datatype QQMatch = QQMatch(matchId: Json, matchName: Json, matchAlbum: Json, found: bool, error: SearchError)

  /** The record for an empty search, with error "搜索无结果". */
  const EmptySearch := QQMatch(JStr(""), JStr(""), JStr(""), false, NoResults)

  /** The record built in the `except` branch. */
  const FailedSearch := QQMatch(JStr(""), JStr(""), JStr(""), false, Raised)

  /** A string input is parsed; anything else is used as it is. */
  function SearchData(parse: Parser, input: Json): Option<Json> {
    if input.JStr? then parse(input.s) else Some(input)
  }

  /** `len(x)` is defined: strings, lists and dicts. */
  predicate Sized(j: Json) {
    j.JStr? || j.JArr? || j.JObj?
  }

  /**
   * `search_data.get("song", {}).get("list", [])`, whose length the debug
   * line prints; `None` when a `.get` meets a non-dict or `len` raises.
   */
  function Results(data: Json): (r: Option<Json>)
    ensures r.Some? ==> Sized(r.value)
  {
    match Get(data, "song", JObj([]))
    case None => None
    case Some(song) =>
      match Get(song, "list", JArr([]))
      case None => None
      case Some(results) => if Sized(results) then Some(results) else None
  }

  /**
   * `search_data.get("song", {}).get("list", [])` reads the list under
   * `song`, and raises when the response or its `song` is not a dict.
   */
  lemma ResultsReadsSongList(data: Json)
    ensures !data.JObj? ==> Results(data).None?
    ensures data.JObj? && !HasKey(data.entries, "song") ==> Results(data) == Some(JArr([]))
    ensures data.JObj? && Lookup(data.entries, "song").Some? && !Lookup(data.entries, "song").value.JObj? ==> Results(data).None?
    ensures forall song, items ::
      (data.JObj? && Lookup(data.entries, "song") == Some(JObj(song)) && Lookup(song, "list") == Some(JArr(items)))
      ==> Results(data) == Some(JArr(items))
  {
    if data.JObj? {
      LookupFound(data.entries, "song");
    }
  }

  /** The record for a chosen result: its three fields with default "". */
  function Chosen(best: seq<(string, Json)>): QQMatch {
    QQMatch(GetOr(best, "songmid", JStr("")), GetOr(best, "songname", JStr("")),
            GetOr(best, "albumname", JStr("")), true, NoError)
  }

  /** The node's `main`. */
  function FindMatch(parse: Parser, input: Json, title: string, artist: string): QQMatch {
    match SearchData(parse, input)
    case None => FailedSearch
    case Some(data) =>
      match Results(data)
      case None => FailedSearch
      case Some(results) =>
        if !Truthy(results) then EmptySearch
        else
          match First(results)
          case None => FailedSearch
          case Some(best) => if best.JObj? then Chosen(best.entries) else FailedSearch
  }

  /** Every output is found with no error, or not found with empty fields and an error. */
  predicate WellFormed(m: QQMatch) {
    && (m.found <==> m.error == NoError)
    && (!m.found ==> m.matchId == JStr("") && m.matchName == JStr("") && m.matchAlbum == JStr(""))
  }

  lemma FindMatchWellFormed(parse: Parser, input: Json, title: string, artist: string)
    ensures WellFormed(FindMatch(parse, input, title, artist))
  {
  }

  /** A dict without a "song" key is an empty search. */
  lemma MissingSongIsEmpty(parse: Parser, entries: seq<(string, Json)>, title: string, artist: string)
    requires !HasKey(entries, "song")
    ensures FindMatch(parse, JObj(entries), title, artist) == EmptySearch
  {
    LookupFound(entries, "song");
  }

  /** A song dict whose "list" is missing or empty is an empty search. */
  lemma EmptyListIsEmpty(parse: Parser, data: Json, song: seq<(string, Json)>, title: string, artist: string)
    requires data.JObj? && Lookup(data.entries, "song") == Some(JObj(song))
    requires !HasKey(song, "list") || Lookup(song, "list") == Some(JArr([]))
    ensures FindMatch(parse, data, title, artist) == EmptySearch
  {
    LookupFound(song, "list");
  }

  /**
   * A non-empty result list selects its first element whatever the title
   * and artist are: the first element's `songmid`, `songname` and
   * `albumname`, each "" when missing.
   */
  lemma FirstResultChosen(parse: Parser, input: Json, title: string, artist: string, items: seq<Json>)
    requires SearchData(parse, input).Some? && Results(SearchData(parse, input).value) == Some(JArr(items))
    requires items != [] && items[0].JObj?
    ensures FindMatch(parse, input, title, artist).found
    ensures FindMatch(parse, input, title, artist) == Chosen(items[0].entries)
    ensures forall t, a :: FindMatch(parse, input, t, a) == FindMatch(parse, input, title, artist)
  {
  }

  /** A missing field of the chosen result reads "". */
  lemma MissingFieldIsEmpty(best: seq<(string, Json)>)
    requires !HasKey(best, "songmid")
    ensures Chosen(best).matchId == JStr("")
  {
    LookupFound(best, "songmid");
  }

  /** A string input that is not JSON gives the failure record. */
  lemma InvalidJsonFails(parse: Parser, s: string, title: string, artist: string)
    requires parse(s).None?
    ensures FindMatch(parse, JStr(s), title, artist) == FailedSearch
    ensures !FindMatch(parse, JStr(s), title, artist).found
  {
  }

  /** A parsed input gives the same record as its text. */
  lemma ParsedInputAgrees(parse: Parser, s: string, data: Json, title: string, artist: string)
    requires parse(s) == Some(data) && !data.JStr?
    ensures FindMatch(parse, JStr(s), title, artist) == FindMatch(parse, data, title, artist)
  {
  }
}
