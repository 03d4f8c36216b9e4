/**
 * `parse_qqmusic_response.py`: unwraps the QQ Music proxy's reply and
 * flattens its `track_info` into one record.
 *
 * Every exception the node catches is folded into one failure record; the
 * text of the exception is not modelled.
 */
module QQTrack {
  import opened Wrappers
  import opened Json
  import opened Strings

  /** The node's output record; `raised` stands for a non-empty `error`. */
  datatype TrackRecord = TrackRecord(
    parsedData: Json,
    trackName: Json,
    trackTitle: Json,
    albumId: Json,
    albumMid: Json,
    albumName: Json,
    albumPmid: Json,
    interval: Json,
    success: bool,
    raised: bool)

  /** The record built in the `except` branch. */
  const FailedTrack := TrackRecord(JObj([]), JStr(""), JStr(""), JInt(0), JStr(""), JStr(""), JStr(""), JInt(0), false, true)

  /**
   * The response after unwrapping: a string is parsed; a dict with a "body"
   * key yields the body, parsed when it is a string; any other dict is the
   * data itself; other inputs raise `ValueError`.
   */
  function Unwrap(parse: Parser, response: Json): Option<Json> {
    match response
    case JStr(s) => parse(s)
    case JObj(entries) =>
      if HasKey(entries, "body") then
        var body := GetOr(entries, "body", JNull);
        if body.JStr? then parse(body.s) else Some(body)
      else Some(response)
    case _ => None
  }

  /**
   * Python's `key in x`: a dict's keys, a list's items, a string's
   * substrings; on `None`, a number or a bool it raises `TypeError`.
   */
  function In(key: string, x: Json): Option<bool> {
    match x
    case JObj(entries) => Some(HasKey(entries, key))
    case JArr(items) => Some(JStr(key) in items)
    case JStr(s) => Some(Contains(s, key))
    case _ => None
  }

  /** `x.get(k1, {}).get(k2, {})...` along `path`, raising on a non-dict. */
  function GetPath(x: Json, path: seq<string>): Option<Json>
    decreases |path|
  {
    if path == [] then Some(x)
    else
      match Get(x, path[0], JObj([]))
      case None => None
      case Some(y) => GetPath(y, path[1..])
  }

  /** The old proxy shape nests the track under `response.songinfo.data.track_info`. */
  const OldPath := ["response", "songinfo", "data", "track_info"]

  /**
   * The track_info in use: a top-level "track_info" wins, then the old
   * nesting, then an empty dict.
   */
  function TrackInfo(parsed: Json): Option<Json> {
    match In("track_info", parsed)
    case None => None
    case Some(hasTrack) =>
      if hasTrack then Get(parsed, "track_info", JObj([]))
      else
        match In("response", parsed)
        case None => None
        case Some(hasResponse) =>
          if hasResponse then GetPath(parsed, OldPath) else Some(JObj([]))
  }

  /** The flattened record of a track_info dict, each field with its own default. */
  function Flatten(parsed: Json, track: seq<(string, Json)>, album: seq<(string, Json)>): TrackRecord {
    TrackRecord(parsed,
      GetOr(track, "name", JStr("")), GetOr(track, "title", JStr("")),
      GetOr(album, "id", JInt(0)), GetOr(album, "mid", JStr("")),
      GetOr(album, "name", JStr("")), GetOr(album, "pmid", JStr("")),
      GetOr(track, "interval", JInt(0)), true, false)
  }

  /** The node's `main`. */
  function ParseTrack(parse: Parser, response: Json): TrackRecord {
    match Unwrap(parse, response)
    case None => FailedTrack
    case Some(parsed) =>
      match TrackInfo(parsed)
      case None => FailedTrack
      case Some(track) =>
        if !track.JObj? then FailedTrack
        else
          match Get(track, "album", JObj([]))
          case None => FailedTrack
          case Some(album) => if album.JObj? then Flatten(parsed, track.entries, album.entries) else FailedTrack
  }

  // ---- what the record promises ----

  /** A successful record carries no error; a failed one is exactly the failure record. */
  lemma SuccessOrFailure(parse: Parser, response: Json)
    ensures var r := ParseTrack(parse, response);
      (r.success <==> !r.raised) && (!r.success ==> r == FailedTrack)
  {
  }

  /** A string response and the same string under "body" read alike. */
  lemma BodyUnwrapped(parse: Parser, s: string, entries: seq<(string, Json)>)
    requires Lookup(entries, "body") == Some(JStr(s))
    ensures ParseTrack(parse, JObj(entries)) == ParseTrack(parse, JStr(s))
  {
    LookupFound(entries, "body");
  }

  /** A dict without "body" is read as the parsed data itself. */
  lemma DictIsData(parse: Parser, entries: seq<(string, Json)>)
    requires !HasKey(entries, "body")
    ensures Unwrap(parse, JObj(entries)) == Some(JObj(entries))
  {
  }

  /** A response that is neither a string nor a dict fails. */
  lemma OtherInputFails(parse: Parser, response: Json)
    requires !response.JStr? && !response.JObj?
    ensures ParseTrack(parse, response) == FailedTrack
  {
  }

  /** A top-level "track_info" dict is used even when the old nesting is present too. */
  lemma NewShapeWins(parsed: seq<(string, Json)>, track: seq<(string, Json)>)
    requires Lookup(parsed, "track_info") == Some(JObj(track))
    ensures TrackInfo(JObj(parsed)) == Some(JObj(track))
  {
    LookupFound(parsed, "track_info");
  }

  /** Without "track_info", a "response" key is followed down the old nesting. */
  lemma OldShapeFollowed(parsed: seq<(string, Json)>)
    requires !HasKey(parsed, "track_info") && HasKey(parsed, "response")
    ensures TrackInfo(JObj(parsed)) == GetPath(JObj(parsed), OldPath)
  {
  }

  /** The old nesting, when every level is a dict, reaches the innermost track_info. */
  lemma OldPathReads(parsed: seq<(string, Json)>, response: seq<(string, Json)>, songinfo: seq<(string, Json)>,
                     data: seq<(string, Json)>, track: Json)
    requires Lookup(parsed, "response") == Some(JObj(response))
    requires Lookup(response, "songinfo") == Some(JObj(songinfo))
    requires Lookup(songinfo, "data") == Some(JObj(data))
    requires Lookup(data, "track_info") == Some(track)
    ensures GetPath(JObj(parsed), OldPath) == Some(track)
  {
    var p := OldPath;
    assert p[1..] == ["songinfo", "data", "track_info"];
    assert p[1..][1..] == ["data", "track_info"];
    assert p[1..][1..][1..] == ["track_info"];
    assert p[1..][1..][1..][1..] == [];
  }

  /**
   * An unknown dict shape still succeeds: every field takes its default and
   * the parsed data is passed through.
   */
  lemma UnknownShapeDefaults(parse: Parser, response: Json, parsed: seq<(string, Json)>)
    requires Unwrap(parse, response) == Some(JObj(parsed))
    requires !HasKey(parsed, "track_info") && !HasKey(parsed, "response")
    ensures ParseTrack(parse, response) == TrackRecord(JObj(parsed), JStr(""), JStr(""), JInt(0), JStr(""), JStr(""), JStr(""), JInt(0), true, false)
  {
    assert Lookup([], "album") == None;
  }

  /** On success every field is read from the track (or its album), defaulting when missing. */
  lemma SuccessReadsTrack(parse: Parser, response: Json)
    requires ParseTrack(parse, response).success
    ensures exists parsed, track, album ::
      (&& Unwrap(parse, response) == Some(parsed)
       && TrackInfo(parsed) == Some(JObj(track))
       && Get(JObj(track), "album", JObj([])) == Some(JObj(album))
       && ParseTrack(parse, response) == Flatten(parsed, track, album))
  {
    var parsed := Unwrap(parse, response).value;
    var track := TrackInfo(parsed).value;
    var album := Get(track, "album", JObj([])).value;
    assert ParseTrack(parse, response) == Flatten(parsed, track.entries, album.entries);
  }

  /**
   * "interval" is passed on as the track holds it (in seconds, unconverted),
   * and reads 0 when missing.
   */
  lemma IntervalPassedThrough(parsed: Json, track: seq<(string, Json)>, album: seq<(string, Json)>)
    ensures !HasKey(track, "interval") ==> Flatten(parsed, track, album).interval == JInt(0)
    ensures HasKey(track, "interval") ==>
      exists i :: 0 <= i < |track| && track[i] == ("interval", Flatten(parsed, track, album).interval)
  {
    LookupFound(track, "interval");
  }
}
