/**
 * The matching node of find_match.py: score every search result against the
 * target song and keep the best one.
 *
 * A candidate's score is `0.7 * title similarity + 0.3 * [some artist pair is
 * similar]`. The running best is replaced only by a strictly greater score,
 * so the first candidate with the maximum wins, and it is accepted when its
 * score reaches 0.6. A Python exception (a `.get` on a value that is not a
 * dict, `.lower()` on a value that is not a string, iterating `None`) makes
 * the whole node report failure; it is modelled as `None` in the helpers.
 */
module FindMatch {
  import opened Wrappers
  import opened Json
  import opened Strings
  import opened Similarity
  import opened Platforms

  /** `artists_match`'s default threshold. */
  const ArtistThreshold: real := 0.8

  /** The score a best candidate needs to be accepted. */
  const AcceptThreshold: real := 0.6

  // ---- artists_match ----

  /**
   * `artists_match` scanning one target name `x` against the candidate's
   * names: `Some(true)` at the first similar name, `None` when a name reached
   * before that is not a string (its `.lower()` raises).
   */
  function RowScan(sim: Ratio, x: string, ys: seq<Json>): Option<bool> {
    if ys == [] then Some(false)
    else if !ys[0].JStr? then None
    else if StrippedRatio(sim, x, ys[0].s) >= ArtistThreshold then Some(true)
    else RowScan(sim, x, ys[1..])
  }

  /** `artists_match(xs, ys)`: the rows in order, stopping at the first hit or exception. */
  function PairScan(sim: Ratio, xs: seq<string>, ys: seq<Json>): Option<bool> {
    if xs == [] then Some(false)
    else match RowScan(sim, xs[0], ys)
      case None => None
      case Some(true) => Some(true)
      case Some(false) => PairScan(sim, xs[1..], ys)
  }

  /** Some target name and some candidate name (a string) are at least 0.8 similar. */
  ghost predicate SomePairMatches(sim: Ratio, xs: seq<string>, ys: seq<Json>) {
    exists i, j :: 0 <= i < |xs| && 0 <= j < |ys| && ys[j].JStr? && StrippedRatio(sim, xs[i], ys[j].s) >= ArtistThreshold
  }

  predicate AllStrings(ys: seq<Json>) {
    forall j :: 0 <= j < |ys| ==> ys[j].JStr?
  }

  /** `artists_match`: the nested loop with early return. */
  method ArtistsMatch(sim: Ratio, artists1: seq<string>, artists2: seq<Json>) returns (r: Option<bool>)
    ensures r == PairScan(sim, artists1, artists2)
  {
    for i := 0 to |artists1|
      invariant PairScan(sim, artists1, artists2) == PairScan(sim, artists1[i..], artists2)
    {
      var a1 := artists1[i];
      assert artists1[i..][1..] == artists1[i + 1..];
      for j := 0 to |artists2|
        invariant RowScan(sim, a1, artists2) == RowScan(sim, a1, artists2[j..])
      {
        var a2 := artists2[j];
        assert artists2[j..][1..] == artists2[j + 1..];
        if !a2.JStr? {
          return None;
        }
        if StrippedRatio(sim, a1, a2.s) >= ArtistThreshold {
          return Some(true);
        }
      }
    }
    return Some(false);
  }

  /** A row scan that hits has found a similar pair; one that misses saw only strings, none similar. */
  lemma {:induction false} RowScanMeaning(sim: Ratio, x: string, ys: seq<Json>)
    ensures RowScan(sim, x, ys) == Some(true) ==>
      exists j :: 0 <= j < |ys| && ys[j].JStr? && StrippedRatio(sim, x, ys[j].s) >= ArtistThreshold
    ensures RowScan(sim, x, ys) == Some(false) ==>
      AllStrings(ys) && forall j :: 0 <= j < |ys| ==> StrippedRatio(sim, x, ys[j].s) < ArtistThreshold
    ensures AllStrings(ys) ==> RowScan(sim, x, ys).Some?
  {
    if ys != [] && ys[0].JStr? && StrippedRatio(sim, x, ys[0].s) < ArtistThreshold {
      RowScanMeaning(sim, x, ys[1..]);
      assert forall j :: 1 <= j < |ys| ==> ys[j] == ys[1..][j - 1];
    }
  }

  /**
   * `artists_match` is true exactly when some pair is similar: a `true`
   * result has such a pair, a `false` one has none, and it can only raise
   * when some candidate name is not a string.
   */
  lemma {:induction false} PairScanMeaning(sim: Ratio, xs: seq<string>, ys: seq<Json>)
    ensures PairScan(sim, xs, ys) == Some(true) ==> SomePairMatches(sim, xs, ys)
    ensures PairScan(sim, xs, ys) == Some(false) ==> !SomePairMatches(sim, xs, ys)
    ensures AllStrings(ys) ==> PairScan(sim, xs, ys).Some?
  {
    if xs != [] {
      RowScanMeaning(sim, xs[0], ys);
      PairScanMeaning(sim, xs[1..], ys);
      if RowScan(sim, xs[0], ys) == Some(true) {
        var j :| 0 <= j < |ys| && ys[j].JStr? && StrippedRatio(sim, xs[0], ys[j].s) >= ArtistThreshold;
        assert 0 <= 0 < |xs| && StrippedRatio(sim, xs[0], ys[j].s) >= ArtistThreshold;
      } else if RowScan(sim, xs[0], ys) == Some(false) {
        if SomePairMatches(sim, xs[1..], ys) {
          var i, j :| 0 <= i < |xs[1..]| && 0 <= j < |ys| && ys[j].JStr? && StrippedRatio(sim, xs[1..][i], ys[j].s) >= ArtistThreshold;
          assert xs[i + 1] == xs[1..][i];
        }
        if PairScan(sim, xs, ys) == Some(false) {
          forall i, j | 0 <= i < |xs| && 0 <= j < |ys| && ys[j].JStr?
            ensures StrippedRatio(sim, xs[i], ys[j].s) < ArtistThreshold
          {
            if i > 0 {
              assert xs[i] == xs[1..][i - 1];
            }
          }
        }
      }
    }
  }

  /** With no target artist or no candidate artist there is no artist match. */
  lemma NoArtistsNoMatch(sim: Ratio, xs: seq<string>, ys: seq<Json>)
    requires xs == [] || ys == []
    ensures PairScan(sim, xs, ys) == Some(false)
    decreases |xs|
  {
    if xs != [] {
      NoArtistsNoMatch(sim, xs[1..], ys);
    }
  }

  // ---- scoring one candidate ----

  /** `title_similarity * 0.7 + (1.0 if artist_match else 0.0) * 0.3`. */
  function CompositeScore(titleSim: real, artistMatch: bool): (r: real)
    ensures 0.0 <= titleSim <= 1.0 ==> 0.0 <= r <= 1.0
    ensures artistMatch ==> r == titleSim * 0.7 + 0.3
    ensures !artistMatch ==> r == titleSim * 0.7
  {
    titleSim * 0.7 + (if artistMatch then 1.0 else 0.0) * 0.3
  }

  /**
   * A score reaches 0.6 exactly when the title similarity reaches 3/7 with
   * an artist match, or 6/7 without one.
   */
  lemma AcceptanceNeeds(titleSim: real, artistMatch: bool)
    ensures CompositeScore(titleSim, artistMatch) >= AcceptThreshold <==>
      (if artistMatch then titleSim >= 3.0 / 7.0 else titleSim >= 6.0 / 7.0)
  {
  }

  /** The dict key of a candidate's title: `name` on Spotify, `songname` on QQ Music. */
  function TitleKey(p: Platform): string {
    match p
    case Spotify => "name"
    case QQMusic => "songname"
  }

  /** `candidate.get(<title key>, '')`, which must be a string to be lower-cased. */
  function ItemTitle(p: Platform, item: Json): (r: Option<string>)
    ensures r.Some? <==> item.JObj? && GetOr(item.entries, TitleKey(p), JStr("")).JStr?
  {
    if !item.JObj? then None
    else match GetOr(item.entries, TitleKey(p), JStr(""))
      case JStr(s) => Some(s)
      case _ => None
  }

  /** `[a.get('name', default) for a in elems]`: every element must be a dict. */
  function NamesOf(elems: seq<Json>, default: Json): (r: Option<seq<Json>>)
    ensures r.Some? <==> forall i :: 0 <= i < |elems| ==> elems[i].JObj?
    ensures r.Some? ==> |r.value| == |elems|
    ensures r.Some? ==> forall i :: 0 <= i < |elems| ==> r.value[i] == GetOr(elems[i].entries, "name", default)
  {
    if elems == [] then Some([])
    else if !elems[0].JObj? then None
    else match NamesOf(elems[1..], default)
      case None => None
      case Some(rest) => Some([GetOr(elems[0].entries, "name", default)] + rest)
  }

  /**
   * The artist names a candidate is scored with: Spotify iterates
   * `track.get('artists', [])`; QQ Music reads `song.get('singer', [])` and
   * uses no names when that is not a list.
   */
  function ItemArtists(p: Platform, item: Json): Option<seq<Json>>
    requires item.JObj?
  {
    match p
    case Spotify =>
      (match Iterate(GetOr(item.entries, "artists", JArr([])))
       case None => None
       case Some(elems) => NamesOf(elems, JStr("")))
    case QQMusic =>
      var singers := GetOr(item.entries, "singer", JArr([]));
      if singers.JArr? then NamesOf(singers.items, JStr("")) else Some([])
  }

  /** The score of one candidate, or `None` when computing it raises. */
  function ItemScore(sim: Ratio, p: Platform, item: Json, title: string, artists: seq<string>): Option<real> {
    match ItemTitle(p, item)
    case None => None
    case Some(t) =>
      match ItemArtists(p, item)
      case None => None
      case Some(names) =>
        match PairScan(sim, artists, names)
        case None => None
        case Some(am) => Some(CompositeScore(StrippedRatio(sim, t, title), am))
  }

  /** With a ratio in [0, 1], every candidate score lies in [0, 1]. */
  lemma ItemScoreInUnit(sim: Ratio, p: Platform, item: Json, title: string, artists: seq<string>)
    requires InUnitInterval(sim) && ItemScore(sim, p, item, title, artists).Some?
    ensures 0.0 <= ItemScore(sim, p, item, title, artists).value <= 1.0
  {
  }

  /** The outcome of scoring each candidate on its own. */
  function PerItemScores(sim: Ratio, p: Platform, items: seq<Json>, title: string, artists: seq<string>): (r: seq<Option<real>>)
    ensures |r| == |items|
  {
    seq(|items|, i requires 0 <= i < |items| => ItemScore(sim, p, items[i], title, artists))
  }

  /** All the values, in order, or `None` when one is missing: a loop that stops at the first exception. */
  function Collect(opts: seq<Option<real>>): (r: Option<seq<real>>)
    ensures r.Some? ==> |r.value| == |opts|
  {
    if opts == [] then Some([])
    else match Collect(opts[..|opts| - 1])
      case None => None
      case Some(front) =>
        match opts[|opts| - 1]
        case None => None
        case Some(s) => Some(front + [s])
  }

  /** The scores of all candidates, in order; `None` as soon as one raises. */
  function ItemScores(sim: Ratio, p: Platform, items: seq<Json>, title: string, artists: seq<string>): Option<seq<real>> {
    Collect(PerItemScores(sim, p, items, title, artists))
  }

  /** Collecting one more value extends the result, or fails. */
  lemma CollectStep(opts: seq<Option<real>>, i: nat, front: seq<real>)
    requires i < |opts| && Collect(opts[..i]) == Some(front)
    ensures Collect(opts[..i + 1]) == match opts[i] case None => None case Some(s) => Some(front + [s])
  {
    assert opts[..i + 1][..i] == opts[..i];
  }

  /** Once a prefix fails, the whole collection fails. */
  lemma {:induction false} CollectRaise(opts: seq<Option<real>>, n: nat)
    requires n <= |opts| && Collect(opts[..n]).None?
    ensures Collect(opts).None?
    decreases |opts| - n
  {
    if n < |opts| {
      assert opts[..n + 1][..n] == opts[..n];
      CollectRaise(opts, n + 1);
    } else {
      assert opts[..n] == opts;
    }
  }

  /** A successful collection holds every value at its own position. */
  lemma {:induction false} CollectAt(opts: seq<Option<real>>, k: nat)
    requires k < |opts| && Collect(opts).Some?
    ensures opts[k] == Some(Collect(opts).value[k])
    decreases |opts|
  {
    var front := opts[..|opts| - 1];
    assert Collect(front).Some? && opts[|opts| - 1].Some?;
    assert Collect(opts).value == Collect(front).value + [opts[|opts| - 1].value];
    if k < |opts| - 1 {
      CollectAt(front, k);
      assert front[k] == opts[k];
    }
  }

  /** Scores, once computed, are the per-candidate scores. */
  lemma ItemScoresAt(sim: Ratio, p: Platform, items: seq<Json>, title: string, artists: seq<string>, k: nat)
    requires k < |items| && ItemScores(sim, p, items, title, artists).Some?
    ensures ItemScore(sim, p, items[k], title, artists) == Some(ItemScores(sim, p, items, title, artists).value[k])
  {
    CollectAt(PerItemScores(sim, p, items, title, artists), k);
  }

  /** The score of one candidate, computed with the `artists_match` loop. */
  method ScoreItem(sim: Ratio, p: Platform, item: Json, title: string, artists: seq<string>) returns (r: Option<real>)
    ensures r == ItemScore(sim, p, item, title, artists)
  {
    var t := ItemTitle(p, item);
    if t.None? {
      return None;
    }
    var names := ItemArtists(p, item);
    if names.None? {
      return None;
    }
    var artistMatch := ArtistsMatch(sim, artists, names.value);
    if artistMatch.None? {
      return None;
    }
    return Some(CompositeScore(StrippedRatio(sim, t.value, title), artistMatch.value));
  }

  // ---- the running best ----

  /**
   * The running best after visiting `scores` in order, starting from no
   * candidate and score 0.0 and replacing it only on a strictly greater
   * score: the index (-1 for none) and the score.
   */
  function RunningBest(scores: seq<real>): (r: (int, real))
    ensures -1 <= r.0 < |scores|
    decreases |scores|
  {
    if scores == [] then (-1, 0.0)
    else
      var (k, b) := RunningBest(scores[..|scores| - 1]);
      if scores[|scores| - 1] > b then (|scores| - 1, scores[|scores| - 1]) else (k, b)
  }

  /** Visiting one more score replaces the running best exactly when the new score is strictly greater. */
  lemma {:induction false} RunningBestStep(scores: seq<real>, s: real)
    ensures RunningBest(scores + [s]) == if s > RunningBest(scores).1 then (|scores|, s) else RunningBest(scores)
  {
    assert (scores + [s])[..|scores|] == scores;
  }

  /**
   * The running best is the maximum: no candidate exists exactly when no
   * score is positive; otherwise it is a positive maximum score, and every
   * earlier candidate scored strictly less (the first best wins).
   */
  lemma {:induction false} RunningBestIsFirstMax(scores: seq<real>)
    ensures var (k, b) := RunningBest(scores);
      && -1 <= k < |scores|
      && (k == -1 <==> forall j :: 0 <= j < |scores| ==> scores[j] <= 0.0)
      && (k == -1 ==> b == 0.0)
      && (k >= 0 ==> b == scores[k] && b > 0.0)
      && (forall j :: 0 <= j < |scores| ==> scores[j] <= b)
      && (forall j :: 0 <= j < k ==> scores[j] < b)
    decreases |scores|
  {
    if scores != [] {
      var front := scores[..|scores| - 1];
      RunningBestIsFirstMax(front);
      assert forall j :: 0 <= j < |front| ==> front[j] == scores[j];
    }
  }

  /** The index and score of the best candidate, or `None` when scoring raises. */
  function BestOf(sim: Ratio, p: Platform, items: seq<Json>, title: string, artists: seq<string>): Option<(int, real)> {
    match ItemScores(sim, p, items, title, artists)
    case None => None
    case Some(scores) => Some(RunningBest(scores))
  }

  /** The selection loop of `find_*_match`: score each candidate and keep the running best. */
  method SelectBest(sim: Ratio, p: Platform, items: seq<Json>, title: string, artists: seq<string>)
    returns (r: Option<(int, real)>)
    ensures r == BestOf(sim, p, items, title, artists)
  {
    var bestIndex := -1;
    var bestScore := 0.0;
    ghost var opts := PerItemScores(sim, p, items, title, artists);
    ghost var scores: seq<real> := [];
    for i := 0 to |items|
      invariant Collect(opts[..i]) == Some(scores)
      invariant bestIndex == RunningBest(scores).0 && bestScore == RunningBest(scores).1
    {
      var score := ScoreItem(sim, p, items[i], title, artists);
      CollectStep(opts, i, scores);
      match score {
        case None =>
          CollectRaise(opts, i + 1);
          return None;
        case Some(s) =>
          RunningBestStep(scores, s);
          if s > bestScore {
            bestScore := s;
            bestIndex := i;
          }
          scores := scores + [s];
      }
    }
    assert opts[..|items|] == opts;
    return Some((bestIndex, bestScore));
  }

  // ---- the result record ----

  /** A successful match: `match_id`, `match_score`, `match_name`, `match_artists`. */
  datatype Match = Match(id: Json, score: real, name: Json, artists: seq<Json>)

  /**
   * What the node returns. `NoMatch` carries `match_id` None, `match_found`
   * False and `match_score` 0.0; `Unsupported` has no `success` key and the
   * error "不支持的平台: <platform>"; `ParseError` and `Failure` have
   * `success` False, the first with a "JSON 解析失败" error, the second with
   * a "匹配失败" error.
   */
  datatype Outcome =
    | Matched(m: Match)
    | NoMatch
    | Unsupported(platform: string)
    | ParseError
    | Failure
  {
    /** The `match_found` field. */
    predicate Found() { Matched? }

    /** The `success` field, absent for an unsupported platform. */
    function Success(): Option<bool> {
      match this
      case Matched(_) => Some(true)
      case NoMatch => Some(true)
      case Unsupported(_) => None
      case _ => Some(false)
    }
  }

  /** The candidates of a parsed search response, or `None` when the `.get` chain or iteration raises. */
  function Candidates(p: Platform, data: Json): Option<seq<Json>> {
    match p
    case Spotify =>
      (match Get(data, "tracks", JObj([]))
       case None => None
       case Some(tracks) =>
         match Get(tracks, "items", JArr([]))
         case None => None
         case Some(items) => Iterate(items))
    case QQMusic =>
      (match Get(data, "data", JObj([]))
       case None => None
       case Some(d) =>
         match Get(d, "song", JObj([]))
         case None => None
         case Some(song) =>
           match Get(song, "list", JArr([]))
           case None => None
           case Some(list) => Iterate(list))
  }

  /** The id of the accepted candidate: Spotify's `id`; QQ Music's `songmid`, or `id` when that is falsy. */
  function MatchId(p: Platform, entries: seq<(string, Json)>): Json {
    match p
    case Spotify => GetOr(entries, "id", JNull)
    case QQMusic =>
      var mid := GetOr(entries, "songmid", JNull);
      if Truthy(mid) then mid else GetOr(entries, "id", JNull)
  }

  /**
   * The record of the accepted candidate. Its artists are read again with
   * no default name; on QQ Music the `singer` value is iterated without the
   * list check, which raises on `None`, a number or a bool and on the
   * string elements of a dict or string.
   */
  function MatchRecord(p: Platform, item: Json, score: real): Option<Match>
    requires item.JObj?
  {
    var artists := match p
      case Spotify => GetOr(item.entries, "artists", JArr([]))
      case QQMusic => GetOr(item.entries, "singer", JArr([]));
    match Iterate(artists)
    case None => None
    case Some(elems) =>
      match NamesOf(elems, JNull)
      case None => None
      case Some(names) => Some(Match(MatchId(p, item.entries), score, GetOr(item.entries, TitleKey(p), JNull), names))
  }

  /** `find_spotify_match` / `find_qqmusic_match` on parsed data, as a value. */
  function FindOutcome(sim: Ratio, p: Platform, data: Json, title: string, artists: seq<string>): Outcome {
    match Candidates(p, data)
    case None => Failure
    case Some(items) =>
      match BestOf(sim, p, items, title, artists)
      case None => Failure
      case Some((k, b)) =>
        if k >= 0 && Truthy(items[k]) && b >= AcceptThreshold then
          ItemScoresAt(sim, p, items, title, artists, k);
          match MatchRecord(p, items[k], b)
          case None => Failure
          case Some(m) => Matched(m)
        else NoMatch
  }

  /** The shared body of `find_spotify_match` and `find_qqmusic_match`. */
  method FindBest(sim: Ratio, p: Platform, data: Json, title: string, artists: seq<string>) returns (r: Outcome)
    ensures r == FindOutcome(sim, p, data, title, artists)
  {
    var items := Candidates(p, data);
    if items.None? {
      return Failure;
    }
    var best := SelectBest(sim, p, items.value, title, artists);
    if best.None? {
      return Failure;
    }
    var (k, b) := best.value;
    if k >= 0 && Truthy(items.value[k]) && b >= AcceptThreshold {
      RunningBestIsFirstMax(ItemScores(sim, p, items.value, title, artists).value);
      ItemScoresAt(sim, p, items.value, title, artists, k);
      var m := MatchRecord(p, items.value[k], b);
      if m.None? {
        return Failure;
      }
      return Matched(m.value);
    }
    return NoMatch;
  }

  /** `find_spotify_match`. */
  method FindSpotifyMatch(sim: Ratio, data: Json, title: string, artists: seq<string>) returns (r: Outcome)
    ensures r == FindOutcome(sim, Spotify, data, title, artists)
  {
    r := FindBest(sim, Spotify, data, title, artists);
  }

  /** `find_qqmusic_match`. */
  method FindQQMusicMatch(sim: Ratio, data: Json, title: string, artists: seq<string>) returns (r: Outcome)
    ensures r == FindOutcome(sim, QQMusic, data, title, artists)
  {
    r := FindBest(sim, QQMusic, data, title, artists);
  }

  /**
   * An accepted match is the first candidate with the maximum score, that
   * score is at least 0.6, and the id is the platform's id of that candidate.
   */
  lemma MatchedIsFirstBest(sim: Ratio, p: Platform, data: Json, title: string, artists: seq<string>)
    requires FindOutcome(sim, p, data, title, artists).Matched?
    ensures Candidates(p, data).Some?
    ensures var items := Candidates(p, data).value;
      var scores := ItemScores(sim, p, items, title, artists);
      var m := FindOutcome(sim, p, data, title, artists).m;
      && scores.Some?
      && exists k :: 0 <= k < |items| && items[k].JObj? && Truthy(items[k])
           && m.score == scores.value[k] && m.score >= AcceptThreshold
           && m.id == MatchId(p, items[k].entries)
           && (forall j :: 0 <= j < |items| ==> scores.value[j] <= m.score)
           && (forall j :: 0 <= j < k ==> scores.value[j] < m.score)
  {
    var items := Candidates(p, data).value;
    var scores := ItemScores(sim, p, items, title, artists).value;
    RunningBestIsFirstMax(scores);
    var (k, b) := RunningBest(scores);
    ItemScoresAt(sim, p, items, title, artists, k);
  }

  /** When every candidate scores below 0.6, nothing is accepted. */
  lemma LowScoresNoMatch(sim: Ratio, p: Platform, data: Json, title: string, artists: seq<string>)
    requires Candidates(p, data).Some?
    requires var scores := ItemScores(sim, p, Candidates(p, data).value, title, artists);
      scores.Some? && forall j :: 0 <= j < |scores.value| ==> scores.value[j] < AcceptThreshold
    ensures FindOutcome(sim, p, data, title, artists) == NoMatch
  {
    var items := Candidates(p, data).value;
    var scores := ItemScores(sim, p, items, title, artists).value;
    RunningBestIsFirstMax(scores);
  }

  // ---- main ----

  /**
   * `main`: parse the search results, then dispatch on the platform name
   * (compared lower-cased); a successful search gets `success` True.
   */
  method MatchSearchResults(sim: Ratio, parse: Parser, searchResults: string, title: string, artists: seq<string>,
                            platform: string)
    returns (r: Outcome)
    ensures parse(searchResults).None? ==> r == ParseError
    ensures parse(searchResults).Some? && Lower(platform) == "spotify" ==>
      r == FindOutcome(sim, Spotify, parse(searchResults).value, title, artists)
    ensures parse(searchResults).Some? && Lower(platform) == "qqmusic" ==>
      r == FindOutcome(sim, QQMusic, parse(searchResults).value, title, artists)
    ensures parse(searchResults).Some? && Lower(platform) != "spotify" && Lower(platform) != "qqmusic" ==>
      r == Unsupported(platform)
  {
    var data := parse(searchResults);
    if data.None? {
      return ParseError;
    }
    if Lower(platform) == "spotify" {
      r := FindSpotifyMatch(sim, data.value, title, artists);
    } else if Lower(platform) == "qqmusic" {
      r := FindQQMusicMatch(sim, data.value, title, artists);
    } else {
      return Unsupported(platform);
    }
  }

  /**
   * Platform names are matched without regard to ASCII case: a name is
   * dispatched to a platform exactly when it spells that platform's name
   * letter by letter in either case.
   */
  lemma PlatformCaseInsensitive(platform: string)
    ensures Lower(platform) == "spotify" <==>
      |platform| == 7 && forall i :: 0 <= i < 7 ==> LowerChar(platform[i]) == "spotify"[i]
    ensures Lower(platform) == "qqmusic" <==>
      |platform| == 7 && forall i :: 0 <= i < 7 ==> LowerChar(platform[i]) == "qqmusic"[i]
  {
  }
}
