/**
 * `compare_field` of consolidate.py: check one NetEase value against the
 * Spotify and QQ Music values and decide a verification status.
 *
 * `FieldSpec` states the decision as a table. `CompareField` builds the
 * report in the order the node does, mutating a status, a note and the
 * sources as it goes, and is proved to produce the table's report.
 */
module FieldCheck {
  import opened Wrappers
  import opened Json
  import opened Similarity
  import opened Platforms

  /** The three verification statuses: 确认, 存疑 and 未查到. */
  datatype Status = Confirmed | Questionable | NotFound
  {
    function Label(): string {
      match this
      case Confirmed => "确认"
      case Questionable => "存疑"
      case NotFound => "未查到"
    }
  }

  /**
   * The `note` of a report. The percentages and the overlap lists are
   * carried as values; their rendering into the note text is not modelled.
   */
  datatype Note =
    | NearMatch(source: Platform, ratio: real)           // 与 … 数据相似但有差异
    | Inconsistent                                       // 多个数据源结果不一致
    | PartialMatch(source: Platform, overlap: set<Json>) // 与 … 数据部分匹配
    | NoSources                                          // 所有核验源均未找到该字段
    | NoPrimaryLyrics                                    // 网易云无歌词
    | LyricsNear(source: Platform, similarity: real)     // 与 … 歌词相似但有差异
    | NoOtherLyrics                                      // 其他平台均无歌词数据
    | NoPrimaryDuration                                  // 网易云未提供时长
    | DurationOff                                        // 时长差异超过 2 秒
    | NoOtherDuration                                    // 其他平台均未提供时长

  /**
   * The dict `compare_field` returns: `value`, `status`, `sources` (in
   * insertion order), and the optional `note` and `confirmed_by` keys.
   */
  datatype FieldReport = FieldReport(
    value: Json,
    status: Status,
    sources: seq<(string, Json)>,
    note: Option<Note>,
    confirmedBy: Option<seq<Platform>>)

  /** The `field_type` argument: "string" or "list". */
  datatype FieldKind = StringField | ListField

  /** Python's `str(value)`, kept abstract. */
  type Show = Json -> string

  /** `str(s) == s` for every string `s`, as in Python. */
  ghost predicate ShowsStrings(show: Show) {
    forall s :: show(JStr(s)) == s
  }

  /** The two thresholds: a match and a near-match. */
  const MatchThreshold: real := 0.95
  const NearThreshold: real := 0.8

  // ---- the string variant ----

  function StringRatio(sim: Ratio, show: Show, primary: Json, other: Json): real {
    GuardedRatio(sim, show(primary), show(other))
  }

  /** A present secondary value whose ratio reaches 0.95. */
  predicate StrMatch(sim: Ratio, show: Show, primary: Json, other: Json) {
    Truthy(other) && StringRatio(sim, show, primary, other) >= MatchThreshold
  }

  /** A present secondary value whose ratio lies in [0.8, 0.95). */
  predicate StrNear(sim: Ratio, show: Show, primary: Json, other: Json) {
    Truthy(other) && NearThreshold <= StringRatio(sim, show, primary, other) < MatchThreshold
  }

  // ---- the list variant ----

  /** A non-list primary value is compared as a one-element list. */
  function AsList(primary: Json): seq<Json> {
    if primary.JArr? then primary.items else [primary]
  }

  /** Values Python can put in a `set`: lists and dicts are unhashable. */
  predicate Hashable(j: Json) {
    !j.JArr? && !j.JObj?
  }

  predicate AllHashable(xs: seq<Json>) {
    forall i :: 0 <= i < |xs| ==> Hashable(xs[i])
  }

  /** A secondary value the list variant looks at: a present list. */
  predicate Listed(other: Json) {
    Truthy(other) && other.JArr?
  }

  /** `set(xs) <= set(ys)`, that is, the overlap is all of `set(xs)`. */
  predicate Covers(xs: seq<Json>, ys: seq<Json>) {
    forall x :: x in xs ==> x in ys
  }

  /** `set(xs)`. */
  function Elements(xs: seq<Json>): (r: set<Json>)
    ensures forall x :: x in r <==> x in xs
  {
    set x | x in xs
  }

  /** `set(xs) & set(ys)`. */
  function Overlap(xs: seq<Json>, ys: seq<Json>): (r: set<Json>)
    ensures forall x :: x in r <==> x in xs && x in ys
  {
    set x | x in xs && x in ys
  }

  /** Building the two sets raises `TypeError` on an unhashable element. */
  predicate ListRaises(primary: Json, other: Json) {
    Listed(other) && !(AllHashable(AsList(primary)) && AllHashable(other.items))
  }

  predicate ListMatch(primary: Json, other: Json) {
    Listed(other) && Covers(AsList(primary), other.items)
  }

  predicate ListPartial(primary: Json, other: Json) {
    Listed(other) && !Covers(AsList(primary), other.items) && Overlap(AsList(primary), other.items) != {}
  }

  // ---- the decision table ----

  /** The `sources` entry a source contributes, if any. */
  function SourceEntry(p: Platform, value: Json, recorded: bool): seq<(string, Json)> {
    if recorded then [(p.Key(), value)] else []
  }

  /** The `confirmed_by` list: the matching sources, Spotify first. */
  function ConfirmedBy(spotifyMatch: bool, qqMatch: bool): seq<Platform> {
    (if spotifyMatch then [Spotify] else []) + (if qqMatch then [QQMusic] else [])
  }

  /**
   * The final status once the per-source facts are known: no secondary
   * value at all overrides everything; a match confirms; a near-match or
   * partial note, or (string variant only) two disagreeing values, make the
   * field questionable; otherwise it stays not found.
   */
  function Settle(primary: Json, spotify: Json, qqmusic: Json, sources: seq<(string, Json)>, note: Option<Note>,
                  spotifyMatch: bool, qqMatch: bool, disagreeing: bool): FieldReport
  {
    if !Truthy(spotify) && !Truthy(qqmusic) then FieldReport(primary, NotFound, sources, Some(NoSources), None)
    else if spotifyMatch || qqMatch then FieldReport(primary, Confirmed, sources, note, Some(ConfirmedBy(spotifyMatch, qqMatch)))
    else if note.Some? then FieldReport(primary, Questionable, sources, note, None)
    else if disagreeing then FieldReport(primary, Questionable, sources, Some(Inconsistent), None)
    else FieldReport(primary, NotFound, sources, None, None)
  }

  /** The string variant on a present NetEase value. */
  function StringSpec(sim: Ratio, show: Show, primary: Json, spotify: Json, qqmusic: Json): FieldReport {
    var note :=
      if StrNear(sim, show, primary, spotify) then Some(NearMatch(Spotify, StringRatio(sim, show, primary, spotify)))
      else if StrNear(sim, show, primary, qqmusic) then Some(NearMatch(QQMusic, StringRatio(sim, show, primary, qqmusic)))
      else None;
    var sources := SourceEntry(Spotify, spotify, Truthy(spotify)) + SourceEntry(QQMusic, qqmusic, Truthy(qqmusic));
    Settle(primary, spotify, qqmusic, sources, note, StrMatch(sim, show, primary, spotify), StrMatch(sim, show, primary, qqmusic),
           Truthy(spotify) && Truthy(qqmusic))
  }

  /** The list variant on a present NetEase value, or `None` when it raises. */
  function ListSpec(primary: Json, spotify: Json, qqmusic: Json): Option<FieldReport> {
    if ListRaises(primary, spotify) || ListRaises(primary, qqmusic) then None
    else
      var xs := AsList(primary);
      var note :=
        if ListPartial(primary, spotify) then Some(PartialMatch(Spotify, Overlap(xs, spotify.items)))
        else if ListPartial(primary, qqmusic) then Some(PartialMatch(QQMusic, Overlap(xs, qqmusic.items)))
        else None;
      var sources := SourceEntry(Spotify, spotify, Listed(spotify)) + SourceEntry(QQMusic, qqmusic, Listed(qqmusic));
      Some(Settle(primary, spotify, qqmusic, sources, note, ListMatch(primary, spotify), ListMatch(primary, qqmusic), false))
  }

  /** The report of `compare_field`, or `None` when it raises. */
  function FieldSpec(sim: Ratio, show: Show, kind: FieldKind, primary: Json, spotify: Json, qqmusic: Json): Option<FieldReport> {
    if !Truthy(primary) then Some(FieldReport(primary, NotFound, [], None, None))
    else match kind
      case StringField => Some(StringSpec(sim, show, primary, spotify, qqmusic))
      case ListField => ListSpec(primary, spotify, qqmusic)
  }

  // ---- the node's own procedure ----

  /** `set(xs) & set(ys)`, raising on an unhashable element. */
  method SetOverlap(xs: seq<Json>, ys: seq<Json>) returns (r: Option<set<Json>>)
    ensures r.None? <==> !(AllHashable(xs) && AllHashable(ys))
    ensures r.Some? ==> r.value == Overlap(xs, ys)
  {
    for i := 0 to |xs|
      invariant AllHashable(xs[..i])
    {
      if !Hashable(xs[i]) {
        assert !AllHashable(xs) by { assert !Hashable(xs[i]); }
        return None;
      }
    }
    assert xs[..|xs|] == xs;
    for j := 0 to |ys|
      invariant AllHashable(ys[..j])
    {
      if !Hashable(ys[j]) {
        assert !AllHashable(ys) by { assert !Hashable(ys[j]); }
        return None;
      }
    }
    assert ys[..|ys|] == ys;
    return Some(Overlap(xs, ys));
  }

  /**
   * One source of the string variant: record a present value under the
   * source's key, then set the match flag at 0.95 or, unless a note is
   * already set, a near-match note at 0.8.
   */
  method StringSource(sim: Ratio, show: Show, primary: Json, value: Json, p: Platform,
                      status: Status, note: Option<Note>, sources: seq<(string, Json)>)
    returns (matched: bool, status': Status, note': Option<Note>, sources': seq<(string, Json)>)
    ensures matched == StrMatch(sim, show, primary, value)
    ensures sources' == sources + SourceEntry(p, value, Truthy(value))
    ensures StrNear(sim, show, primary, value) && status != Questionable ==>
      status' == Questionable && note' == Some(NearMatch(p, StringRatio(sim, show, primary, value)))
    ensures !(StrNear(sim, show, primary, value) && status != Questionable) ==> status' == status && note' == note
  {
    matched, status', note', sources' := false, status, note, sources;
    if Truthy(value) {
      sources' := sources + [(p.Key(), value)];
      var ratio := GuardedRatio(sim, show(primary), show(value));
      if ratio >= MatchThreshold {
        matched := true;
      } else if ratio >= NearThreshold && status != Questionable {
        status' := Questionable;
        note' := Some(NearMatch(p, ratio));
      }
    }
  }

  /**
   * One source of the list variant: a present list is recorded, then the
   * overlap with the NetEase elements decides a match or, unless a note is
   * already set, a partial-match note; `None` when building the sets raises.
   */
  method ListSource(primary: Json, value: Json, p: Platform, status: Status, note: Option<Note>, sources: seq<(string, Json)>)
    returns (r: Option<(bool, Status, Option<Note>, seq<(string, Json)>)>)
    ensures r.None? <==> ListRaises(primary, value)
    ensures r.Some? ==> r.value.0 == ListMatch(primary, value)
    ensures r.Some? ==> r.value.3 == sources + SourceEntry(p, value, Listed(value))
    ensures r.Some? && ListPartial(primary, value) && status != Questionable ==>
      r.value.1 == Questionable && r.value.2 == Some(PartialMatch(p, Overlap(AsList(primary), value.items)))
    ensures r.Some? && !(ListPartial(primary, value) && status != Questionable) ==> r.value.1 == status && r.value.2 == note
  {
    if !(Truthy(value) && value.JArr?) {
      return Some((false, status, note, sources));
    }
    var xs := AsList(primary);
    var overlap := SetOverlap(xs, value.items);
    OverlapIsAllIffCovers(xs, value);
    match overlap {
      case None => return None;
      case Some(o) =>
        if o == Elements(xs) {
          return Some((true, status, note, sources + [(p.Key(), value)]));
        } else if o != {} && status != Questionable {
          return Some((false, Questionable, Some(PartialMatch(p, o)), sources + [(p.Key(), value)]));
        }
        return Some((false, status, note, sources + [(p.Key(), value)]));
    }
  }

  /** The `confirmed_by` list, appended to source by source. */
  method ConfirmingSources(spotifyMatch: bool, qqMatch: bool) returns (names: seq<Platform>)
    ensures names == ConfirmedBy(spotifyMatch, qqMatch)
  {
    names := [];
    if spotifyMatch {
      names := names + [Spotify];
    }
    if qqMatch {
      names := names + [QQMusic];
    }
  }

  /** The string variant of `compare_field` after the falsy-value check. */
  method CompareStrings(sim: Ratio, show: Show, primary: Json, spotify: Json, qqmusic: Json) returns (r: FieldReport)
    ensures r == StringSpec(sim, show, primary, spotify, qqmusic)
  {
    var status, note, sources, confirmedBy := NotFound, None, [], None;
    var spotifyMatch, qqMatch;
    spotifyMatch, status, note, sources := StringSource(sim, show, primary, spotify, Spotify, status, note, sources);
    qqMatch, status, note, sources := StringSource(sim, show, primary, qqmusic, QQMusic, status, note, sources);
    assert sources == SourceEntry(Spotify, spotify, Truthy(spotify)) + SourceEntry(QQMusic, qqmusic, Truthy(qqmusic));
    if spotifyMatch || qqMatch {
      status := Confirmed;
      var names := ConfirmingSources(spotifyMatch, qqMatch);
      confirmedBy := Some(names);
    } else if Truthy(spotify) && Truthy(qqmusic) && status != Questionable {
      status := Questionable;
      note := Some(Inconsistent);
    }
    if !Truthy(spotify) && !Truthy(qqmusic) {
      status := NotFound;
      note := Some(NoSources);
    }
    return FieldReport(primary, status, sources, note, confirmedBy);
  }

  /** The list variant of `compare_field` after the falsy-value check. */
  method CompareLists(primary: Json, spotify: Json, qqmusic: Json) returns (r: Option<FieldReport>)
    ensures r == ListSpec(primary, spotify, qqmusic)
  {
    var status, note, sources, confirmedBy := NotFound, None, [], None;
    var spotifyMatch, qqMatch;
    var first := ListSource(primary, spotify, Spotify, status, note, sources);
    match first {
      case None => return None;
      case Some((m, st, n, src)) => spotifyMatch, status, note, sources := m, st, n, src;
    }
    var second := ListSource(primary, qqmusic, QQMusic, status, note, sources);
    match second {
      case None => return None;
      case Some((m, st, n, src)) => qqMatch, status, note, sources := m, st, n, src;
    }
    assert sources == SourceEntry(Spotify, spotify, Listed(spotify)) + SourceEntry(QQMusic, qqmusic, Listed(qqmusic));
    if spotifyMatch || qqMatch {
      status := Confirmed;
      var names := ConfirmingSources(spotifyMatch, qqMatch);
      confirmedBy := Some(names);
    }
    if !Truthy(spotify) && !Truthy(qqmusic) {
      status := NotFound;
      note := Some(NoSources);
    }
    return Some(FieldReport(primary, status, sources, note, confirmedBy));
  }

  /**
   * `compare_field`, step by step: start from 未查到, let each present
   * source set its match flag or a note (the first note wins), confirm on
   * any match or (string variant) flag a disagreement, and finally force
   * 未查到 when neither source has a value.
   */
  method CompareField(sim: Ratio, show: Show, kind: FieldKind, primary: Json, spotify: Json, qqmusic: Json)
    returns (r: Option<FieldReport>)
    ensures r == FieldSpec(sim, show, kind, primary, spotify, qqmusic)
  {
    if !Truthy(primary) {
      return Some(FieldReport(primary, NotFound, [], None, None));
    }
    match kind {
      case StringField =>
        var report := CompareStrings(sim, show, primary, spotify, qqmusic);
        return Some(report);
      case ListField =>
        r := CompareLists(primary, spotify, qqmusic);
    }
  }

  /** `overlap == set(xs)` exactly when every element of `xs` occurs in the other list. */
  lemma OverlapIsAllIffCovers(xs: seq<Json>, other: Json)
    ensures other.JArr? ==> (Overlap(xs, other.items) == Elements(xs) <==> Covers(xs, other.items))
  {
    if other.JArr? && Overlap(xs, other.items) == Elements(xs) {
      forall x | x in xs ensures x in other.items {
        assert x in Elements(xs);
      }
    }
  }

  // ---- what the table promises ----

  /** A falsy NetEase value is reported as not found, with no sources and no comparison. */
  lemma FalsyPrimaryNotFound(sim: Ratio, show: Show, kind: FieldKind, primary: Json, spotify: Json, qqmusic: Json)
    requires !Truthy(primary)
    ensures FieldSpec(sim, show, kind, primary, spotify, qqmusic) == Some(FieldReport(primary, NotFound, [], None, None))
  {
  }

  /** With a NetEase value but no secondary value, the field is not found and says so, whatever the variant. */
  lemma NoSecondaryNotFound(sim: Ratio, show: Show, kind: FieldKind, primary: Json, spotify: Json, qqmusic: Json)
    requires Truthy(primary) && !Truthy(spotify) && !Truthy(qqmusic)
    ensures var r := FieldSpec(sim, show, kind, primary, spotify, qqmusic);
      r.Some? && r.value.status == NotFound && r.value.note == Some(NoSources) && r.value.sources == []
  {
    match kind {
      case StringField => NoSecondaryString(sim, show, primary, spotify, qqmusic);
      case ListField => NoSecondaryList(primary, spotify, qqmusic);
    }
  }

  lemma NoSecondaryString(sim: Ratio, show: Show, primary: Json, spotify: Json, qqmusic: Json)
    requires !Truthy(spotify) && !Truthy(qqmusic)
    ensures StringSpec(sim, show, primary, spotify, qqmusic) == FieldReport(primary, NotFound, [], Some(NoSources), None)
  {
    assert SourceEntry(Spotify, spotify, Truthy(spotify)) + SourceEntry(QQMusic, qqmusic, Truthy(qqmusic)) == [];
  }

  lemma NoSecondaryList(primary: Json, spotify: Json, qqmusic: Json)
    requires !Truthy(spotify) && !Truthy(qqmusic)
    ensures ListSpec(primary, spotify, qqmusic) == Some(FieldReport(primary, NotFound, [], Some(NoSources), None))
  {
    assert !ListRaises(primary, spotify) && !ListRaises(primary, qqmusic);
    assert SourceEntry(Spotify, spotify, Listed(spotify)) + SourceEntry(QQMusic, qqmusic, Listed(qqmusic)) == [];
  }

  /**
   * The string variant: confirmed exactly when some source reaches 0.95,
   * with `confirmed_by` in Spotify-then-QQ order; questionable exactly when
   * none does but some source is near or both are present; not found
   * otherwise.
   */
  lemma StringFieldStatus(sim: Ratio, show: Show, primary: Json, spotify: Json, qqmusic: Json)
    requires Truthy(primary)
    ensures var r := FieldSpec(sim, show, StringField, primary, spotify, qqmusic);
      var sm := StrMatch(sim, show, primary, spotify);
      var qm := StrMatch(sim, show, primary, qqmusic);
      var near := StrNear(sim, show, primary, spotify) || StrNear(sim, show, primary, qqmusic);
      && r.Some?
      && (r.value.status == Confirmed <==> sm || qm)
      && (r.value.status == Confirmed ==> r.value.confirmedBy == Some(ConfirmedBy(sm, qm)))
      && (r.value.status == Questionable <==> !sm && !qm && (near || (Truthy(spotify) && Truthy(qqmusic))))
  {
  }

  /** A QQ Music near-match never replaces the note of a Spotify near-match. */
  lemma SpotifyNoteWins(sim: Ratio, show: Show, primary: Json, spotify: Json, qqmusic: Json)
    requires Truthy(primary) && StrNear(sim, show, primary, spotify)
    ensures FieldSpec(sim, show, StringField, primary, spotify, qqmusic).value.note ==
      Some(NearMatch(Spotify, StringRatio(sim, show, primary, spotify)))
  {
  }

  /** Two present values that are both below 0.8 disagree. */
  lemma BothLowInconsistent(sim: Ratio, show: Show, primary: Json, spotify: Json, qqmusic: Json)
    requires Truthy(primary) && Truthy(spotify) && Truthy(qqmusic)
    requires StringRatio(sim, show, primary, spotify) < NearThreshold
    requires StringRatio(sim, show, primary, qqmusic) < NearThreshold
    ensures var r := FieldSpec(sim, show, StringField, primary, spotify, qqmusic).value;
      r.status == Questionable && r.note == Some(Inconsistent)
  {
  }

  /** One present value below 0.8 leaves the field not found, with no note. */
  lemma SingleLowNotFound(sim: Ratio, show: Show, primary: Json, spotify: Json, qqmusic: Json)
    requires Truthy(primary) && (Truthy(spotify) != Truthy(qqmusic))
    requires Truthy(spotify) ==> StringRatio(sim, show, primary, spotify) < NearThreshold
    requires Truthy(qqmusic) ==> StringRatio(sim, show, primary, qqmusic) < NearThreshold
    ensures var r := FieldSpec(sim, show, StringField, primary, spotify, qqmusic).value;
      r.status == NotFound && r.note == None
  {
  }

  /**
   * A present secondary value equal to a NetEase value with a non-empty
   * rendering confirms the field, when identical strings have ratio 1.
   */
  lemma IdenticalStringConfirms(sim: Ratio, show: Show, primary: Json, qqmusic: Json)
    requires SelfSimilar(sim) && Truthy(primary) && show(primary) != []
    ensures var r := FieldSpec(sim, show, StringField, primary, primary, qqmusic).value;
      r.status == Confirmed && r.confirmedBy.value[0] == Spotify
  {
    GuardedRatioSelf(sim, show(primary));
  }

  /** A non-empty NetEase string repeated by Spotify confirms the field, when `str` is the identity on strings. */
  lemma IdenticalTextConfirms(sim: Ratio, show: Show, text: string, qqmusic: Json)
    requires SelfSimilar(sim) && ShowsStrings(show) && text != []
    ensures var r := FieldSpec(sim, show, StringField, JStr(text), JStr(text), qqmusic).value;
      r.status == Confirmed && r.confirmedBy.value[0] == Spotify
  {
    assert show(JStr(text)) == text;
    IdenticalStringConfirms(sim, show, JStr(text), qqmusic);
  }

  /**
   * The list variant raises only on unhashable elements; otherwise it is
   * confirmed exactly when some present list contains every NetEase element,
   * questionable exactly when none does but one overlaps, and a disjoint or
   * non-list value changes nothing (there is no disagreement rule).
   */
  lemma ListFieldStatus(primary: Json, spotify: Json, qqmusic: Json, sim: Ratio, show: Show)
    requires Truthy(primary)
    ensures var r := FieldSpec(sim, show, ListField, primary, spotify, qqmusic);
      var sm := ListMatch(primary, spotify);
      var qm := ListMatch(primary, qqmusic);
      var partial := ListPartial(primary, spotify) || ListPartial(primary, qqmusic);
      && (r.None? <==> ListRaises(primary, spotify) || ListRaises(primary, qqmusic))
      && (r.Some? ==> (r.value.status == Confirmed <==> sm || qm))
      && (r.Some? && r.value.status == Confirmed ==> r.value.confirmedBy == Some(ConfirmedBy(sm, qm)))
      && (r.Some? ==> (r.value.status == Questionable <==> !sm && !qm && partial))
  {
  }

  /** The first partial overlap writes the note: a QQ Music overlap never replaces Spotify's. */
  lemma ListSpotifyNoteWins(sim: Ratio, show: Show, primary: Json, spotify: Json, qqmusic: Json)
    requires Truthy(primary) && ListPartial(primary, spotify)
    requires FieldSpec(sim, show, ListField, primary, spotify, qqmusic).Some?
    ensures FieldSpec(sim, show, ListField, primary, spotify, qqmusic).value.note ==
      Some(PartialMatch(Spotify, Overlap(AsList(primary), spotify.items)))
  {
  }

  /** A present list holding every NetEase element confirms, extra elements notwithstanding. */
  lemma SupersetConfirms(sim: Ratio, show: Show, primary: Json, extra: seq<Json>, qqmusic: Json)
    requires primary.JArr? && primary.items != [] && AllHashable(primary.items + extra)
    requires !ListRaises(primary, qqmusic)
    ensures var r := FieldSpec(sim, show, ListField, primary, JArr(primary.items + extra), qqmusic);
      r.Some? && r.value.status == Confirmed && r.value.confirmedBy.value[0] == Spotify
  {
    var ys := primary.items + extra;
    assert Covers(primary.items, ys) by {
      forall x | x in primary.items ensures x in ys {
        var i :| 0 <= i < |primary.items| && primary.items[i] == x;
        assert ys[i] == x;
      }
    }
    assert AllHashable(primary.items) by {
      forall i | 0 <= i < |primary.items| ensures Hashable(primary.items[i]) {
        assert ys[i] == primary.items[i];
      }
    }
    assert Truthy(JArr(ys)) by { assert ys[0] == primary.items[0]; }
  }
}
