/**
 * `compare_duration` of consolidate.py: compare the NetEase duration in
 * milliseconds with the Spotify and QQ Music durations, allowing a
 * difference of up to 2 seconds either way.
 *
 * The durations arrive as parsed JSON values. Python's `//`, `%` and the
 * `:02d` format accept integers (and booleans, which are integers in
 * Python); any other present value, a float included, makes the node
 * raise, modelled as `None`.
 */
module Duration {
  import opened Wrappers
  import opened Json
  import opened Strings
  import opened Platforms
  import opened FieldCheck

  /** The tolerance: 2 seconds. */
  const Tolerance: int := 2000

  /**
   * An integer value, with `True` and `False` as 1 and 0; `None` for any
   * other value, a float included: the `:02d` format refuses floats.
   */
  function AsInt(j: Json): Option<int> {
    match j
    case JBool(b) => Some(if b then 1 else 0)
    case JInt(i) => Some(i)
    case _ => None
  }

  /** A present value that is not an integer makes the arithmetic or the formatting raise. */
  predicate DurationRaises(j: Json) {
    Truthy(j) && AsInt(j).None?
  }

  function Abs(x: int): nat {
    if x < 0 then -x else x
  }

  /** `f"{ms // 60000}:{(ms % 60000) // 1000:02d}"`; for a positive divisor Python's floor division agrees with Dafny's. */
  function Format(ms: int): string {
    IntToString(ms / 60000) + ":" + Pad2((ms % 60000) / 1000)
  }

  /** `f"差异 {diff // 1000} 秒"`. */
  function DiffText(diff: nat): string {
    "差异 " + NatToString(diff / 1000) + " 秒"
  }

  /** The duration of a source, or `None` when it has none. */
  function Millis(v: Json): Option<int> {
    if Truthy(v) then AsInt(v) else None
  }

  /** A present duration at most 2 seconds away from `n`; the bound is inclusive. */
  predicate Within(n: int, m: Option<int>) {
    m.Some? && Abs(n - m.value) <= Tolerance
  }

  /** The `sources` entries of one source: its formatted duration and, when it is off, the difference. */
  function DurationEntries(p: Platform, n: int, m: Option<int>): seq<(string, string)> {
    match m
    case None => []
    case Some(x) =>
      [(p.Key(), Format(x))] + (if Abs(n - x) <= Tolerance then [] else [(p.Key() + "_diff", DiffText(Abs(n - x)))])
  }

  /** The dict `compare_duration` returns. */
  datatype DurationReport = DurationReport(
    value: Json,
    formatted: string,
    status: Status,
    sources: seq<(string, string)>,
    note: Option<Note>,
    confirmedBy: Option<seq<Platform>>)

  /** The report for a present NetEase duration `n` once the two sources' durations are known. */
  function DurationOutcome(netease: Json, n: int, ms: Option<int>, mq: Option<int>): DurationReport {
    var sm, qm := Within(n, ms), Within(n, mq);
    var sources := DurationEntries(Spotify, n, ms) + DurationEntries(QQMusic, n, mq);
    if sm || qm then DurationReport(netease, Format(n), Confirmed, sources, None, Some(ConfirmedBy(sm, qm)))
    else if ms.Some? || mq.Some? then DurationReport(netease, Format(n), Questionable, sources, Some(DurationOff), None)
    else DurationReport(netease, Format(n), NotFound, sources, Some(NoOtherDuration), None)
  }

  /** The report of `compare_duration`, or `None` when it raises. */
  function DurationSpec(netease: Json, spotify: Json, qqmusic: Json): Option<DurationReport> {
    if !Truthy(netease) then Some(DurationReport(netease, "0:00", NotFound, [], Some(NoPrimaryDuration), None))
    else match AsInt(netease)
      case None => None
      case Some(n) =>
        if DurationRaises(spotify) || DurationRaises(qqmusic) then None
        else Some(DurationOutcome(netease, n, Millis(spotify), Millis(qqmusic)))
  }

  /**
   * One source of `compare_duration`: a present duration is recorded
   * formatted, then either added to the matches or recorded with its
   * difference. `ok` is false when the value raises.
   */
  method DurationSource(n: int, v: Json, p: Platform, sources: seq<(string, string)>, matches: seq<Platform>)
    returns (ok: bool, sources': seq<(string, string)>, matches': seq<Platform>)
    ensures ok <==> !DurationRaises(v)
    ensures ok ==> sources' == sources + DurationEntries(p, n, Millis(v)) &&
                   matches' == matches + (if Within(n, Millis(v)) then [p] else [])
  {
    ok, sources', matches' := true, sources, matches;
    if Truthy(v) {
      match AsInt(v) {
        case None =>
          ok := false;
        case Some(x) =>
          sources' := sources' + [(p.Key(), Format(x))];
          var diff := Abs(n - x);
          if diff <= Tolerance {
            matches' := matches + [p];
          } else {
            sources' := sources' + [(p.Key() + "_diff", DiffText(diff))];
          }
      }
    }
  }

  /** The sources and matches gathered from both sources, given their durations. */
  predicate Gathered(n: int, sources: seq<(string, string)>, matches: seq<Platform>, ms: Option<int>, mq: Option<int>) {
    && matches == ConfirmedBy(Within(n, ms), Within(n, mq))
    && sources == DurationEntries(Spotify, n, ms) + DurationEntries(QQMusic, n, mq)
  }

  /** Gathering from the empty state, Spotify then QQ Music. */
  lemma GatherBoth(n: int, ms: Option<int>, mq: Option<int>)
    ensures Gathered(n, [] + DurationEntries(Spotify, n, ms) + DurationEntries(QQMusic, n, mq),
                     [] + (if Within(n, ms) then [Spotify] else []) + (if Within(n, mq) then [QQMusic] else []), ms, mq)
  {
    assert [] + DurationEntries(Spotify, n, ms) == DurationEntries(Spotify, n, ms);
    assert [] + (if Within(n, ms) then [Spotify] else []) == (if Within(n, ms) then [Spotify] else []);
  }

  /** The report when every value is usable. */
  lemma DurationSpecOutcome(netease: Json, spotify: Json, qqmusic: Json, n: int)
    requires Truthy(netease) && AsInt(netease) == Some(n) && !DurationRaises(spotify) && !DurationRaises(qqmusic)
    ensures DurationSpec(netease, spotify, qqmusic) == Some(DurationOutcome(netease, n, Millis(spotify), Millis(qqmusic)))
  {
  }

  /** The end of `compare_duration`: confirm on a match, else 存疑 when some source has a duration, else 未查到. */
  method SettleDuration(netease: Json, n: int, sources: seq<(string, string)>, matches: seq<Platform>,
                        spotifyPresent: bool, qqPresent: bool, ghost ms: Option<int>, ghost mq: Option<int>)
    returns (r: DurationReport)
    requires spotifyPresent == ms.Some? && qqPresent == mq.Some? && Gathered(n, sources, matches, ms, mq)
    ensures r == DurationOutcome(netease, n, ms, mq)
  {
    if matches != [] {
      r := DurationReport(netease, Format(n), Confirmed, sources, None, Some(matches));
    } else if spotifyPresent || qqPresent {
      r := DurationReport(netease, Format(n), Questionable, sources, Some(DurationOff), None);
    } else {
      r := DurationReport(netease, Format(n), NotFound, sources, Some(NoOtherDuration), None);
    }
  }

  /**
   * `compare_duration`, step by step: format the NetEase duration, stop
   * with 未查到 when it is missing, compare Spotify then QQ Music, then
   * settle the status.
   */
  method CompareDuration(netease: Json, spotify: Json, qqmusic: Json) returns (r: Option<DurationReport>)
    ensures r == DurationSpec(netease, spotify, qqmusic)
  {
    if !Truthy(netease) {
      return Some(DurationReport(netease, "0:00", NotFound, [], Some(NoPrimaryDuration), None));
    }
    r := None;
    match AsInt(netease) {
      case None =>
      case Some(n) =>
        var ok1, sources, matches := DurationSource(n, spotify, Spotify, [], []);
        if ok1 {
          var ok2;
          ok2, sources, matches := DurationSource(n, qqmusic, QQMusic, sources, matches);
          if ok2 {
            GatherBoth(n, Millis(spotify), Millis(qqmusic));
            var report := SettleDuration(netease, n, sources, matches, Truthy(spotify), Truthy(qqmusic),
                                         Millis(spotify), Millis(qqmusic));
            DurationSpecOutcome(netease, spotify, qqmusic, n);
            r := Some(report);
          }
        }
    }
  }

  // ---- what the report promises ----

  /** Without a NetEase duration the field is not found, formatted as `0:00`, with nothing compared. */
  lemma NoPrimaryDurationNotFound(netease: Json, spotify: Json, qqmusic: Json)
    requires !Truthy(netease)
    ensures DurationSpec(netease, spotify, qqmusic) ==
      Some(DurationReport(netease, "0:00", NotFound, [], Some(NoPrimaryDuration), None))
  {
  }

  /**
   * With an integer NetEase duration: confirmed exactly when some source is
   * within 2 seconds, listing those sources Spotify first; questionable
   * exactly when none is but some source has a duration; not found
   * otherwise.
   */
  lemma DurationStatus(netease: Json, spotify: Json, qqmusic: Json)
    requires Truthy(netease) && AsInt(netease).Some? && !DurationRaises(spotify) && !DurationRaises(qqmusic)
    ensures var r, n := DurationSpec(netease, spotify, qqmusic), AsInt(netease).value;
      var sm, qm := Within(n, Millis(spotify)), Within(n, Millis(qqmusic));
      && r.Some?
      && (r.value.status == Confirmed <==> sm || qm)
      && (r.value.status == Confirmed ==> r.value.confirmedBy == Some(ConfirmedBy(sm, qm)) && r.value.note.None?)
      && (r.value.status == Questionable <==> !sm && !qm && (Truthy(spotify) || Truthy(qqmusic)))
      && (r.value.status == Questionable ==> r.value.note == Some(DurationOff))
      && (r.value.status == NotFound ==> r.value.note == Some(NoOtherDuration))
  {
  }

  /**
   * A present source is recorded formatted under its key, and a `_diff`
   * entry follows it exactly when it is more than 2 seconds off.
   */
  lemma DiffRecorded(p: Platform, n: int, x: int)
    ensures var e := DurationEntries(p, n, Some(x));
      && e[0] == (p.Key(), Format(x))
      && (|e| == 2 <==> Abs(n - x) > Tolerance)
      && (|e| == 2 ==> e[1] == (p.Key() + "_diff", DiffText(Abs(n - x))))
      && |e| <= 2
  {
  }

  /** The tolerance is symmetric and inclusive: 2000 ms either way confirms, 2001 does not. */
  lemma ToleranceBounds(n: int)
    ensures Within(n, Some(n + 2000)) && Within(n, Some(n - 2000))
    ensures !Within(n, Some(n + 2001)) && !Within(n, Some(n - 2001))
  {
  }

  /** A two-digit `:02d` field for a number below 100. */
  lemma Pad2Length(k: nat)
    requires k < 100
    ensures |Pad2(k)| == 2
  {
    if k >= 10 {
      assert NatToString(k) == NatToString(k / 10) + [DigitChar(k % 10)];
    }
  }

  /** Minutes and seconds split a count of whole seconds. */
  lemma MinutesSeconds(ms: nat)
    ensures (ms / 60000) * 60 + (ms % 60000) / 1000 == ms / 1000
    ensures (ms % 60000) / 1000 < 60
  {
    var q, r := ms / 60000, ms % 60000;
    var a, b := r / 1000, r % 1000;
    assert ms == 60000 * q + 1000 * a + b;
    assert ms == 1000 * (60 * q + a) + b;
  }

  /**
   * A non-negative duration is formatted as minutes, a colon and two digits
   * of seconds, which read back give the duration in whole seconds.
   */
  lemma FormatReadsBack(ms: nat)
    ensures var f, k := Format(ms), |NatToString(ms / 60000)|;
      && k + 3 == |f| && f[k] == ':'
      && ParseDigits(f[..k]) * 60 + ParseDigits(f[k + 1..]) == ms / 1000
      && ParseDigits(f[k + 1..]) < 60
  {
    var m, sec := NatToString(ms / 60000), Pad2((ms % 60000) / 1000);
    MinutesSeconds(ms);
    Pad2Length((ms % 60000) / 1000);
    ParseNatToString(ms / 60000);
    var f := Format(ms);
    assert f == m + ":" + sec;
    assert f[..|m|] == m;
    assert f[|m| + 1..] == sec;
  }
}
