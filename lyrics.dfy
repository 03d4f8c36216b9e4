/**
 * `compare_lyrics` of consolidate.py, with its inner `preprocess_lyrics`:
 * clean each text of time stamps, blank lines, full-width punctuation and
 * case, then compare the NetEase text with each secondary text.
 */
module Lyrics {
  import opened Wrappers
  import opened Json
  import opened Strings
  import opened Similarity
  import opened Platforms
  import opened FieldCheck

  // ---- time stamps ----

  predicate IsDigit(c: char) { '0' <= c <= '9' }

  /** The length of the run of digits starting at index `i` of `s`. */
  function DigitRun(s: string, i: nat): (r: nat)
    requires i <= |s|
    ensures i + r <= |s|
    decreases |s| - i
  {
    if i < |s| && IsDigit(s[i]) then 1 + DigitRun(s, i + 1) else 0
  }

  /** The length of the non-empty digit run at `i` when `sep` follows it, or 0. */
  function DigitField(s: string, i: nat, sep: char): (r: nat)
    requires i <= |s|
    ensures r > 0 ==> i + r < |s| && s[i + r] == sep
  {
    var d := DigitRun(s, i);
    if d > 0 && i + d < |s| && s[i + d] == sep then d else 0
  }

  /**
   * The length of the `[d+:d+.d+]` stamp `s` starts with, or 0. Each
   * digit run is followed by a character that is not a digit, so the
   * maximal run is the only way the pattern can match.
   */
  function StampLength(s: string): (r: nat)
    ensures r <= |s|
  {
    if s == [] || s[0] != '[' then 0
    else
      var d1 := DigitField(s, 1, ':');
      if d1 == 0 then 0
      else
        var d2 := DigitField(s, 2 + d1, '.');
        if d2 == 0 then 0
        else
          var d3 := DigitField(s, 3 + d1 + d2, ']');
          if d3 == 0 then 0 else 4 + d1 + d2 + d3
  }

  /** `re.sub(r"\[\d+:\d+\.\d+\]", "", s)`: drop the stamps met scanning left to right. */
  function RemoveStamps(s: string): string
    decreases |s|
  {
    if s == [] then []
    else
      var n := StampLength(s);
      if n > 0 then RemoveStamps(s[n..]) else [s[0]] + RemoveStamps(s[1..])
  }

  predicate AllDigits(s: string) {
    forall i :: 0 <= i < |s| ==> IsDigit(s[i])
  }

  /** `n` digits at `i` followed by a non-digit form a digit run of length `n`. */
  lemma {:induction false} DigitRunAt(s: string, i: nat, n: nat)
    requires i + n < |s| && !IsDigit(s[i + n])
    requires forall k :: i <= k < i + n ==> IsDigit(s[k])
    ensures DigitRun(s, i) == n
    decreases n
  {
    if n > 0 {
      DigitRunAt(s, i + 1, n - 1);
    }
  }

  /** `n > 0` digits at `i` followed by `sep` form a digit field of length `n`. */
  lemma DigitFieldAt(s: string, i: nat, n: nat, sep: char)
    requires 0 < n && i + n < |s| && s[i + n] == sep && !IsDigit(sep)
    requires forall k :: i <= k < i + n ==> IsDigit(s[k])
    ensures DigitField(s, i, sep) == n
  {
    DigitRunAt(s, i, n);
  }

  /** Three digit fields in the `[d+:d+.d+]` layout at the start of `s` form a stamp. */
  lemma StampLengthOf(s: string, n1: nat, n2: nat, n3: nat)
    requires 0 < n1 && 0 < n2 && 0 < n3 && 4 + n1 + n2 + n3 <= |s| && s[0] == '['
    requires DigitField(s, 1, ':') == n1
    requires DigitField(s, 2 + n1, '.') == n2
    requires DigitField(s, 3 + n1 + n2, ']') == n3
    ensures StampLength(s) == 4 + n1 + n2 + n3
  {
  }

  /**
   * A `[d+:d+.d+]` stamp at the start of the text is removed: `n1`, `n2`
   * and `n3` digits separated by `:` and `.`, between brackets.
   */
  lemma StampRemoved(s: string, n1: nat, n2: nat, n3: nat)
    requires 0 < n1 && 0 < n2 && 0 < n3 && 4 + n1 + n2 + n3 <= |s|
    requires s[0] == '[' && s[1 + n1] == ':' && s[2 + n1 + n2] == '.' && s[3 + n1 + n2 + n3] == ']'
    requires forall k :: 1 <= k < 1 + n1 ==> IsDigit(s[k])
    requires forall k :: 2 + n1 <= k < 2 + n1 + n2 ==> IsDigit(s[k])
    requires forall k :: 3 + n1 + n2 <= k < 3 + n1 + n2 + n3 ==> IsDigit(s[k])
    ensures RemoveStamps(s) == RemoveStamps(s[4 + n1 + n2 + n3..])
  {
    DigitFieldAt(s, 1, n1, ':');
    DigitFieldAt(s, 2 + n1, n2, '.');
    DigitFieldAt(s, 3 + n1 + n2, n3, ']');
    StampLengthOf(s, n1, n2, n3);
    StampSkipped(s);
  }

  /** Removal skips over the stamp the text starts with. */
  lemma StampSkipped(s: string)
    requires StampLength(s) > 0
    ensures RemoveStamps(s) == RemoveStamps(s[StampLength(s)..])
  {
  }

  /** A text with no `[` has no stamp to remove. */
  lemma {:induction false} NoBracketNoStamps(s: string)
    requires NoneOf(s, {'['})
    ensures RemoveStamps(s) == s
    decreases |s|
  {
    if s != [] {
      assert s[0] != '[';
      NoBracketNoStamps(s[1..]);
      assert s == [s[0]] + s[1..];
    }
  }

  // ---- lines and punctuation ----

  /** `[line.strip() for line in lines if line.strip()]`. */
  function CleanLines(lines: seq<string>): seq<string> {
    if lines == [] then []
    else (if Strip(lines[0]) != [] then [Strip(lines[0])] else []) + CleanLines(lines[1..])
  }

  /** A line of the cleaned text: non-empty, trimmed, free of newlines. */
  predicate GoodLine(line: string) {
    line != [] && Stripped(line) && NoneOf(line, {'\n'})
  }

  /** Cleaning pieces that hold no newline keeps only good lines. */
  lemma {:induction false} CleanLinesGood(lines: seq<string>)
    requires forall k :: 0 <= k < |lines| ==> NoneOf(lines[k], {'\n'})
    ensures forall k :: 0 <= k < |CleanLines(lines)| ==> GoodLine(CleanLines(lines)[k])
    decreases |lines|
  {
    if lines != [] {
      CleanLinesGood(lines[1..]);
      var l := lines[0];
      StripShape(l);
      var i, j :| 0 <= i <= j <= |l| && Strip(l) == l[i..j];
      assert NoneOf(Strip(l), {'\n'}) by {
        forall k | 0 <= k < |Strip(l)| ensures Strip(l)[k] !in {'\n'} {
          assert Strip(l)[k] == l[i + k];
        }
      }
      var head: seq<string> := if Strip(l) != [] then [Strip(l)] else [];
      var r := CleanLines(lines);
      assert r == head + CleanLines(lines[1..]);
      forall k | 0 <= k < |r| ensures GoodLine(r[k]) {
        if k >= |head| {
          assert r[k] == CleanLines(lines[1..])[k - |head|];
        }
      }
    }
  }

  /** Every newline of `t` sits between two characters that are not whitespace: no blank or untrimmed line. */
  predicate LinesTrimmed(t: string) {
    forall i :: 0 <= i < |t| && t[i] == '\n' ==> 0 < i < |t| - 1 && !IsSpace(t[i - 1]) && !IsSpace(t[i + 1])
  }

  /** Good lines joined with newlines form a trimmed text without blank lines. */
  lemma {:induction false} JoinGoodLines(lines: seq<string>)
    requires forall k :: 0 <= k < |lines| ==> GoodLine(lines[k])
    ensures var t := Join(lines, "\n"); LinesTrimmed(t) && Stripped(t) && (t == [] <==> lines == [])
    decreases |lines|
  {
    if |lines| == 1 {
      var a := lines[0];
      assert GoodLine(a);
      assert Join(lines, "\n") == a;
    } else if |lines| > 1 {
      var a := lines[0];
      var rest := lines[1..];
      assert GoodLine(a);
      assert forall k :: 0 <= k < |rest| ==> GoodLine(rest[k]) by {
        forall k | 0 <= k < |rest| ensures GoodLine(rest[k]) { assert rest[k] == lines[k + 1]; }
      }
      JoinGoodLines(rest);
      var u := Join(rest, "\n");
      var t := Join(lines, "\n");
      assert t == a + "\n" + u;
      assert forall k :: 0 <= k < |a| ==> t[k] == a[k] && a[k] !in {'\n'};
      forall i | 0 <= i < |t| && t[i] == '\n'
        ensures 0 < i < |t| - 1 && !IsSpace(t[i - 1]) && !IsSpace(t[i + 1])
      {
        if i > |a| {
          assert t[i] == u[i - |a| - 1];
          assert t[i - 1] == u[i - |a| - 2];
          assert t[i + 1] == u[i - |a|];
        }
      }
    }
  }

  /** A character-by-character map that keeps newlines and whitespace where they were keeps a text trimmed. */
  lemma PointwiseKeepsTrimmed(t: string, u: string)
    requires |t| == |u|
    requires forall i :: 0 <= i < |t| ==> (t[i] == '\n' <==> u[i] == '\n') && (IsSpace(t[i]) <==> IsSpace(u[i]))
    ensures LinesTrimmed(t) ==> LinesTrimmed(u)
    ensures Stripped(t) ==> Stripped(u)
  {
  }

  /** The full-width punctuation the node unifies. */
  predicate FullWidth(c: char) {
    c == '，' || c == '。' || c == '！' || c == '？'
  }

  /** `.replace("，", ",").replace("。", ".").replace("！", "!").replace("？", "?")`. */
  function UnifyPunctuation(s: string): string {
    ReplaceChar(ReplaceChar(ReplaceChar(ReplaceChar(s, '，', ','), '。', '.'), '！', '!'), '？', '?')
  }

  /** Unifying punctuation leaves no full-width mark and touches no whitespace. */
  lemma UnifyPunctuationShape(s: string)
    ensures var u := UnifyPunctuation(s);
      && |u| == |s|
      && (forall i :: 0 <= i < |u| ==> !FullWidth(u[i]))
      && (forall i :: 0 <= i < |s| ==> (s[i] == '\n' <==> u[i] == '\n') && (IsSpace(s[i]) <==> IsSpace(u[i])))
  {
  }

  /** Lower-casing touches no whitespace and introduces no full-width mark. */
  lemma LowerShape(s: string)
    ensures var l := Lower(s);
      && NoUpper(l)
      && (forall i :: 0 <= i < |s| ==> (s[i] == '\n' <==> l[i] == '\n') && (IsSpace(s[i]) <==> IsSpace(l[i])))
      && (forall i :: 0 <= i < |s| ==> !FullWidth(s[i]) ==> !FullWidth(l[i]))
  {
  }

  /** The text before the final strip. */
  function Cleaned(text: string): string {
    Lower(UnifyPunctuation(Join(CleanLines(SplitOn(RemoveStamps(text), {'\n'})), "\n")))
  }

  /** `preprocess_lyrics`. */
  function Preprocess(text: string): string {
    if text == [] then [] else Strip(Cleaned(text))
  }

  /**
   * The cleaned text has no leading or trailing whitespace, no blank line,
   * no untrimmed line, no upper-case letter and no full-width punctuation;
   * the final strip has nothing left to remove.
   */
  lemma PreprocessShape(text: string)
    ensures var r := Preprocess(text);
      && Stripped(r) && LinesTrimmed(r) && NoUpper(r)
      && (forall i :: 0 <= i < |r| ==> !FullWidth(r[i]))
    ensures text != [] ==> Preprocess(text) == Cleaned(text)
  {
    var pieces := SplitOn(RemoveStamps(text), {'\n'});
    SplitOnPieces(RemoveStamps(text), {'\n'});
    CleanLinesGood(pieces);
    var lines := CleanLines(pieces);
    JoinGoodLines(lines);
    var joined := Join(lines, "\n");
    var unified := UnifyPunctuation(joined);
    UnifyPunctuationShape(joined);
    PointwiseKeepsTrimmed(joined, unified);
    var lowered := Lower(unified);
    LowerShape(unified);
    PointwiseKeepsTrimmed(unified, lowered);
    StripOfStripped(lowered);
  }

  // ---- the comparison ----

  /** The dict `compare_lyrics` returns; `sources` holds the previews, in insertion order. */
  datatype LyricsReport = LyricsReport(
    value: Json,
    status: Status,
    sources: seq<(string, string)>,
    note: Option<Note>,
    confirmedBy: Option<seq<Platform>>,
    similarityScore: Option<real>)

  /** `netease_lyrics.get("original", "")` on a dict, `""` otherwise. */
  function NeteaseText(netease: Json): Json {
    match netease
    case JObj(entries) => GetOr(entries, "original", JStr(""))
    case _ => JStr("")
  }

  /** A value the lyrics code cannot slice, measure or clean raises `TypeError`. */
  predicate LyricsRaises(v: Json) {
    Truthy(v) && !v.JStr?
  }

  /** The recorded preview: the first 100 characters and `...` when the text is longer. */
  function Preview(s: string): string {
    if |s| > 100 then s[..100] + "..." else s
  }

  /** A preview is the text itself up to 100 characters, otherwise its first 100 characters and `...`. */
  lemma PreviewShape(s: string)
    ensures |s| <= 100 ==> Preview(s) == s
    ensures |s| > 100 ==> |Preview(s)| == 103 && Preview(s)[..100] == s[..100] && Preview(s)[100..] == "..."
  {
  }

  /**
   * The cleaning applied to each secondary text. `compare_lyrics` uses
   * `Preprocess`; the comparison of the sources is stated for any cleaning
   * so that it does not depend on how the texts are cleaned.
   */
  type Cleaner = string -> string

  /** The raw ratio of a present source against the cleaned NetEase text, or `None` when it has no lyrics. */
  function SourceRatio(sim: Ratio, pre: Cleaner, clean: string, v: Json): Option<real> {
    if Truthy(v) && v.JStr? then Some(sim(clean, pre(v.s))) else None
  }

  /** A source whose ratio reaches 0.95 confirms. */
  predicate LyricsMatch(ratio: Option<real>) {
    ratio.Some? && ratio.value >= MatchThreshold
  }

  /** A source whose ratio lies in [0.8, 0.95) is near. */
  predicate LyricsNearly(ratio: Option<real>) {
    ratio.Some? && NearThreshold <= ratio.value < MatchThreshold
  }

  /** `max(m, ratio)` for a present source; an absent one leaves `m`. */
  function MaxWith(m: real, ratio: Option<real>): (r: real)
    ensures r >= m && (ratio.Some? ==> r >= ratio.value)
    ensures r == m || (ratio.Some? && r == ratio.value)
  {
    match ratio
    case None => m
    case Some(x) => if x > m then x else m
  }

  /** The `sources` entry of a present source. */
  function LyricsEntry(p: Platform, v: Json): seq<(string, string)> {
    if Truthy(v) && v.JStr? then [(p.Key(), Preview(v.s))] else []
  }

  /**
   * The near-match note: the QQ Music note replaces Spotify's, because the
   * guard `status != 确认` never fails inside the comparisons.
   */
  function NearNote(rs: Option<real>, rq: Option<real>): Option<Note> {
    if LyricsNearly(rq) then Some(LyricsNear(QQMusic, rq.value))
    else if LyricsNearly(rs) then Some(LyricsNear(Spotify, rs.value))
    else None
  }

  /** The report once the ratios of the two sources (`None` for no lyrics) are known. */
  function LyricsOutcome(text: Json, rs: Option<real>, rq: Option<real>, sources: seq<(string, string)>): LyricsReport {
    var sm, qm := LyricsMatch(rs), LyricsMatch(rq);
    var status := if sm || qm then Confirmed else if NearNote(rs, rq).Some? then Questionable else NotFound;
    var note := if !sm && !qm && rs.None? && rq.None? then Some(NoOtherLyrics) else NearNote(rs, rq);
    var best := MaxWith(MaxWith(0.0, rs), rq);
    LyricsReport(text, status, sources, note, if sm || qm then Some(ConfirmedBy(sm, qm)) else None,
                 if best > 0.0 then Some(best) else None)
  }

  /** The comparison of the two sources with the cleaned NetEase text, or `None` when a source raises. */
  function SourcesReport(sim: Ratio, pre: Cleaner, text: Json, clean: string, spotify: Json, qqmusic: Json): Option<LyricsReport> {
    if LyricsRaises(spotify) || LyricsRaises(qqmusic) then None
    else
      Some(LyricsOutcome(text, SourceRatio(sim, pre, clean, spotify), SourceRatio(sim, pre, clean, qqmusic),
                         LyricsEntry(Spotify, spotify) + LyricsEntry(QQMusic, qqmusic)))
  }

  /** The report of `compare_lyrics`, or `None` when it raises. */
  function LyricsSpec(sim: Ratio, netease: Json, spotify: Json, qqmusic: Json): Option<LyricsReport> {
    var text := NeteaseText(netease);
    if !Truthy(text) then Some(LyricsReport(text, NotFound, [], Some(NoPrimaryLyrics), None, None))
    else if !text.JStr? then None
    else SourcesReport(sim, Preprocess, text, Preprocess(text.s), spotify, qqmusic)
  }

  /** The running state of `compare_lyrics`: status, note, recorded previews, best ratio and confirming sources. */
  datatype Tally = Tally(status: Status, note: Option<Note>, sources: seq<(string, string)>, best: real,
                         confirmed: seq<Platform>)

  /** The state before the comparisons. */
  const Start := Tally(NotFound, None, [], 0.0, [])

  /**
   * One source of `compare_lyrics` on a state: a present text is recorded
   * as a preview and compared; the best ratio is raised to its ratio; a
   * ratio of 0.95 appends the source to the confirming list, and one of
   * 0.8, while the status is not 确认, makes it 存疑 with a near-match note.
   */
  function SourceStep(sim: Ratio, pre: Cleaner, clean: string, v: Json, p: Platform, t: Tally): Tally {
    match SourceRatio(sim, pre, clean, v)
    case None => t
    case Some(x) =>
      var sources := t.sources + [(p.Key(), Preview(v.s))];
      var best := if x > t.best then x else t.best;
      if x >= MatchThreshold then Tally(t.status, t.note, sources, best, t.confirmed + [p])
      else if x >= NearThreshold && t.status != Confirmed then Tally(Questionable, Some(LyricsNear(p, x)), sources, best, t.confirmed)
      else Tally(t.status, t.note, sources, best, t.confirmed)
  }

  /** What one step does to each part of the state, in terms of the source's ratio. */
  lemma SourceStepEffect(sim: Ratio, pre: Cleaner, clean: string, v: Json, p: Platform, t: Tally)
    ensures var r, ratio := SourceStep(sim, pre, clean, v, p, t), SourceRatio(sim, pre, clean, v);
      && r.sources == t.sources + LyricsEntry(p, v)
      && r.best == MaxWith(t.best, ratio)
      && r.confirmed == t.confirmed + (if LyricsMatch(ratio) then [p] else [])
      && (LyricsNearly(ratio) && t.status != Confirmed ==> r.status == Questionable && r.note == Some(LyricsNear(p, ratio.value)))
      && (!(LyricsNearly(ratio) && t.status != Confirmed) ==> r.status == t.status && r.note == t.note)
  {
  }

  /** A state that holds what the outcome table needs, given the ratios of the two sources. */
  predicate Settled(t: Tally, rs: Option<real>, rq: Option<real>) {
    && t.confirmed == ConfirmedBy(LyricsMatch(rs), LyricsMatch(rq))
    && t.best == MaxWith(MaxWith(0.0, rs), rq)
    && t.status == (if NearNote(rs, rq).Some? then Questionable else NotFound)
    && t.note == NearNote(rs, rq)
  }

  /** Neither source raised and `t` is the state after comparing both. */
  predicate BothStepped(sim: Ratio, pre: Cleaner, clean: string, spotify: Json, qqmusic: Json, t: Tally) {
    && !LyricsRaises(spotify) && !LyricsRaises(qqmusic)
    && t == SourceStep(sim, pre, clean, qqmusic, QQMusic, SourceStep(sim, pre, clean, spotify, Spotify, Start))
  }

  /** After both sources, the state is settled and holds the entries of both. */
  lemma BothSources(sim: Ratio, pre: Cleaner, clean: string, spotify: Json, qqmusic: Json)
    ensures var t := SourceStep(sim, pre, clean, qqmusic, QQMusic, SourceStep(sim, pre, clean, spotify, Spotify, Start));
      && Settled(t, SourceRatio(sim, pre, clean, spotify), SourceRatio(sim, pre, clean, qqmusic))
      && t.sources == LyricsEntry(Spotify, spotify) + LyricsEntry(QQMusic, qqmusic)
  {
    var t1 := SourceStep(sim, pre, clean, spotify, Spotify, Start);
    SourceStepEffect(sim, pre, clean, spotify, Spotify, Start);
    SourceStepEffect(sim, pre, clean, qqmusic, QQMusic, t1);
    assert t1.sources == LyricsEntry(Spotify, spotify);
    assert t1.confirmed == if LyricsMatch(SourceRatio(sim, pre, clean, spotify)) then [Spotify] else [];
  }

  /** One source of `compare_lyrics`, or `None` when its value raises `TypeError`. */
  method LyricsSource(sim: Ratio, pre: Cleaner, clean: string, v: Json, p: Platform, t: Tally) returns (r: Option<Tally>)
    ensures r.None? <==> LyricsRaises(v)
    ensures r.Some? ==> r.value == SourceStep(sim, pre, clean, v, p, t)
  {
    if !Truthy(v) {
      return Some(t);
    }
    match v {
      case JStr(text) =>
        var status, note, sources, best, confirmed := t.status, t.note, t.sources, t.best, t.confirmed;
        sources := sources + [(p.Key(), Preview(text))];
        var similarity := sim(clean, pre(text));
        best := if similarity > best then similarity else best;
        if similarity >= MatchThreshold {
          confirmed := confirmed + [p];
        } else if similarity >= NearThreshold && status != Confirmed {
          status := Questionable;
          note := Some(LyricsNear(p, similarity));
        }
        return Some(Tally(status, note, sources, best, confirmed));
      case _ =>
        return None;
    }
  }

  /**
   * `compare_lyrics`, step by step: stop with 未查到 when NetEase has no
   * text, compare Spotify then QQ Music, then confirm on any match or mark
   * the field 未查到 when neither source has lyrics, and attach the best
   * ratio when it is positive.
   */
  method CompareLyrics(sim: Ratio, netease: Json, spotify: Json, qqmusic: Json) returns (r: Option<LyricsReport>)
    ensures r == LyricsSpec(sim, netease, spotify, qqmusic)
  {
    var text := NeteaseText(netease);
    if !Truthy(text) {
      return Some(LyricsReport(text, NotFound, [], Some(NoPrimaryLyrics), None, None));
    }
    if !text.JStr? {
      return None;
    }
    var clean := Preprocess(text.s);
    r := CompareSources(sim, Preprocess, text, clean, spotify, qqmusic);
  }

  /** The two comparisons of `compare_lyrics` and the final status. */
  method CompareSources(sim: Ratio, pre: Cleaner, text: Json, clean: string, spotify: Json, qqmusic: Json)
    returns (r: Option<LyricsReport>)
    ensures r == SourcesReport(sim, pre, text, clean, spotify, qqmusic)
  {
    r := None;
    var first := LyricsSource(sim, pre, clean, spotify, Spotify, Start);
    if first.Some? {
      var second := LyricsSource(sim, pre, clean, qqmusic, QQMusic, first.value);
      if second.Some? {
        var report := FinishLyrics(sim, pre, text, clean, spotify, qqmusic, second.value);
        r := Some(report);
      }
    }
  }

  /** The end of `compare_lyrics`: settle the status and attach `confirmed_by` and the best ratio. */
  method FinishLyrics(sim: Ratio, pre: Cleaner, text: Json, clean: string, spotify: Json, qqmusic: Json, t: Tally)
    returns (r: LyricsReport)
    requires BothStepped(sim, pre, clean, spotify, qqmusic, t)
    ensures SourcesReport(sim, pre, text, clean, spotify, qqmusic) == Some(r)
  {
    BothSources(sim, pre, clean, spotify, qqmusic);
    ghost var rs, rq := SourceRatio(sim, pre, clean, spotify), SourceRatio(sim, pre, clean, qqmusic);
    r := SettleLyrics(text, t, Truthy(spotify), Truthy(qqmusic), rs, rq);
  }

  /** The outcome table on a settled state, given which sources have lyrics. */
  method SettleLyrics(text: Json, t: Tally, spotifyPresent: bool, qqPresent: bool, ghost rs: Option<real>, ghost rq: Option<real>)
    returns (r: LyricsReport)
    requires spotifyPresent == rs.Some? && qqPresent == rq.Some? && Settled(t, rs, rq)
    ensures r == LyricsOutcome(text, rs, rq, t.sources)
  {
    var status, note, sources, best, confirmed := t.status, t.note, t.sources, t.best, t.confirmed;
    var confirmedBy := None;
    var score := None;
    if confirmed != [] {
      status := Confirmed;
      confirmedBy := Some(confirmed);
      score := Some(best);
    } else if !spotifyPresent && !qqPresent {
      status := NotFound;
      note := Some(NoOtherLyrics);
    }
    if best > 0.0 {
      score := Some(best);
    }
    return LyricsReport(text, status, sources, note, confirmedBy, score);
  }

  // ---- what the report promises ----

  /** Without a NetEase text the field is not found, with nothing compared. */
  lemma NoPrimaryNotFound(sim: Ratio, netease: Json, spotify: Json, qqmusic: Json)
    requires !Truthy(NeteaseText(netease))
    ensures LyricsSpec(sim, netease, spotify, qqmusic) ==
      Some(LyricsReport(NeteaseText(netease), NotFound, [], Some(NoPrimaryLyrics), None, None))
  {
  }

  /** The hypotheses under which the comparison runs to the end. */
  predicate Compared(netease: Json, spotify: Json, qqmusic: Json) {
    var text := NeteaseText(netease);
    Truthy(text) && text.JStr? && !LyricsRaises(spotify) && !LyricsRaises(qqmusic)
  }

  /** The ratio of one source as `compare_lyrics` computes it. */
  function LyricsRatio(sim: Ratio, netease: Json, v: Json): Option<real> {
    var text := NeteaseText(netease);
    SourceRatio(sim, Preprocess, if text.JStr? then Preprocess(text.s) else [], v)
  }

  /** A value that is neither text nor falsy makes the node raise. */
  lemma RaisesWhenNotText(sim: Ratio, netease: Json, spotify: Json, qqmusic: Json)
    requires Truthy(NeteaseText(netease))
    ensures LyricsSpec(sim, netease, spotify, qqmusic).None? <==> !Compared(netease, spotify, qqmusic)
  {
  }

  /**
   * Confirmed exactly when some source reaches 0.95, with `confirmed_by`
   * Spotify first; questionable exactly when none does and some source lies
   * in [0.8, 0.95); not found otherwise. The QQ Music near-match note wins.
   */
  lemma LyricsStatus(sim: Ratio, netease: Json, spotify: Json, qqmusic: Json)
    requires Compared(netease, spotify, qqmusic)
    ensures var r := LyricsSpec(sim, netease, spotify, qqmusic);
      var rs, rq := LyricsRatio(sim, netease, spotify), LyricsRatio(sim, netease, qqmusic);
      var sm, qm := LyricsMatch(rs), LyricsMatch(rq);
      && r.Some?
      && (r.value.status == Confirmed <==> sm || qm)
      && (r.value.confirmedBy.Some? <==> sm || qm)
      && (r.value.status == Confirmed ==> r.value.confirmedBy == Some(ConfirmedBy(sm, qm)))
      && (r.value.status == Questionable <==> !sm && !qm && (LyricsNearly(rs) || LyricsNearly(rq)))
      && (LyricsNearly(rq) ==> r.value.note == Some(LyricsNear(QQMusic, rq.value)))
      && (!LyricsNearly(rq) && LyricsNearly(rs) ==> r.value.note == Some(LyricsNear(Spotify, rs.value)))
  {
  }

  /** With no secondary lyrics the field is not found and says so, and carries no ratio. */
  lemma NoSecondaryLyrics(sim: Ratio, netease: Json, spotify: Json, qqmusic: Json)
    requires Compared(netease, spotify, qqmusic) && !Truthy(spotify) && !Truthy(qqmusic)
    ensures var r := LyricsSpec(sim, netease, spotify, qqmusic);
      r.Some? && r.value.status == NotFound && r.value.note == Some(NoOtherLyrics) && r.value.sources == []
      && r.value.similarityScore.None?
  {
  }

  /**
   * The attached `similarity_score` is the largest ratio of a present
   * source, and is attached exactly when that ratio is positive; a
   * confirmed field always carries it.
   */
  lemma ScoreIsBest(sim: Ratio, netease: Json, spotify: Json, qqmusic: Json)
    requires Compared(netease, spotify, qqmusic)
    ensures var r := LyricsSpec(sim, netease, spotify, qqmusic);
      var rs, rq := LyricsRatio(sim, netease, spotify), LyricsRatio(sim, netease, qqmusic);
      && r.Some?
      && (r.value.status == Confirmed ==> r.value.similarityScore.Some?)
      && (r.value.similarityScore.Some? <==> (rs.Some? && rs.value > 0.0) || (rq.Some? && rq.value > 0.0))
      && (r.value.similarityScore.Some? ==>
            var m := r.value.similarityScore.value;
            && (rs.Some? ==> rs.value <= m) && (rq.Some? ==> rq.value <= m)
            && ((rs.Some? && m == rs.value) || (rq.Some? && m == rq.value)))
  {
    var rs, rq := LyricsRatio(sim, netease, spotify), LyricsRatio(sim, netease, qqmusic);
    var m0 := MaxWith(0.0, rs);
    var m := MaxWith(m0, rq);
    assert m > 0.0 ==> (rs.Some? && m == rs.value) || (rq.Some? && m == rq.value);
  }

  /** Each present source is recorded under its key as a preview, Spotify first. */
  lemma LyricsSourcesRecorded(sim: Ratio, netease: Json, spotify: Json, qqmusic: Json)
    requires Compared(netease, spotify, qqmusic)
    ensures LyricsSpec(sim, netease, spotify, qqmusic).value.sources ==
      (if Truthy(spotify) then [("spotify", Preview(spotify.s))] else []) +
      (if Truthy(qqmusic) then [("qqmusic", Preview(qqmusic.s))] else [])
  {
  }

  /**
   * A source whose lyrics equal the NetEase lyrics, and clean to a
   * non-empty text, confirms the field with the top score 1.
   */
  lemma IdenticalLyricsConfirm(sim: Ratio, netease: Json, spotify: Json, qqmusic: Json)
    requires SelfSimilar(sim) && InUnitInterval(sim) && Compared(netease, spotify, qqmusic)
    requires spotify == NeteaseText(netease) && Preprocess(spotify.s) != []
    ensures var r := LyricsSpec(sim, netease, spotify, qqmusic);
      && r.Some? && r.value.status == Confirmed
      && r.value.confirmedBy.Some? && r.value.confirmedBy.value[0] == Spotify
      && r.value.similarityScore == Some(1.0)
  {
    var c := Preprocess(spotify.s);
    assert sim(c, c) == 1.0;
    assert LyricsRatio(sim, netease, spotify) == Some(1.0);
    var rq := LyricsRatio(sim, netease, qqmusic);
    assert rq.Some? ==> rq.value <= 1.0;
  }

  /** A time stamp at the head of a secondary text does not change its cleaned form. */
  lemma StampIgnored(s: string, n1: nat, n2: nat, n3: nat)
    requires 0 < n1 && 0 < n2 && 0 < n3 && 4 + n1 + n2 + n3 < |s|
    requires s[0] == '[' && s[1 + n1] == ':' && s[2 + n1 + n2] == '.' && s[3 + n1 + n2 + n3] == ']'
    requires forall k :: 1 <= k < 1 + n1 ==> IsDigit(s[k])
    requires forall k :: 2 + n1 <= k < 2 + n1 + n2 ==> IsDigit(s[k])
    requires forall k :: 3 + n1 + n2 <= k < 3 + n1 + n2 + n3 ==> IsDigit(s[k])
    ensures Preprocess(s) == Preprocess(s[4 + n1 + n2 + n3..])
  {
    StampRemoved(s, n1, n2, n3);
  }
}
