/**
 * `main` of consolidate.py: compare every field of the NetEase record with
 * the Spotify and QQ Music records, attach the cover verdict, and count
 * the statuses of the report into a summary with a confidence score.
 *
 * `count_status` walks the report tree with four counters it updates as it
 * recurses; it is the method `StatusCounter.Count`, proved against the
 * function `Counted`.
 */
module Consolidate {
  import opened Wrappers
  import opened Json
  import opened Similarity
  import opened FieldCheck
  import opened Duration
  import opened Lyrics
  import opened Cover
  import opened Credits

  // ---- the status tree and its count ----

  /**
   * The part of a report `count_status` looks at: a dict with a `status`
   * key (its status, or `None` when the value is none of the three
   * labels), a dict without one (its values), or anything else.
   */
  datatype Tree = Leaf(status: Option<Status>) | Group(children: seq<Tree>) | Other

  /** The four counters: total, 确认, 存疑 and 未查到. */
  datatype Counts = Counts(total: nat, confirmed: nat, questionable: nat, notFound: nat)
  {
    function Plus(other: Counts): Counts {
      Counts(total + other.total, confirmed + other.confirmed, questionable + other.questionable,
             notFound + other.notFound)
    }
  }

  const NoCounts := Counts(0, 0, 0, 0)

  /** What `count_status` adds for one node. */
  function Counted(t: Tree): Counts
    decreases t, 1
  {
    match t
    case Leaf(status) =>
      Counts(1, if status == Some(Confirmed) then 1 else 0, if status == Some(Questionable) then 1 else 0,
             if status == Some(NotFound) then 1 else 0)
    case Group(children) => CountedAll(children)
    case Other => NoCounts
  }

  /** What `count_status` adds for a sequence of nodes, in order. */
  function CountedAll(ts: seq<Tree>): Counts
    decreases ts, 0
  {
    if ts == [] then NoCounts else CountedAll(ts[..|ts| - 1]).Plus(Counted(ts[|ts| - 1]))
  }

  /** Counting one more node of a sequence adds its count. */
  lemma CountedAllStep(ts: seq<Tree>, i: nat)
    requires i < |ts|
    ensures CountedAll(ts[..i + 1]) == CountedAll(ts[..i]).Plus(Counted(ts[i]))
  {
    assert ts[..i + 1][..i] == ts[..i];
  }

  lemma PlusAssoc(a: Counts, b: Counts, c: Counts)
    ensures a.Plus(b).Plus(c) == a.Plus(b.Plus(c))
  {
  }

  /** `count_status` with its `nonlocal` counters as the fields of an object. */
  class StatusCounter {
    var total: nat
    var confirmed: nat
    var questionable: nat
    var notFound: nat

    /** The counters, all 0 before the walk. */
    constructor ()
      ensures Tallies() == NoCounts
    {
      total, confirmed, questionable, notFound := 0, 0, 0, 0;
    }

    function Tallies(): Counts
      reads this
    {
      Counts(total, confirmed, questionable, notFound)
    }

    /**
     * `count_status(t)`: a node with a status counts once and is not
     * entered; a dict without one is walked value by value.
     */
    method Count(t: Tree)
      modifies this
      ensures Tallies() == old(Tallies()).Plus(Counted(t))
      decreases t
    {
      match t {
        case Leaf(status) =>
          Tick(status);
        case Group(children) =>
          var i := 0;
          while i < |children|
            invariant 0 <= i <= |children|
            invariant Tallies() == old(Tallies()).Plus(CountedAll(children[..i]))
          {
            Count(children[i]);
            CountedAllStep(children, i);
            PlusAssoc(old(Tallies()), CountedAll(children[..i]), Counted(children[i]));
            i := i + 1;
          }
          assert children[..|children|] == children;
        case Other =>
      }
    }

    /** A node with a status: one more field, and one more in its category. */
    method Tick(status: Option<Status>)
      modifies this
      ensures Tallies() == old(Tallies()).Plus(Counted(Leaf(status)))
    {
      total := total + 1;
      if status == Some(Confirmed) {
        confirmed := confirmed + 1;
      } else if status == Some(Questionable) {
        questionable := questionable + 1;
      } else if status == Some(NotFound) {
        notFound := notFound + 1;
      }
    }
  }

  /** Every status node of the tree carries one of the three labels. */
  predicate AllKnown(t: Tree)
    decreases t, 1
  {
    match t
    case Leaf(status) => status.Some?
    case Group(children) => AllKnownIn(children)
    case Other => true
  }

  predicate AllKnownIn(ts: seq<Tree>)
    decreases ts, 0
  {
    ts == [] || (AllKnownIn(ts[..|ts| - 1]) && AllKnown(ts[|ts| - 1]))
  }

  /**
   * The three categories never exceed the total, and they add up to it
   * exactly when every status is one of the three labels.
   */
  lemma {:induction false} CountedSplit(t: Tree)
    ensures Counted(t).confirmed + Counted(t).questionable + Counted(t).notFound <= Counted(t).total
    ensures Counted(t).confirmed + Counted(t).questionable + Counted(t).notFound == Counted(t).total <==> AllKnown(t)
    decreases t, 1
  {
    match t {
      case Leaf(status) =>
        if status.Some? {
          assert Counted(t).confirmed + Counted(t).questionable + Counted(t).notFound == 1 by {
            match status.value {
              case Confirmed =>
              case Questionable =>
              case NotFound =>
            }
          }
        }
      case Group(children) => CountedAllSplit(children);
      case Other =>
    }
  }

  lemma {:induction false} CountedAllSplit(ts: seq<Tree>)
    ensures CountedAll(ts).confirmed + CountedAll(ts).questionable + CountedAll(ts).notFound <= CountedAll(ts).total
    ensures CountedAll(ts).confirmed + CountedAll(ts).questionable + CountedAll(ts).notFound == CountedAll(ts).total
            <==> AllKnownIn(ts)
    decreases ts, 0
  {
    if ts != [] {
      CountedAllSplit(ts[..|ts| - 1]);
      CountedSplit(ts[|ts| - 1]);
    }
  }

  /** A group of status nodes counts each of them once. */
  lemma {:induction false} LeavesCountOnce(ts: seq<Tree>)
    requires forall i :: 0 <= i < |ts| ==> ts[i].Leaf?
    ensures CountedAll(ts).total == |ts|
  {
    if ts != [] {
      LeavesCountOnce(ts[..|ts| - 1]);
    }
  }

  /** A group of status nodes whose statuses are all known is all known. */
  lemma {:induction false} KnownLeaves(ts: seq<Tree>)
    requires forall i :: 0 <= i < |ts| ==> ts[i].Leaf? && ts[i].status.Some?
    ensures AllKnownIn(ts)
  {
    if ts != [] {
      KnownLeaves(ts[..|ts| - 1]);
    }
  }

  // ---- the summary ----

  /** `report["summary"]`, with the confidence score `confirmed / total`, or 0 without fields. */
  datatype Summary = Summary(total: nat, confirmed: nat, questionable: nat, notFound: nat, confidenceScore: real)

  function SummaryOf(c: Counts): Summary {
    Summary(c.total, c.confirmed, c.questionable, c.notFound,
            if c.total > 0 then c.confirmed as real / c.total as real else 0.0)
  }

  /** The confidence score of a walk lies in [0, 1], and is 0 when nothing was counted. */
  lemma ScoreInUnitInterval(t: Tree)
    ensures 0.0 <= SummaryOf(Counted(t)).confidenceScore <= 1.0
    ensures Counted(t).total == 0 ==> SummaryOf(Counted(t)).confidenceScore == 0.0
  {
    var c := Counted(t);
    CountedSplit(t);
    if c.total > 0 {
      RatioInUnitInterval(c.confirmed as real, c.total as real);
    }
  }

  lemma RatioInUnitInterval(a: real, b: real)
    requires 0.0 <= a <= b && b > 0.0
    ensures 0.0 <= a / b <= 1.0
  {
    assert a / b * b == a;
  }

  // ---- the report ----

  /** The `cover_art` field: the NetEase cover, the verdict's status, the other covers and the AI comparison. */
  datatype CoverArt = CoverArt(value: Json, status: Status, spotifyCover: Json, qqCover: Json, ai: AiComparison)

  /** `report["fields"]`; the credit roles are in the order `compare_credits` visited them. */
  datatype Fields = Fields(
    title: FieldReport,
    artists: FieldReport,
    album: FieldReport,
    duration: DurationReport,
    lyrics: LyricsReport,
    coverArt: CoverArt,
    credits: seq<(string, FieldReport)>)

  /** The `final_report`: the NetEase song id in the metadata, the fields and the summary. */
  datatype FinalReport = FinalReport(songId: Json, source: string, fields: Fields, summary: Summary)

  /** `main`'s result: the report, or the failure record when anything raised. */
  datatype Outcome = Integrated(report: FinalReport) | IntegrationFailed

  /** The `metadata.source` of every report. */
  const ReportSource := "NetEase Cloud Music"

  /** The credits as `count_status` sees them: a dict of role reports. */
  function CreditsTree(credits: seq<(string, FieldReport)>): Tree {
    if exists i :: 0 <= i < |credits| && credits[i].0 == "status" then Leaf(None)
    else Group(seq(|credits|, i requires 0 <= i < |credits| => Leaf(Some(credits[i].1.status))))
  }

  /** `report["fields"]` as `count_status` sees it. */
  function FieldsTree(f: Fields): Tree {
    Group([Leaf(Some(f.title.status)), Leaf(Some(f.artists.status)), Leaf(Some(f.album.status)),
           Leaf(Some(f.duration.status)), Leaf(Some(f.lyrics.status)), Leaf(Some(f.coverArt.status)),
           CreditsTree(f.credits)])
  }

  /**
   * Without a credit role named `status`, the summary counts the six
   * fields and every credit role once each, and its categories add up to
   * the total.
   */
  lemma ReportTotal(f: Fields)
    requires forall i :: 0 <= i < |f.credits| ==> f.credits[i].0 != "status"
    ensures Counted(FieldsTree(f)).total == 6 + |f.credits|
    ensures var c := Counted(FieldsTree(f)); c.confirmed + c.questionable + c.notFound == c.total
  {
    var leaves := seq(|f.credits|, i requires 0 <= i < |f.credits| => Leaf(Some(f.credits[i].1.status)));
    var top := [Leaf(Some(f.title.status)), Leaf(Some(f.artists.status)), Leaf(Some(f.album.status)),
                Leaf(Some(f.duration.status)), Leaf(Some(f.lyrics.status)), Leaf(Some(f.coverArt.status))];
    assert CreditsTree(f.credits) == Group(leaves);
    assert FieldsTree(f) == Group(top + [Group(leaves)]);
    LeavesCountOnce(leaves);
    KnownLeaves(leaves);
    LeavesCountOnce(top);
    KnownLeaves(top);
    Snoc(top, Group(leaves));
    CountedSplit(FieldsTree(f));
  }

  /** Counting a sequence with one more node at its end. */
  lemma Snoc(ts: seq<Tree>, t: Tree)
    ensures CountedAll(ts + [t]) == CountedAll(ts).Plus(Counted(t))
    ensures AllKnownIn(ts + [t]) == (AllKnownIn(ts) && AllKnown(t))
  {
    assert (ts + [t])[..|ts|] == ts;
  }

  // ---- main ----

  /** `d.get(key)` on a dict: missing keys read as `None`. */
  function Field(d: seq<(string, Json)>, key: string): Json {
    GetOr(d, key, JNull)
  }

  /** The three source records, when the input and each record are dicts; otherwise `.get` raises. */
  function Records(data: Json): Option<(seq<(string, Json)>, seq<(string, Json)>, seq<(string, Json)>)> {
    if !data.JObj? then None
    else
      var n, s, q := GetOr(data.entries, "netease", JObj([])), GetOr(data.entries, "spotify", JObj([])),
                     GetOr(data.entries, "qqmusic", JObj([]));
      if n.JObj? && s.JObj? && q.JObj? then Some((n.entries, s.entries, q.entries)) else None
  }

  /** The `cover_art` field from the three records and `main`'s reading of the verdict. */
  function CoverArtOf(n: seq<(string, Json)>, s: seq<(string, Json)>, q: seq<(string, Json)>,
                      reading: (Status, AiComparison)): CoverArt {
    CoverArt(Field(n, "cover_url"), reading.0, Field(s, "cover_url"), Field(q, "cover_url"), reading.1)
  }

  /** The credits dicts `main` hands to `compare_credits`: `credits`, or `{}` when missing. */
  function CreditsOf(d: seq<(string, Json)>): Json {
    GetOr(d, "credits", JObj([]))
  }

  /** One of the field comparisons raises. */
  predicate FieldsRaise(sim: Ratio, show: Show, parse: Parser, n: seq<(string, Json)>, s: seq<(string, Json)>,
                        q: seq<(string, Json)>, cover: string) {
    || FieldSpec(sim, show, StringField, Field(n, "title"), Field(s, "title"), Field(q, "title")).None?
    || FieldSpec(sim, show, ListField, Field(n, "artists"), Field(s, "artists"), Field(q, "artists")).None?
    || FieldSpec(sim, show, StringField, Field(n, "album"), Field(s, "album"), Field(q, "album")).None?
    || DurationSpec(GetOr(n, "duration_ms", JInt(0)), GetOr(s, "duration_ms", JInt(0)), GetOr(q, "duration_ms", JInt(0))).None?
    || LyricsSpec(sim, GetOr(n, "lyrics", JObj([])), GetOr(s, "lyrics", JStr("")), GetOr(q, "lyrics", JStr(""))).None?
    || CoverReading(parse, cover).None?
    || CreditsRaise(ListCompare(sim, show), CreditsOf(n), CreditsOf(s), CreditsOf(q))
  }

  /** Every field of `f` is the comparison of that field of the three records. */
  predicate FieldsOf(sim: Ratio, show: Show, parse: Parser, n: seq<(string, Json)>, s: seq<(string, Json)>,
                     q: seq<(string, Json)>, cover: string, f: Fields) {
    && FieldSpec(sim, show, StringField, Field(n, "title"), Field(s, "title"), Field(q, "title")) == Some(f.title)
    && FieldSpec(sim, show, ListField, Field(n, "artists"), Field(s, "artists"), Field(q, "artists")) == Some(f.artists)
    && FieldSpec(sim, show, StringField, Field(n, "album"), Field(s, "album"), Field(q, "album")) == Some(f.album)
    && DurationSpec(GetOr(n, "duration_ms", JInt(0)), GetOr(s, "duration_ms", JInt(0)), GetOr(q, "duration_ms", JInt(0)))
       == Some(f.duration)
    && LyricsSpec(sim, GetOr(n, "lyrics", JObj([])), GetOr(s, "lyrics", JStr("")), GetOr(q, "lyrics", JStr("")))
       == Some(f.lyrics)
    && CoverReading(parse, cover).Some? && f.coverArt == CoverArtOf(n, s, q, CoverReading(parse, cover).value)
    && AllDicts(CreditsOf(n), CreditsOf(s), CreditsOf(q))
    && CreditsResult(ListCompare(sim, show), CreditsOf(n), CreditsOf(s), CreditsOf(q), f.credits)
  }

  /** `main` fails: an input is not a dict or a comparison raises. */
  predicate IntegrationRaises(sim: Ratio, show: Show, parse: Parser, data: Json, cover: string) {
    Records(data).None? ||
    FieldsRaise(sim, show, parse, Records(data).value.0, Records(data).value.1, Records(data).value.2, cover)
  }

  /** A report `main` returns: the song id, the compared fields and the summary of their statuses. */
  predicate ReportOf(sim: Ratio, show: Show, parse: Parser, data: Json, cover: string, report: FinalReport) {
    && Records(data).Some?
    && report.songId == GetOr(Records(data).value.0, "song_id", JStr(""))
    && report.source == ReportSource
    && FieldsOf(sim, show, parse, Records(data).value.0, Records(data).value.1, Records(data).value.2, cover, report.fields)
    && report.summary == SummaryOf(Counted(FieldsTree(report.fields)))
  }

  /** The field comparisons of `main`, in its order; `None` when one raises. */
  method CompareFields(sim: Ratio, show: Show, parse: Parser, n: seq<(string, Json)>, s: seq<(string, Json)>,
                       q: seq<(string, Json)>, cover: string) returns (r: Option<Fields>)
    ensures r.None? <==> FieldsRaise(sim, show, parse, n, s, q, cover)
    ensures r.Some? ==> FieldsOf(sim, show, parse, n, s, q, cover, r.value)
  {
    r := None;
    var title := CompareField(sim, show, StringField, Field(n, "title"), Field(s, "title"), Field(q, "title"));
    var artists := CompareField(sim, show, ListField, Field(n, "artists"), Field(s, "artists"), Field(q, "artists"));
    var album := CompareField(sim, show, StringField, Field(n, "album"), Field(s, "album"), Field(q, "album"));
    var duration := CompareDuration(GetOr(n, "duration_ms", JInt(0)), GetOr(s, "duration_ms", JInt(0)),
                                    GetOr(q, "duration_ms", JInt(0)));
    var lyrics := CompareLyrics(sim, GetOr(n, "lyrics", JObj([])), GetOr(s, "lyrics", JStr("")), GetOr(q, "lyrics", JStr("")));
    var reading := CoverReading(parse, cover);
    var credits := CompareCredits(ListCompare(sim, show), CreditsOf(n), CreditsOf(s), CreditsOf(q));
    match (title, artists, album, duration, lyrics, reading, credits) {
      case (Some(t), Some(ar), Some(al), Some(d), Some(l), Some(c), Some(cr)) =>
        r := Some(Fields(t, ar, al, d, l, CoverArtOf(n, s, q, c), cr));
      case _ =>
    }
  }

  /**
   * `main`: read the three records, compare every field, count the
   * statuses of the fields, and return the report; any exception gives
   * the failure record.
   */
  method Integrate(sim: Ratio, show: Show, parse: Parser, data: Json, cover: string) returns (r: Outcome)
    ensures r.IntegrationFailed? <==> IntegrationRaises(sim, show, parse, data, cover)
    ensures r.Integrated? ==> ReportOf(sim, show, parse, data, cover, r.report)
  {
    r := IntegrationFailed;
    var records := Records(data);
    if records.Some? {
      var fields := CompareFields(sim, show, parse, records.value.0, records.value.1, records.value.2, cover);
      if fields.Some? {
        var summary := Summarize(fields.value);
        r := Integrated(FinalReport(GetOr(records.value.0, "song_id", JStr("")), ReportSource, fields.value, summary));
      }
    }
  }

  /** The `summary` of the fields: walk them with fresh counters. */
  method Summarize(f: Fields) returns (summary: Summary)
    ensures summary == SummaryOf(Counted(FieldsTree(f)))
  {
    var counter := new StatusCounter();
    counter.Count(FieldsTree(f));
    summary := SummaryOf(counter.Tallies());
  }

  /**
   * A report counts the six fields and each credit role once, and its
   * confidence score lies in [0, 1].
   */
  lemma ReportSummary(sim: Ratio, show: Show, parse: Parser, data: Json, cover: string, report: FinalReport)
    requires ReportOf(sim, show, parse, data, cover, report)
    requires forall i :: 0 <= i < |report.fields.credits| ==> report.fields.credits[i].0 != "status"
    ensures report.summary.total == 6 + |report.fields.credits|
    ensures var (n, s, q) := Records(data).value;
      report.summary.total == 6 + |AllRoles(CreditsOf(n), CreditsOf(s), CreditsOf(q))|
    ensures report.summary.confirmed + report.summary.questionable + report.summary.notFound == report.summary.total
    ensures 0.0 <= report.summary.confidenceScore <= 1.0
  {
    var (n, s, q) := Records(data).value;
    ResultCoversUnion(ListCompare(sim, show), CreditsOf(n), CreditsOf(s), CreditsOf(q), report.fields.credits);
    ReportTotal(report.fields);
    ScoreInUnitInterval(FieldsTree(report.fields));
  }
}
