/**
 * The normalisation helpers of normalize_data.py: canonical strings,
 * artist lists and credit roles. A Python exception raised inside a helper
 * (calling `.lower()` on a value that is not a string) is a `None` result;
 * the node's `main`, which is not part of this model, catches it.
 */
module Normalize {
  import opened Wrappers
  import opened Json
  import opened Strings

  /** A string in canonical form: lower case, stripped, single-spaced. */
  predicate Canonical(s: string) {
    NoUpper(s) && Stripped(s) && SingleSpaced(s)
  }

  /** `normalize_string` of a string: lower-case, strip, collapse whitespace runs. */
  function NormalizeString(s: string): string {
    if s == [] then [] else CollapseSpaces(Strip(Lower(s)))
  }

  /** `normalize_string` yields "" for "" and otherwise a lower-case, stripped, single-spaced string. */
  lemma NormalizeCanonical(s: string)
    ensures s == [] ==> NormalizeString(s) == []
    ensures Canonical(NormalizeString(s))
  {
    if s != [] {
      var l := Lower(s);
      assert NoUpper(l);
      StripShape(l);
      CollapseSpacesShape(Strip(l));
    }
  }

  /** `normalize_string` is idempotent. */
  lemma NormalizeIdempotent(s: string)
    ensures NormalizeString(NormalizeString(s)) == NormalizeString(s)
  {
    var r := NormalizeString(s);
    NormalizeCanonical(s);
    if r != [] {
      LowerOfNoUpper(r);
      StripOfStripped(r);
      CollapseOfSingleSpaced(r);
    }
  }

  /**
   * `normalize_string(v)` of an arbitrary value: a falsy value gives "",
   * a string is normalised, any other value raises (`None`).
   */
  function NormalizeValue(v: Json): (r: Option<string>)
    ensures !Truthy(v) ==> r == Some([])
    ensures v.JStr? ==> r == Some(NormalizeString(v.s))
    ensures Truthy(v) && !v.JStr? ==> r.None?
  {
    if !Truthy(v) then Some([])
    else if v.JStr? then Some(NormalizeString(v.s))
    else None
  }

  /**
   * A value that `normalize_string` accepts becomes a canonical string,
   * which a second `normalize_string` leaves as it is.
   */
  lemma NormalizeValueCanonical(v: Json)
    ensures NormalizeValue(v).Some? ==> Canonical(NormalizeValue(v).value)
    ensures NormalizeValue(v).Some? ==> NormalizeString(NormalizeValue(v).value) == NormalizeValue(v).value
  {
    if v.JStr? {
      NormalizeCanonical(v.s);
      NormalizeIdempotent(v.s);
    }
  }

  /** `[normalize_string(x) for x in xs]` for strings. */
  function NormalizeAll(xs: seq<string>): (r: seq<string>)
    ensures |r| == |xs|
    ensures forall i :: 0 <= i < |xs| ==> r[i] == NormalizeString(xs[i])
  {
    seq(|xs|, i requires 0 <= i < |xs| => NormalizeString(xs[i]))
  }

  /** `[normalize_string(v) for v in vs]` for arbitrary values; `None` if one raises. */
  function NormalizeValues(vs: seq<Json>): Option<seq<string>> {
    if vs == [] then Some([])
    else match (NormalizeValue(vs[0]), NormalizeValues(vs[1..]))
      case (Some(x), Some(rest)) => Some([x] + rest)
      case _ => None
  }

  /** Normalising a list succeeds exactly when every element normalises, and then element by element. */
  lemma {:induction false} NormalizeValuesSpec(vs: seq<Json>)
    ensures var r := NormalizeValues(vs);
      && (r.Some? <==> forall i :: 0 <= i < |vs| ==> NormalizeValue(vs[i]).Some?)
      && (r.Some? ==> |r.value| == |vs| && forall i :: 0 <= i < |vs| ==> Some(r.value[i]) == NormalizeValue(vs[i]))
  {
    if vs != [] {
      NormalizeValuesSpec(vs[1..]);
      assert forall i :: 1 <= i < |vs| ==> vs[i] == vs[1..][i - 1];
    }
  }

  // ---- normalize_artists ----

  /**
   * The name one list element contributes: a string its normalised self, a
   * dict its normalised 'name' (default ''), any other element nothing.
   * The outer `None` is an exception (a 'name' that is truthy and not a string).
   */
  function ArtistEntry(x: Json): Option<Option<string>> {
    match x
    case JStr(s) => Some(Some(NormalizeString(s)))
    case JObj(entries) =>
      (match NormalizeValue(GetOr(entries, "name", JStr(""))) case Some(n) => Some(Some(n)) case None => None)
    case _ => Some(None)
  }

  /** The names the elements `xs` contribute, in order; `None` if one raises. */
  function ArtistNames(xs: seq<Json>): Option<seq<string>>
  {
    if xs == [] then Some([])
    else match (ArtistEntry(xs[|xs| - 1]), ArtistNames(xs[..|xs| - 1]))
      case (Some(Some(n)), Some(ns)) => Some(ns + [n])
      case (Some(None), Some(ns)) => Some(ns)
      case _ => None
  }

  /** The separators of a single artist string, in the order they are tried. */
  const ArtistSeparators: seq<char> := ['/', ',', '、', ';']

  /** The first of `seps`, in order, that occurs in `s`. */
  function FirstSeparator(seps: seq<char>, s: string): (r: Option<char>)
    ensures r.Some? ==> r.value in seps && r.value in s
    ensures r.None? ==> forall c :: c in seps ==> c !in s
  {
    if seps == [] then None
    else if seps[0] in s then Some(seps[0])
    else FirstSeparator(seps[1..], s)
  }

  /**
   * The separator chosen is the earliest of `seps` that occurs in `s`: every
   * separator listed before it is absent.
   */
  lemma {:induction false} FirstSeparatorIsFirst(seps: seq<char>, s: string)
    ensures FirstSeparator(seps, s).Some? ==>
      exists i :: 0 <= i < |seps| && seps[i] == FirstSeparator(seps, s).value && seps[i] in s
                  && forall j :: 0 <= j < i ==> seps[j] !in s
  {
    if seps != [] && seps[0] !in s {
      FirstSeparatorIsFirst(seps[1..], s);
      if FirstSeparator(seps, s).Some? {
        var i :| 0 <= i < |seps[1..]| && seps[1..][i] == FirstSeparator(seps, s).value && seps[1..][i] in s
                 && forall j :: 0 <= j < i ==> seps[1..][j] !in s;
        assert forall j :: 0 <= j < i + 1 ==> seps[j] !in s by {
          forall j | 0 <= j < i + 1 ensures seps[j] !in s {
            if j > 0 { assert seps[j] == seps[1..][j - 1]; }
          }
        }
      }
    }
  }

  /** What `normalize_artists` returns for a single artist string. */
  function SplitArtists(s: string): seq<string> {
    match FirstSeparator(ArtistSeparators, s)
    case Some(c) => Sort(NormalizeAll(SplitOn(s, {c})))
    case None => [NormalizeString(s)]
  }

  /**
   * `normalize_artists`: a falsy input or one that is neither a list nor a
   * string gives []; a list gives the sorted names of its string and dict
   * elements; a string is split on the first separator present.
   */
  method NormalizeArtists(artists: Json) returns (r: Option<seq<string>>)
    ensures !Truthy(artists) || !(artists.JArr? || artists.JStr?) ==> r == Some([])
    ensures Truthy(artists) && artists.JArr? ==>
              r == (match ArtistNames(artists.items) case Some(ns) => Some(Sort(ns)) case None => None)
    ensures Truthy(artists) && artists.JStr? ==> r == Some(SplitArtists(artists.s))
    ensures r.Some? ==> Sorted(r.value)
  {
    if !Truthy(artists) {
      return Some([]);
    }
    if artists.JArr? {
      var names := CollectArtistNames(artists.items);
      if names.None? {
        return None;
      }
      return Some(Sort(names.value));
    }
    if artists.JStr? {
      var s := artists.s;
      for k := 0 to |ArtistSeparators|
        invariant FirstSeparator(ArtistSeparators[k..], s) == FirstSeparator(ArtistSeparators, s)
      {
        var separator := ArtistSeparators[k];
        if separator in s {
          return Some(Sort(NormalizeAll(SplitOn(s, {separator}))));
        }
      }
      return Some([NormalizeString(s)]);
    }
    return Some([]);
  }

  /** The loop of `normalize_artists` over a list, before sorting. */
  method CollectArtistNames(items: seq<Json>) returns (r: Option<seq<string>>)
    ensures r == ArtistNames(items)
  {
    var result: seq<string> := [];
    for i := 0 to |items|
      invariant ArtistNames(items[..i]) == Some(result)
    {
      assert items[..i + 1][..i] == items[..i];
      var item := items[i];
      if item.JStr? {
        result := result + [NormalizeString(item.s)];
      } else if item.JObj? {
        var name := NormalizeValue(GetOr(item.entries, "name", JStr("")));
        if name.None? {
          assert ArtistNames(items[..i + 1]).None?;
          ArtistNamesRaises(items, i + 1);
          return None;
        }
        result := result + [name.value];
      }
    }
    assert items[..|items|] == items;
    return Some(result);
  }

  /** Once one element raises, so does every longer prefix. */
  lemma {:induction false} ArtistNamesRaises(xs: seq<Json>, n: nat)
    requires n <= |xs| && ArtistNames(xs[..n]).None?
    ensures ArtistNames(xs).None?
    decreases |xs| - n
  {
    if n < |xs| {
      assert xs[..n + 1][..n] == xs[..n];
      ArtistNamesRaises(xs, n + 1);
    } else {
      assert xs[..n] == xs;
    }
  }

  // ---- normalize_credits ----

  /** The six standard credit roles and the aliases that map to each, in order. */
  const FieldMapping: seq<(string, seq<string>)> := [
    ("lyricist", ["lyricist", "lyrics", "writer", "written by", "作词", "词"]),
    ("composer", ["composer", "composition", "music", "composed by", "作曲", "曲"]),
    ("arranger", ["arranger", "arrangement", "arranged by", "编曲"]),
    ("producer", ["producer", "produced by", "制作人", "监制"]),
    ("mixer", ["mixer", "mixing", "mixed by", "混音"]),
    ("mastering", ["mastering", "mastered by", "母带", "母带工程师"])
  ]

  /** The standard role names: lyricist, composer, arranger, producer, mixer, mastering. */
  const StandardKeys: set<string> := set i | 0 <= i < |FieldMapping| :: FieldMapping[i].0

  /** The separators of a credit string, `re.split(r'[,/、;]', value)`. */
  const CreditSeparators: set<char> := {',', '/', '、', ';'}

  /** The index of the first credit entry whose normalised key is one of `aliases`, or the length. */
  function MatchIndex(entries: seq<(string, Json)>, aliases: seq<string>): (r: nat)
    ensures r <= |entries|
    ensures r < |entries| ==> NormalizeString(entries[r].0) in aliases
    ensures forall j :: 0 <= j < r ==> NormalizeString(entries[j].0) !in aliases
  {
    if entries == [] then 0
    else if NormalizeString(entries[0].0) in aliases then 0
    else 1 + MatchIndex(entries[1..], aliases)
  }

  /**
   * The names a matched credit value yields: a list's normalised elements,
   * or a string's normalised pieces, sorted; any other value yields nothing
   * (`Some(None)`); `None` when normalising an element raises.
   */
  function RoleNames(value: Json): Option<Option<seq<string>>> {
    match value
    case JArr(items) =>
      (match NormalizeValues(items) case Some(ns) => Some(Some(Sort(ns))) case None => None)
    case JStr(s) => Some(Some(Sort(NormalizeAll(SplitOn(s, CreditSeparators)))))
    case _ => Some(None)
  }

  /** The credits `normalize_credits` builds: standard role name to sorted, normalised names. */
  type Credits = map<string, seq<string>>

  /**
   * What one role comes to: `None` when normalising raises, `Some(None)`
   * when the role is left unassigned, `Some(Some(names))` when it gets `names`.
   */
  type Outcome = Option<Option<seq<string>>>

  /** The outcome of one role: decided by the first entry whose normalised key is one of `aliases`. */
  function RoleOutcome(entries: seq<(string, Json)>, aliases: seq<string>): Outcome {
    var idx := MatchIndex(entries, aliases);
    if idx == |entries| then Some(None) else RoleNames(entries[idx].1)
  }

  /** Recording one role's outcome under `key`. */
  function Apply(acc: Credits, key: string, o: Outcome): Option<Credits> {
    match o
    case None => None
    case Some(None) => Some(acc)
    case Some(Some(ns)) => Some(acc[key := ns])
  }

  /** The roles of `mapping`, each paired with its outcome on `entries`. */
  function Outcomes(entries: seq<(string, Json)>, mapping: seq<(string, seq<string>)>): seq<(string, Outcome)> {
    seq(|mapping|, i requires 0 <= i < |mapping| => (mapping[i].0, RoleOutcome(entries, NormalizeAll(mapping[i].1))))
  }

  /** The credits after the role outcomes were recorded, in order. */
  function ApplyAll(outcomes: seq<(string, Outcome)>): Option<Credits>
    decreases |outcomes|
  {
    if outcomes == [] then Some(map[])
    else match ApplyAll(outcomes[..|outcomes| - 1])
      case None => None
      case Some(acc) => Apply(acc, outcomes[|outcomes| - 1].0, outcomes[|outcomes| - 1].1)
  }

  /** `normalize_credits` of a dict's entries. */
  function CreditsOf(entries: seq<(string, Json)>): Option<Credits> {
    ApplyAll(Outcomes(entries, FieldMapping))
  }

  /**
   * `normalize_credits`: {} for a falsy or non-dict input; otherwise, for
   * each standard role in turn, the first credit entry whose normalised key
   * is one of the role's aliases decides that role.
   */
  method NormalizeCredits(credits: Json) returns (r: Option<Credits>)
    ensures !Truthy(credits) || !credits.JObj? ==> r == Some(map[])
    ensures Truthy(credits) && credits.JObj? ==> r == CreditsOf(credits.entries)
  {
    if !Truthy(credits) || !credits.JObj? {
      return Some(map[]);
    }
    r := AssignRoles(credits.entries, FieldMapping);
  }

  /** The loop of `normalize_credits` over the roles of `mapping`, in order. */
  method AssignRoles(entries: seq<(string, Json)>, mapping: seq<(string, seq<string>)>) returns (r: Option<Credits>)
    ensures r == ApplyAll(Outcomes(entries, mapping))
  {
    var normalized: Credits := map[];
    for m := 0 to |mapping|
      invariant ApplyAll(Outcomes(entries, mapping[..m])) == Some(normalized)
    {
      var next := AssignNext(entries, mapping, m, normalized);
      match next
      case None => return None;
      case Some(n) => normalized := n;
    }
    assert mapping[..|mapping|] == mapping;
    return Some(normalized);
  }

  /**
   * One pass of the role loop: role number `m` of `mapping` is looked up and
   * recorded; when that raises, so does the whole loop.
   */
  method AssignNext(entries: seq<(string, Json)>, mapping: seq<(string, seq<string>)>, m: nat, normalized: Credits)
    returns (next: Option<Credits>)
    requires m < |mapping| && ApplyAll(Outcomes(entries, mapping[..m])) == Some(normalized)
    ensures next == ApplyAll(Outcomes(entries, mapping[..m + 1]))
    ensures next.None? ==> ApplyAll(Outcomes(entries, mapping)).None?
  {
    var standardKey := mapping[m].0;
    var aliases := NormalizeAll(mapping[m].1);
    next := AssignRole(entries, standardKey, aliases, normalized);
    OutcomesPrefix(entries, mapping, m + 1);
    OutcomesPrefix(entries, mapping, m);
    ghost var outcomes := Outcomes(entries, mapping);
    assert outcomes[..m + 1][..m] == outcomes[..m];
    assert outcomes[m] == (standardKey, RoleOutcome(entries, aliases));
    if next.None? {
      NoCreditsAfterRaise(outcomes, m + 1);
    }
  }

  /** The outcomes of the first `m` roles are the first `m` outcomes. */
  lemma OutcomesPrefix(entries: seq<(string, Json)>, mapping: seq<(string, seq<string>)>, m: nat)
    requires m <= |mapping|
    ensures Outcomes(entries, mapping[..m]) == Outcomes(entries, mapping)[..m]
  {
  }

  /**
   * The inner loop of `normalize_credits` for one role: scan the credit
   * entries, and at the first whose normalised key is an alias assign the
   * role from its value, then stop.
   */
  method AssignRole(entries: seq<(string, Json)>, standardKey: string, aliases: seq<string>, normalized: Credits)
    returns (r: Option<Credits>)
    ensures r == Apply(normalized, standardKey, RoleOutcome(entries, aliases))
  {
    r := Some(normalized);
    var i := 0;
    while i < |entries|
      invariant i <= MatchIndex(entries, aliases)
    {
      var key := entries[i].0;
      var value := entries[i].1;
      if NormalizeString(key) in aliases {
        if value.JArr? {
          var names := NormalizeValues(value.items);
          if names.None? {
            return None;
          }
          r := Some(normalized[standardKey := Sort(names.value)]);
        } else if value.JStr? {
          var names := NormalizeAll(SplitOn(value.s, CreditSeparators));
          r := Some(normalized[standardKey := Sort(names)]);
        }
        return;
      }
      MatchIndexStep(entries, aliases, i);
      i := i + 1;
    }
  }

  lemma MatchIndexStep(entries: seq<(string, Json)>, aliases: seq<string>, i: nat)
    requires i < |entries| && i <= MatchIndex(entries, aliases) && NormalizeString(entries[i].0) !in aliases
    ensures i + 1 <= MatchIndex(entries, aliases)
  {
  }

  /** Once a role raises, the whole call raises. */
  lemma {:induction false} NoCreditsAfterRaise(outcomes: seq<(string, Outcome)>, m: nat)
    requires m <= |outcomes| && ApplyAll(outcomes[..m]).None?
    ensures ApplyAll(outcomes).None?
    decreases |outcomes| - m
  {
    if m < |outcomes| {
      assert outcomes[..m + 1][..m] == outcomes[..m];
      NoCreditsAfterRaise(outcomes, m + 1);
    } else {
      assert outcomes[..m] == outcomes;
    }
  }

  /** The credits only ever hold roles whose outcome was recorded. */
  lemma {:induction false} KeysFromOutcomes(outcomes: seq<(string, Outcome)>)
    requires ApplyAll(outcomes).Some?
    ensures forall k :: k in ApplyAll(outcomes).value ==> exists i :: 0 <= i < |outcomes| && outcomes[i].0 == k
    decreases |outcomes|
  {
    if outcomes != [] {
      var front := outcomes[..|outcomes| - 1];
      KeysFromOutcomes(front);
      var acc := ApplyAll(front).value;
      forall k | k in ApplyAll(outcomes).value ensures exists i :: 0 <= i < |outcomes| && outcomes[i].0 == k {
        if k in acc {
          var i :| 0 <= i < |front| && front[i].0 == k;
          assert outcomes[i].0 == k;
        } else {
          assert outcomes[|outcomes| - 1].0 == k;
        }
      }
    }
  }

  /** `normalize_credits` only ever produces the six standard roles. */
  lemma CreditsKeysStandard(entries: seq<(string, Json)>)
    requires CreditsOf(entries).Some?
    ensures CreditsOf(entries).value.Keys <= StandardKeys
  {
    var outcomes := Outcomes(entries, FieldMapping);
    KeysFromOutcomes(outcomes);
    forall k | k in CreditsOf(entries).value ensures k in StandardKeys {
      var i :| 0 <= i < |FieldMapping| && outcomes[i].0 == k;
      assert FieldMapping[i].0 == k;
    }
  }

  /** A role whose name no recorded outcome carries is absent. */
  lemma {:induction false} RoleAbsent(outcomes: seq<(string, Outcome)>, key: string)
    requires ApplyAll(outcomes).Some?
    requires forall i :: 0 <= i < |outcomes| ==> outcomes[i].0 != key
    ensures key !in ApplyAll(outcomes).value
    decreases |outcomes|
  {
    if outcomes != [] {
      RoleAbsent(outcomes[..|outcomes| - 1], key);
    }
  }

  /**
   * For distinct role names, each role ends up as its own outcome says:
   * present with exactly its names, or absent when left unassigned.
   */
  lemma {:induction false} RoleAsDecided(outcomes: seq<(string, Outcome)>, k: nat)
    requires k < |outcomes| && ApplyAll(outcomes).Some?
    requires forall i, j :: 0 <= i < j < |outcomes| ==> outcomes[i].0 != outcomes[j].0
    ensures outcomes[k].1.Some?
    ensures outcomes[k].1 == Some(None) ==> outcomes[k].0 !in ApplyAll(outcomes).value
    ensures outcomes[k].1.Some? && outcomes[k].1.value.Some? ==>
      outcomes[k].0 in ApplyAll(outcomes).value && ApplyAll(outcomes).value[outcomes[k].0] == outcomes[k].1.value.value
    decreases |outcomes|
  {
    var front := outcomes[..|outcomes| - 1];
    if k < |front| {
      RoleAsDecided(front, k);
      assert outcomes[k].0 != outcomes[|outcomes| - 1].0;
    } else {
      RoleAbsent(front, outcomes[k].0);
    }
  }

  /** The six standard role names are distinct. */
  lemma FieldMappingDistinct()
    ensures forall i, j :: 0 <= i < j < |FieldMapping| ==> FieldMapping[i].0 != FieldMapping[j].0
  {
  }

  /**
   * First matching key wins: for each role of a mapping with distinct role
   * names, the first credit entry (in dict order) whose normalised key is
   * one of the role's normalised aliases decides it. A list or string value
   * gives exactly its sorted, normalised names; no match, or a match holding
   * another value, leaves the role out.
   */
  lemma FirstKeyWins(entries: seq<(string, Json)>, mapping: seq<(string, seq<string>)>, k: nat)
    requires k < |mapping| && ApplyAll(Outcomes(entries, mapping)).Some?
    requires forall i, j :: 0 <= i < j < |mapping| ==> mapping[i].0 != mapping[j].0
    ensures var idx := MatchIndex(entries, NormalizeAll(mapping[k].1));
      var out := ApplyAll(Outcomes(entries, mapping)).value;
      && (idx == |entries| ==> mapping[k].0 !in out)
      && (idx < |entries| ==> RoleNames(entries[idx].1).Some?)
      && (idx < |entries| && RoleNames(entries[idx].1) == Some(None) ==> mapping[k].0 !in out)
      && (idx < |entries| && RoleNames(entries[idx].1).Some? && RoleNames(entries[idx].1).value.Some? ==>
            mapping[k].0 in out && out[mapping[k].0] == RoleNames(entries[idx].1).value.value)
  {
    var outcomes := Outcomes(entries, mapping);
    assert forall i, j :: 0 <= i < j < |outcomes| ==> outcomes[i].0 != outcomes[j].0;
    RoleAsDecided(outcomes, k);
    assert outcomes[k] == (mapping[k].0, RoleOutcome(entries, NormalizeAll(mapping[k].1)));
  }

  /** `normalize_credits` decides each of the six standard roles by the first matching key. */
  lemma CreditsFirstKeyWins(entries: seq<(string, Json)>, k: nat)
    requires k < |FieldMapping| && CreditsOf(entries).Some?
    ensures var idx := MatchIndex(entries, NormalizeAll(FieldMapping[k].1));
      var out := CreditsOf(entries).value;
      && (idx == |entries| ==> FieldMapping[k].0 !in out)
      && (idx < |entries| && RoleNames(entries[idx].1) == Some(None) ==> FieldMapping[k].0 !in out)
      && (idx < |entries| && RoleNames(entries[idx].1).Some? && RoleNames(entries[idx].1).value.Some? ==>
            FieldMapping[k].0 in out && out[FieldMapping[k].0] == RoleNames(entries[idx].1).value.value)
  {
    FieldMappingDistinct();
    FirstKeyWins(entries, FieldMapping, k);
  }
}
