/**
 * `compare_credits` of consolidate.py: the list variant of `compare_field`
 * on every credit role any of the three sources names.
 *
 * The node loops over a Python `set` of role names, whose iteration order
 * is a hash order. The method picks the roles in an arbitrary order, and
 * its contract holds for every order: the result has one entry per role of
 * the union, each holding that role's comparison.
 */
module Credits {
  import opened Wrappers
  import opened Json
  import opened Similarity
  import opened FieldCheck

  /** The role names of a credits dict: `set(d.keys())`. */
  function RoleNames(entries: seq<(string, Json)>): (r: set<string>)
    ensures forall k :: k in r <==> HasKey(entries, k)
  {
    set i | 0 <= i < |entries| :: entries[i].0
  }

  /** `d.get(role)`: the value of the role, or `None` when it is missing. */
  function RoleValue(entries: seq<(string, Json)>, role: string): Json {
    GetOr(entries, role, JNull)
  }

  /** The three inputs are dicts; on anything else `.keys()` raises `AttributeError`. */
  predicate AllDicts(netease: Json, spotify: Json, qqmusic: Json) {
    netease.JObj? && spotify.JObj? && qqmusic.JObj?
  }

  /** The union of the three sets of role names. */
  function AllRoles(netease: Json, spotify: Json, qqmusic: Json): set<string>
    requires AllDicts(netease, spotify, qqmusic)
  {
    RoleNames(netease.entries) + RoleNames(spotify.entries) + RoleNames(qqmusic.entries)
  }

  /**
   * The comparison applied to each role: `compare_field(..., "list")`,
   * which is `ListCompare`. The loop is stated for any comparison so that
   * its proof does not depend on how one role is compared.
   */
  type RoleCompare = (Json, Json, Json) -> Option<FieldReport>

  /** The list variant of `compare_field`, or `None` when it raises. */
  function ListCompare(sim: Ratio, show: Show): RoleCompare {
    (primary, spotify, qqmusic) => FieldSpec(sim, show, ListField, primary, spotify, qqmusic)
  }

  /** The comparison of one role, or `None` when it raises. */
  function RoleReport(compare: RoleCompare, netease: Json, spotify: Json, qqmusic: Json, role: string): Option<FieldReport>
    requires AllDicts(netease, spotify, qqmusic)
  {
    compare(RoleValue(netease.entries, role), RoleValue(spotify.entries, role), RoleValue(qqmusic.entries, role))
  }

  /** `compare_credits` raises: an input is not a dict, or the comparison of some role raises. */
  predicate CreditsRaise(compare: RoleCompare, netease: Json, spotify: Json, qqmusic: Json) {
    !AllDicts(netease, spotify, qqmusic) ||
    exists role :: role in AllRoles(netease, spotify, qqmusic) && RoleReport(compare, netease, spotify, qqmusic, role).None?
  }

  /** The role names of a result, in order. */
  function ResultRoles(result: seq<(string, FieldReport)>): set<string> {
    set i | 0 <= i < |result| :: result[i].0
  }

  /** Every role appears at most once in the result. */
  predicate DistinctRoles(result: seq<(string, FieldReport)>) {
    forall i, j :: 0 <= i < j < |result| ==> result[i].0 != result[j].0
  }

  /**
   * A result of `compare_credits`, in some iteration order: one entry per
   * role of the union, each the role's comparison.
   */
  predicate CreditsResult(compare: RoleCompare, netease: Json, spotify: Json, qqmusic: Json,
                          result: seq<(string, FieldReport)>)
    requires AllDicts(netease, spotify, qqmusic)
  {
    && DistinctRoles(result)
    && ResultRoles(result) == AllRoles(netease, spotify, qqmusic)
    && forall i :: 0 <= i < |result| ==>
         RoleReport(compare, netease, spotify, qqmusic, result[i].0) == Some(result[i].1)
  }

  /**
   * The loop's state: the roles still to compare are part of the union,
   * and the result so far holds one comparison for each of the others.
   */
  predicate Progress(compare: RoleCompare, netease: Json, spotify: Json, qqmusic: Json,
                     remaining: set<string>, result: seq<(string, FieldReport)>)
    requires AllDicts(netease, spotify, qqmusic)
  {
    && remaining <= AllRoles(netease, spotify, qqmusic)
    && DistinctRoles(result)
    && ResultRoles(result) == AllRoles(netease, spotify, qqmusic) - remaining
    && forall i :: 0 <= i < |result| ==>
         RoleReport(compare, netease, spotify, qqmusic, result[i].0) == Some(result[i].1)
  }

  /**
   * `compare_credits`, role by role in an arbitrary order; `None` when it
   * raises.
   */
  method CompareCredits(compare: RoleCompare, netease: Json, spotify: Json, qqmusic: Json)
    returns (r: Option<seq<(string, FieldReport)>>)
    ensures r.None? <==> CreditsRaise(compare, netease, spotify, qqmusic)
    ensures r.Some? ==> CreditsResult(compare, netease, spotify, qqmusic, r.value)
  {
    if !AllDicts(netease, spotify, qqmusic) {
      return None;
    }
    var remaining := AllRoles(netease, spotify, qqmusic);
    var result := [];
    while remaining != {}
      invariant Progress(compare, netease, spotify, qqmusic, remaining, result)
      decreases |remaining|
    {
      var role :| role in remaining;
      var report := compare(RoleValue(netease.entries, role), RoleValue(spotify.entries, role),
                            RoleValue(qqmusic.entries, role));
      if report.None? {
        RoleRaises(compare, netease, spotify, qqmusic, role);
        return None;
      }
      ProgressStep(compare, netease, spotify, qqmusic, remaining, result, role, report.value);
      result := result + [(role, report.value)];
      remaining := remaining - {role};
    }
    ProgressDone(compare, netease, spotify, qqmusic, result);
    return Some(result);
  }

  /** Comparing one more role keeps the loop's state. */
  lemma ProgressStep(compare: RoleCompare, netease: Json, spotify: Json, qqmusic: Json,
                     remaining: set<string>, result: seq<(string, FieldReport)>, role: string, report: FieldReport)
    requires AllDicts(netease, spotify, qqmusic) && Progress(compare, netease, spotify, qqmusic, remaining, result)
    requires role in remaining && RoleReport(compare, netease, spotify, qqmusic, role) == Some(report)
    ensures Progress(compare, netease, spotify, qqmusic, remaining - {role}, result + [(role, report)])
  {
    ExtendResult(result, role, report);
  }

  /** Once no role remains, the result is complete and nothing raised. */
  lemma ProgressDone(compare: RoleCompare, netease: Json, spotify: Json, qqmusic: Json, result: seq<(string, FieldReport)>)
    requires AllDicts(netease, spotify, qqmusic) && Progress(compare, netease, spotify, qqmusic, {}, result)
    ensures CreditsResult(compare, netease, spotify, qqmusic, result)
    ensures !CreditsRaise(compare, netease, spotify, qqmusic)
  {
    AllRolesCompared(compare, netease, spotify, qqmusic, result);
  }

  /** One role whose comparison raises makes `compare_credits` raise. */
  lemma RoleRaises(compare: RoleCompare, netease: Json, spotify: Json, qqmusic: Json, role: string)
    requires AllDicts(netease, spotify, qqmusic) && role in AllRoles(netease, spotify, qqmusic)
    requires RoleReport(compare, netease, spotify, qqmusic, role).None?
    ensures CreditsRaise(compare, netease, spotify, qqmusic)
  {
  }

  /** A result holding a comparison for every role of the union means nothing raised. */
  lemma AllRolesCompared(compare: RoleCompare, netease: Json, spotify: Json, qqmusic: Json,
                         result: seq<(string, FieldReport)>)
    requires AllDicts(netease, spotify, qqmusic) && ResultRoles(result) == AllRoles(netease, spotify, qqmusic)
    requires forall i :: 0 <= i < |result| ==> RoleReport(compare, netease, spotify, qqmusic, result[i].0) == Some(result[i].1)
    ensures !CreditsRaise(compare, netease, spotify, qqmusic)
  {
    forall role | role in AllRoles(netease, spotify, qqmusic)
      ensures RoleReport(compare, netease, spotify, qqmusic, role).Some?
    {
      var i :| 0 <= i < |result| && result[i].0 == role;
    }
  }

  /** The role names after appending an entry. */
  lemma RolesSnoc(result: seq<(string, FieldReport)>, e: (string, FieldReport))
    ensures ResultRoles(result + [e]) == ResultRoles(result) + {e.0}
  {
    var r := result + [e];
    forall k | k in ResultRoles(r) ensures k in ResultRoles(result) + {e.0} {
      var i :| 0 <= i < |r| && r[i].0 == k;
      if i < |result| { assert result[i] == r[i]; }
    }
    forall k | k in ResultRoles(result) + {e.0} ensures k in ResultRoles(r) {
      if k == e.0 {
        assert r[|result|].0 == k;
      } else {
        var i :| 0 <= i < |result| && result[i].0 == k;
        assert r[i] == result[i];
      }
    }
  }

  /** Appending a new role keeps the roles distinct and adds it to the role names. */
  lemma ExtendResult(result: seq<(string, FieldReport)>, role: string, report: FieldReport)
    requires DistinctRoles(result) && role !in ResultRoles(result)
    ensures DistinctRoles(result + [(role, report)])
    ensures ResultRoles(result + [(role, report)]) == ResultRoles(result) + {role}
  {
    var r := result + [(role, report)];
    forall i | 0 <= i < |result|
      ensures r[i].0 != role
    {
      assert result[i].0 in ResultRoles(result);
    }
    RolesSnoc(result, (role, report));
  }

  // ---- what the result promises ----

  /** The result has exactly as many entries as the union has roles. */
  lemma ResultCoversUnion(compare: RoleCompare, netease: Json, spotify: Json, qqmusic: Json,
                          result: seq<(string, FieldReport)>)
    requires AllDicts(netease, spotify, qqmusic) && CreditsResult(compare, netease, spotify, qqmusic, result)
    ensures |result| == |AllRoles(netease, spotify, qqmusic)|
  {
    DistinctCard(result);
  }

  /** A sequence of distinct roles has as many entries as role names. */
  lemma {:induction false} DistinctCard(result: seq<(string, FieldReport)>)
    requires DistinctRoles(result)
    ensures |ResultRoles(result)| == |result|
  {
    if result != [] {
      var init, last := result[..|result| - 1], result[|result| - 1];
      assert result == init + [last];
      forall i | 0 <= i < |init| ensures init[i].0 != last.0 && init[i] == result[i] {
      }
      DistinctCard(init);
      RolesSnoc(init, last);
    }
  }

  /**
   * A role that only a secondary source names is not found: the NetEase
   * value `None` is falsy, so the role is reported without comparison.
   */
  lemma SecondaryOnlyRoleNotFound(sim: Ratio, show: Show, netease: Json, spotify: Json, qqmusic: Json, role: string)
    requires AllDicts(netease, spotify, qqmusic) && !HasKey(netease.entries, role)
    ensures RoleReport(ListCompare(sim, show), netease, spotify, qqmusic, role) == Some(FieldReport(JNull, NotFound, [], None, None))
  {
    LookupFound(netease.entries, role);
  }
}
