/**
 * Text similarity. Python's `difflib.SequenceMatcher(None, a, b).ratio()` is
 * not modelled; every operation that needs it receives it as a parameter
 * `sim`, and the two facts the callers rely on are stated as predicates that
 * the lemmas needing them require.
 */
module Similarity {
  import opened Strings

  /** `SequenceMatcher(None, a, b).ratio()` on the exact strings given. */
  type Ratio = (string, string) -> real

  /** A ratio always lies between 0 and 1. */
  ghost predicate InUnitInterval(sim: Ratio) {
    forall a, b :: 0.0 <= sim(a, b) <= 1.0
  }

  /** A non-empty string is identical to itself. */
  ghost predicate SelfSimilar(sim: Ratio) {
    forall a :: a != [] ==> sim(a, a) == 1.0
  }

  /**
   * `similarity_ratio` of consolidate.py: 0 when either side is empty,
   * otherwise the ratio of the lower-cased strings.
   */
  function GuardedRatio(sim: Ratio, a: string, b: string): (r: real)
    ensures a == [] || b == [] ==> r == 0.0
    ensures InUnitInterval(sim) ==> 0.0 <= r <= 1.0
  {
    if a == [] || b == [] then 0.0 else sim(Lower(a), Lower(b))
  }

  /** `similarity_ratio` of find_match.py: lower-case and strip both sides, no empty guard. */
  function StrippedRatio(sim: Ratio, a: string, b: string): (r: real)
    ensures InUnitInterval(sim) ==> 0.0 <= r <= 1.0
  {
    sim(Strip(Lower(a)), Strip(Lower(b)))
  }

  /** A non-empty value compared with itself by the guarded ratio scores 1. */
  lemma GuardedRatioSelf(sim: Ratio, a: string)
    requires SelfSimilar(sim) && a != []
    ensures GuardedRatio(sim, a, a) == 1.0
  {
    assert Lower(a) != [];
  }
}
