// The priority score of src/utils/mod.rs. Scores are `u64` keys of the
// prioritized set, popped from the least.
module Scores {
  import opened Words

  /** `(priority << 32) + (counter & 0xffff_ffff_ffff)` in 64 bits. */
  function Score(priority: nat, counter: nat): nat {
    (priority * TWO32 % TWO64 + counter % TWO48) % TWO64
  }

  /** Below 2^32 the score is the pair itself, so distinct pairs never share a key. */
  lemma ScoreIsPair(p: nat, c: nat)
    requires p < TWO32 && c < TWO32
    ensures Score(p, c) == p * TWO32 + c
    ensures Score(p, c) / TWO32 == p && Score(p, c) % TWO32 == c
  {
  }

  /** Scores order lexicographically by (priority, arrival). */
  lemma ScoreOrder(p: nat, c: nat, q: nat, d: nat)
    requires p < TWO32 && c < TWO32 && q < TWO32 && d < TWO32
    ensures Score(p, c) < Score(q, d) <==> p < q || (p == q && c < d)
    ensures Score(p, c) == Score(q, d) <==> p == q && c == d
  {
    ScoreIsPair(p, c);
    ScoreIsPair(q, d);
  }

  /** The sum leaves 64 bits. */
  predicate Wraps(priority: nat, counter: nat) {
    priority % TWO32 * TWO32 + counter % TWO48 >= TWO64
  }

  /**
    * The exact order of any two scores, from what the shift keeps of a priority
    * (32 bits) and the mask of a counter (48 bits). The counter reaches into the
    * priority, so a more urgent job keeps its place only while its counter leads
    * by less than 2^32 per level; a sum that wraps drops by 2^64.
    */
  lemma UrgentFirstIff(p: nat, c: nat, q: nat, d: nat)
    ensures var lead := (q % TWO32 - p % TWO32) * TWO32;
            var wrapped := (if Wraps(p, c) then TWO64 else 0) - (if Wraps(q, d) then TWO64 else 0);
            Score(p, c) < Score(q, d) <==> c % TWO48 < d % TWO48 + lead + wrapped
  {
    ScoreIs(p, c);
    ScoreIs(q, d);
    assert (q % TWO32 - p % TWO32) * TWO32 == q % TWO32 * TWO32 - p % TWO32 * TWO32;
  }

  lemma ScoreIs(p: nat, c: nat)
    ensures Score(p, c) == p % TWO32 * TWO32 + c % TWO48 - (if Wraps(p, c) then TWO64 else 0)
  {
    assert p * TWO32 % TWO64 == p % TWO32 * TWO32;
  }

  /** In the ordinary range the condition is a comparison of counters. */
  lemma UrgentFirstInRange(p: nat, c: nat, q: nat, d: nat)
    requires p < q < TWO32 - 0x1_0000 && c < TWO48 && d < TWO48
    ensures Score(p, c) < Score(q, d) <==> c < d + (q - p) * TWO32
  {
    hide Score;
    NoWrap(p, c);
    NoWrap(q, d);
    UrgentFirstIff(p, c, q, d);
  }

  lemma NoWrap(p: nat, c: nat)
    requires p < TWO32 - 0x1_0000 && c < TWO48
    ensures p % TWO32 == p && c % TWO48 == c && !Wraps(p, c)
  {
  }

  /** At 2^32 arrivals the bound is reached: the score is that of the next priority. */
  lemma BoundIsSharp(p: nat)
    requires p + 1 < TWO32
    ensures Score(p, TWO32) == Score(p + 1, 0)
    ensures p + 2 < TWO32 ==> Score(p + 1, 0) < Score(p, TWO32 + 1)
  {
  }
}
