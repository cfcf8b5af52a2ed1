/**
 * Ordered threshold chains ("ladders") with first-match-wins semantics.
 *
 * Every APACHE II point lookup is an if-chain of guarded comparisons
 * `if (x >= t) return p;` evaluated top to bottom, with a final fallback.
 * This module gives that shape a declarative reading: a ladder is a
 * sequence of rungs, and the score of a value is the points of the first
 * rung it reaches, or the fallback when it reaches none.
 */
module Thresholds {

  /** One guarded comparison of a chain: `x >= threshold` scores `points`
      (`x > threshold` when `strict`). */
  datatype Rung = Rung(threshold: real, strict: bool, points: int)

  predicate Matches(rung: Rung, x: real) {
    if rung.strict then x > rung.threshold else x >= rung.threshold
  }

  /** No rung before position `n` of the ladder is reached by `x`. */
  ghost predicate NoneBefore(ladder: seq<Rung>, x: real, n: int)
    requires 0 <= n <= |ladder|
  {
    forall j | 0 <= j < n :: !Matches(ladder[j], x)
  }

  /** The score a chain assigns to `x`: the first rung reached wins,
      `otherwise` when none is reached. */
  function FirstMatch(ladder: seq<Rung>, x: real, otherwise: int): (p: int)
    ensures forall i | 0 <= i < |ladder| && Matches(ladder[i], x) && NoneBefore(ladder, x, i) ::
              p == ladder[i].points
    ensures NoneBefore(ladder, x, |ladder|) ==> p == otherwise
    ensures p == otherwise || exists i | 0 <= i < |ladder| :: p == ladder[i].points
  {
    if |ladder| == 0 then otherwise
    else if Matches(ladder[0], x) then ladder[0].points
    else
      var rest := FirstMatch(ladder[1..], x, otherwise);
      assert forall i | 1 <= i <= |ladder| && NoneBefore(ladder, x, i) :: NoneBefore(ladder[1..], x, i - 1);
      assert rest != otherwise ==> exists i | 0 <= i < |ladder| :: rest == ladder[i].points by {
        if rest != otherwise {
          var k :| 0 <= k < |ladder[1..]| && rest == ladder[1..][k].points;
          assert rest == ladder[k + 1].points;
        }
      }
      rest
  }

  /** Points never increase down the ladder, and the fallback is the least of all:
      reaching a higher rung never scores less. */
  ghost predicate Escalating(ladder: seq<Rung>, otherwise: int) {
    && (forall i, j | 0 <= i < j < |ladder| :: ladder[j].points <= ladder[i].points)
    && (forall i | 0 <= i < |ladder| :: otherwise <= ladder[i].points)
  }

  /** On an escalating ladder the score is monotone non-decreasing in the value. */
  lemma {:induction false} FirstMatchMonotone(ladder: seq<Rung>, otherwise: int, x: real, y: real)
    requires Escalating(ladder, otherwise)
    requires x <= y
    ensures FirstMatch(ladder, x, otherwise) <= FirstMatch(ladder, y, otherwise)
  {
    if |ladder| == 0 {
    } else if Matches(ladder[0], x) {
      assert Matches(ladder[0], y);
    } else if Matches(ladder[0], y) {
      var px := FirstMatch(ladder[1..], x, otherwise);
      if px != otherwise {
        var k :| 0 <= k < |ladder[1..]| && px == ladder[1..][k].points;
        assert ladder[1..][k] == ladder[k + 1];
      }
    } else {
      var rest := ladder[1..];
      assert forall i, j | 0 <= i < j < |rest| :: rest[i] == ladder[i + 1] && rest[j] == ladder[j + 1];
      assert Escalating(rest, otherwise);
      FirstMatchMonotone(rest, otherwise, x, y);
    }
  }

  /** Thresholds strictly decrease down the ladder, as in every APACHE II chain. */
  ghost predicate Descending(ladder: seq<Rung>) {
    forall i, j | 0 <= i < j < |ladder| :: ladder[j].threshold < ladder[i].threshold
  }

  /** Band reading of a descending ladder: a value that reaches rung `i` but not
      rung `i - 1` scores rung `i`'s points; one below the last rung scores the
      fallback. So the chain is the same as the half-open bands
      [threshold(i), threshold(i - 1)), closed below. */
  lemma FirstMatchInBand(ladder: seq<Rung>, x: real, otherwise: int, i: int)
    requires Descending(ladder)
    requires 0 <= i <= |ladder|
    requires i < |ladder| ==> Matches(ladder[i], x)
    requires 0 < i ==> !Matches(ladder[i - 1], x)
    ensures FirstMatch(ladder, x, otherwise) == if i < |ladder| then ladder[i].points else otherwise
  {}
}
