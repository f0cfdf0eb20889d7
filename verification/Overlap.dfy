/**
 The overlap of two sets as a fraction (the Jaccard index), compared by cross-multiplication where the
 source divides in floating point.
 */
module Overlap {

  datatype Score = Score(num: nat, den: nat)

  const ZERO := Score(0, 1)

  function Jaccard<T>(a: set<T>, b: set<T>): (s: Score)
    ensures s.den > 0
  {
    if a == {} || b == {} then ZERO else Score(|a * b|, |a + b|)
  }

  predicate Better(a: Score, b: Score) { a.num * b.den > b.num * a.den }

  /** `s >= num / den` */
  predicate AtLeast(s: Score, num: nat, den: nat) { s.num * den >= num * s.den }

  lemma Scale(x: int, y: int, k: nat)
    requires x <= y
    ensures x * k <= y * k
  {}

  lemma ScaleStrictly(x: int, y: int, k: nat)
    requires x < y && k > 0
    ensures x * k < y * k
  {}

  /** "Not better than" composes. */
  lemma NotBetterTrans(a: Score, b: Score, c: Score)
    requires a.den > 0 && b.den > 0 && c.den > 0 && !Better(a, c) && !Better(c, b)
    ensures !Better(a, b)
  {
    Scale(a.num * c.den, c.num * a.den, b.den);
    Scale(c.num * b.den, b.num * c.den, a.den);
    assert (a.num * b.den) * c.den <= (b.num * a.den) * c.den;
    if a.num * b.den > b.num * a.den { ScaleStrictly(b.num * a.den, a.num * b.den, c.den); }
  }

  /** What beats the best so far beats everything before it. */
  lemma BetterThrough(a: Score, b: Score, c: Score)
    requires a.den > 0 && b.den > 0 && c.den > 0 && Better(a, b) && !Better(c, b)
    ensures Better(a, c)
  {
    if !Better(a, c) { NotBetterTrans(a, b, c); }
  }

  /** A score below the bar stays below it for every score no better. */
  lemma BarHolds(s: Score, best: Score, num: nat, den: nat)
    requires s.den > 0 && best.den > 0 && den > 0 && !Better(s, best) && !AtLeast(best, num, den)
    ensures !AtLeast(s, num, den)
  {
    if AtLeast(s, num, den) { NotBetterTrans(Score(num, den), best, s); }
  }

  /** To share at least `num / den`: neither is empty, and the common elements are that part of all. */
  lemma ShareIs<T>(a: set<T>, b: set<T>, num: nat, den: nat)
    requires num > 0
    ensures AtLeast(Jaccard(a, b), num, den) <==> a != {} && b != {} && |a * b| * den >= num * |a + b|
  {}

  /** To share more: by the larger of the two parts, none being the smallest. */
  lemma MoreIs<T>(a: set<T>, b: set<T>, c: set<T>)
    requires a != {} && b != {} && c != {}
    ensures Better(Jaccard(a, c), Jaccard(b, c)) <==> |a * c| * |b + c| > |b * c| * |a + c|
  {}
}
