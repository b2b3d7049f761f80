/** The overlap rule of the interval calendar: the three-clause `$or` query that
    POST and PATCH /appointments run against a doctor's scheduled appointments,
    and the half-open interval overlap it implements. Instants are integers. */
module Overlap {

  /** The query's `$or` for a stored appointment [s, e) and a requested [ns, ne):
      it starts inside the request, or it ends inside the request, or it covers the request. */
  predicate QueryMatches(s: int, e: int, ns: int, ne: int) {
    || (ns <= s && s < ne)
    || (ns < e && e <= ne)
    || (s <= ns && ne <= e)
  }

  /** Half-open intervals [s, e) and [ns, ne) share an instant. */
  predicate Overlaps(s: int, e: int, ns: int, ne: int) {
    s < ne && ns < e
  }

  /** For well-formed ranges the query is exactly half-open overlap. */
  lemma QueryMatchesIffOverlaps(s: int, e: int, ns: int, ne: int)
    requires s < e && ns < ne
    ensures QueryMatches(s, e, ns, ne) <==> Overlaps(s, e, ns, ne)
  {
  }

  /** A range that ends where the request starts, or starts where it ends, never clashes. */
  lemma AdjacentRangesDoNotClash(a: int, b: int, c: int)
    requires a < b < c
    ensures !QueryMatches(a, b, b, c) && !QueryMatches(b, c, a, b)
  {
  }

  /** Overlap does not depend on which range is the stored one, and a non-empty range overlaps itself. */
  lemma OverlapsSymmetric(s: int, e: int, ns: int, ne: int)
    ensures Overlaps(s, e, ns, ne) <==> Overlaps(ns, ne, s, e)
    ensures s < e ==> Overlaps(s, e, s, e)
  {
  }
}
