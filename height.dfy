/**
 * Block heights of a chain: a revision number and a height within that revision.
 * The definition of `Height` is not part of this model; its order is taken to be
 * lexicographic, revision number first, then revision height.
 */
module Heights {

  datatype Height = Height(revisionNumber: nat, revisionHeight: nat)

  /** `a < b`: an earlier revision, or the same revision at a lower height. */
  predicate Lt(a: Height, b: Height) {
    a.revisionNumber < b.revisionNumber
    || (a.revisionNumber == b.revisionNumber && a.revisionHeight < b.revisionHeight)
  }

  /** `a <= b`. */
  predicate Le(a: Height, b: Height) {
    Lt(a, b) || a == b
  }

  /** The next height in the same revision: the immediate successor of `h`. */
  function Increment(h: Height): (r: Height)
    ensures Lt(h, r) && r.revisionNumber == h.revisionNumber
    ensures forall k :: Lt(h, k) ==> Le(r, k)
  {
    Height(h.revisionNumber, h.revisionHeight + 1)
  }

  /** Exactly one of `a == b`, `a < b`, `b < a` holds: the three-way comparison is a partition. */
  lemma Trichotomy(a: Height, b: Height)
    ensures a == b || Lt(a, b) || Lt(b, a)
    ensures !(a == b && Lt(a, b)) && !(a == b && Lt(b, a)) && !(Lt(a, b) && Lt(b, a))
  {
  }

  /** `<` is transitive, so the tracked height never decreases across a chain of updates. */
  lemma LtTransitive(a: Height, b: Height, c: Height)
    requires Lt(a, b) && Lt(b, c)
    ensures Lt(a, c)
  {
  }

  /** Within one revision heights compare by their height component; across revisions by revision. */
  lemma LexicographicOrder(a: Height, b: Height)
    ensures a.revisionNumber == b.revisionNumber ==> (Lt(a, b) <==> a.revisionHeight < b.revisionHeight)
    ensures a.revisionNumber != b.revisionNumber ==> (Lt(a, b) <==> a.revisionNumber < b.revisionNumber)
  {
  }
}
