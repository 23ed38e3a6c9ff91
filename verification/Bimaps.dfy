/** Bidirectional map: two maps that stay inverse to each other (bimap.c). */
module Bimaps {

  ghost predicate Inverse<L, R>(left: map<L, R>, right: map<R, L>) {
    && (forall l <- left :: left[l] in right && right[left[l]] == l)
    && (forall r <- right :: right[r] in left && left[right[r]] == r)
  }

  class Bimap<L(==), R(==)> {
    var left: map<L, R>
    var right: map<R, L>

    ghost predicate Valid()
      reads this
    {
      Inverse(left, right)
    }

    constructor ()
      ensures Valid() && left == map[] && right == map[]
    {
      left, right := map[], map[];
    }

    /** bi_map_insert; keys must be new on both sides, or the two trees drift apart. */
    method Insert(l: L, r: R)
      requires Valid() && l !in left && r !in right
      modifies this
      ensures Valid() && left == old(left)[l := r] && right == old(right)[r := l]
    {
      left := left[l := r];
      right := right[r := l];
    }

    /** bi_map_extract_left: removes the pair of a left key and returns its right key. */
    method ExtractLeft(l: L) returns (r: R)
      requires Valid() && l in left
      modifies this
      ensures r == old(left)[l]
      ensures Valid() && left == old(left) - {l} && right == old(right) - {r}
    {
      r := left[l];
      left, right := left - {l}, right - {r};
    }

    /** bi_map_extract_right: removes the pair of a right key and returns its left key. */
    method ExtractRight(r: R) returns (l: L)
      requires Valid() && r in right
      modifies this
      ensures l == old(right)[r]
      ensures Valid() && left == old(left) - {l} && right == old(right) - {r}
    {
      l := right[r];
      left, right := left - {l}, right - {r};
    }
  }

  /** Inserting over an existing key leaves the two directions inconsistent: new keys are exactly what
      an insertion needs. */
  lemma InsertKeepsInverseIff<L, R>(left: map<L, R>, right: map<R, L>, l: L, r: R)
    requires Inverse(left, right)
    ensures Inverse(left[l := r], right[r := l]) <==> ((l !in left && r !in right) || (l in left && left[l] == r))
  {
    var left', right' := left[l := r], right[r := l];
    if l in left && left[l] != r {
      assert right'[left[l]] == l && left'[l] == r;
    }
    if r in right && right[r] != l {
      assert left'[right[r]] == r && right'[r] == l;
    }
  }

  /** There is always another number. */
  lemma SomeFree(used: set<nat>)
    ensures exists n: nat :: n !in used
  {
    var n := Above(used);
  }

  lemma {:induction false} Above(used: set<nat>) returns (n: nat)
    ensures forall m <- used :: m < n
    ensures n !in used
  {
    if used == {} {
      n := 0;
    } else {
      var m :| m in used;
      var rest := Above(used - {m});
      n := if rest > m then rest else m + 1;
      forall k <- used ensures k < n {
        assert k == m || k in used - {m};
      }
    }
  }
}
