/**
 Finite maps from start address to size, read as sets of byte intervals.
 */
module Blocks {
  import opened Sums

  type BlockMap = map<nat, nat>

  /** Byte x lies in some block. */
  ghost predicate Covers(m: BlockMap, x: int) { exists a :: a in m && a <= x < a + m[a] }

  predicate NonEmpty(m: BlockMap) { forall a :: a in m ==> 0 < m[a] }

  /** Non-empty blocks that do not overlap ... */
  predicate Disjoint(m: BlockMap) {
    NonEmpty(m) && forall a, b :: a in m && b in m && a < b ==> a + m[a] <= b
  }

  /** ... and do not even touch: fully coalesced. */
  predicate Normal(m: BlockMap) {
    NonEmpty(m) && forall a, b :: a in m && b in m && a < b ==> a + m[a] < b
  }

  /** m' covers what m covers and [a, a + n), and is the normal form doing so. */
  ghost predicate Adds(m: BlockMap, a: nat, n: nat, m': BlockMap) {
    && Normal(m') && Sum(m') == Sum(m) + n
    && forall x :: Covers(m', x) <==> Covers(m, x) || a <= x < a + n
  }

  /** m' covers what m covers except [a, a + n). */
  ghost predicate Cuts(m: BlockMap, a: nat, n: nat, m': BlockMap) {
    && Normal(m') && Sum(m') + n == Sum(m)
    && forall x :: Covers(m', x) <==> Covers(m, x) && !(a <= x < a + n)
  }

  /** A normal form is determined by the bytes it covers. */
  lemma NormalUnique(m: BlockMap, k: BlockMap)
    requires Normal(m) && Normal(k) && forall x :: Covers(m, x) <==> Covers(k, x)
    ensures m == k
  {
    forall a | a in m ensures a in k && k[a] == m[a] { SameBlock(m, k, a); }
    forall a | a in k ensures a in m { SameBlock(k, m, a); }
  }

  lemma SameBlock(m: BlockMap, k: BlockMap, a: nat)
    requires Normal(m) && Normal(k) && a in m && forall x :: Covers(m, x) <==> Covers(k, x)
    ensures a in k && k[a] == m[a]
  {
    assert Covers(m, a);
    assert Covers(k, a);
    var b :| b in k && b <= a < b + k[b];
    NotCoveredBefore(m, a);
    assert !Covers(m, a - 1);
    assert !Covers(k, a - 1);
    Inside(k, b, a - 1);
    assert b == a;
    NotCoveredAfter(m, a);
    NotCoveredAfter(k, a);
    assert !Covers(m, a + m[a]) && !Covers(k, a + k[a]);
    Inside(m, a, a + k[a]);
    Inside(k, a, a + m[a]);
  }

  lemma Inside(m: BlockMap, b: nat, x: int)
    requires b in m
    ensures b <= x < b + m[b] ==> Covers(m, x)
  {
  }

  lemma NotCoveredBefore(m: BlockMap, a: nat)
    requires Normal(m) && a in m
    ensures !Covers(m, a - 1)
  {
    forall b | b in m ensures !(b <= a - 1 < b + m[b]) {}
  }

  lemma NotCoveredAfter(m: BlockMap, a: nat)
    requires Normal(m) && a in m
    ensures !Covers(m, a + m[a])
  {
    forall b | b in m ensures !(b <= a + m[a] < b + m[b]) {}
  }

  /** Removing a block cuts its bytes. */
  lemma RemoveCuts(m: BlockMap, a: nat)
    requires Normal(m) && a in m
    ensures Cuts(m, a, m[a], m - {a})
  {
    SumRemove(m, a);
    forall x ensures Covers(m - {a}, x) <==> Covers(m, x) && !(a <= x < a + m[a]) {
      if Covers(m, x) && !(a <= x < a + m[a]) {
        var b :| b in m && b <= x < b + m[b];
        assert b in m - {a};
      }
      if Covers(m - {a}, x) {
        var b :| b in m - {a} && b <= x < b + m[b];
        assert b in m;
      }
    }
  }

  /** A block that touches no other may simply be inserted. */
  lemma InsertAdds(m: BlockMap, a: nat, n: nat)
    requires Normal(m) && n > 0
    requires forall b :: b in m ==> b + m[b] < a || a + n < b
    ensures Adds(m, a, n, m[a := n])
  {
    assert a !in m;
    SumInsert(m, a, n);
    var m' := m[a := n];
    forall x ensures Covers(m', x) <==> Covers(m, x) || a <= x < a + n {
      if Covers(m, x) {
        var b :| b in m && b <= x < b + m[b];
        assert b in m' && b <= x < b + m'[b];
      }
      if a <= x < a + n { assert a in m' && a <= x < a + m'[a]; }
      if Covers(m', x) && !(a <= x < a + n) {
        var b :| b in m' && b <= x < b + m'[b];
        assert b in m;
      }
    }
  }

  /** The block of m that ends at a, if any, and the one that starts at a, if any, are the only
      ones [a, a + n) can touch: merge them in. */
  function Merged(m: BlockMap, a: nat, n: nat, left: nat): BlockMap
    requires left == a || (left in m && left < a && left + m[left] == a)
  {
    var m1 := m - {left, a + n};
    m1[left := (a - left) + n + SizeAt(m, a + n)]
  }

  /** What [a, a + n) may be merged with: a left neighbour, if there is one, and free room. */
  ghost predicate Mergeable(m: BlockMap, a: nat, n: nat, left: nat) {
    && Normal(m) && n > 0 && (forall x :: a <= x < a + n ==> !Covers(m, x))
    && (left == a || (left in m && left < a && left + m[left] == a))
    && (left == a ==> forall p :: p in m ==> p + m[p] != a)
  }

  function SizeAt(m: BlockMap, a: nat): nat { if a in m then m[a] else 0 }

  lemma CutAt(m: BlockMap, a: nat)
    requires Normal(m)
    ensures Cuts(m, a, SizeAt(m, a), m - {a})
  {
    if a in m { RemoveCuts(m, a); } else { assert m - {a} == m; }
  }

  lemma MergedInsert(m: BlockMap, a: nat, n: nat, left: nat)
    requires Mergeable(m, a, n, left)
    ensures Adds(m - {left, a + n}, left, (a - left) + n + SizeAt(m, a + n), Merged(m, a, n, left))
  {
    forall b | b in m && b != left && b != a + n ensures b + m[b] < left || a + n + SizeAt(m, a + n) < b {
      FarFrom(m, a, n, left, b);
    }
    InsertFar(m, left, a + n, (a - left) + n + SizeAt(m, a + n));
  }

  lemma InsertFar(m: BlockMap, left: nat, right: nat, size: nat)
    requires Normal(m) && size > 0
    requires forall b :: b in m && b != left && b != right ==> b + m[b] < left || left + size < b
    ensures Adds(m - {left, right}, left, size, (m - {left, right})[left := size])
  {
    RemoveNormal(m, left, right);
    InsertAdds(m - {left, right}, left, size);
  }

  lemma RemoveNormal(m: BlockMap, a: nat, b: nat)
    requires Normal(m)
    ensures Normal(m - {a, b})
  {
  }

  lemma CutLeft(m: BlockMap, a: nat, n: nat, left: nat)
    requires Mergeable(m, a, n, left)
    ensures Cuts(m, left, a - left, m - {left})
  {
    NotAKey(m, a, n, left);
    CutAt(m, left);
  }

  lemma CutRight(m: BlockMap, a: nat, n: nat, left: nat)
    requires Normal(m - {left}) && left != a + n
    ensures Cuts(m - {left}, a + n, SizeAt(m, a + n), m - {left, a + n})
  {
    CutAt(m - {left}, a + n);
    assert m - {left} - {a + n} == m - {left, a + n};
  }

  lemma NeighboursCovered(m: BlockMap, a: nat, n: nat, left: nat, x: int)
    requires left == a || (left in m && left + m[left] == a)
    ensures left <= x < a ==> Covers(m, x)
    ensures a + n <= x < a + n + SizeAt(m, a + n) ==> Covers(m, x)
  {
  }

  lemma MergedAdds(m: BlockMap, a: nat, n: nat, left: nat)
    requires Mergeable(m, a, n, left)
    ensures Adds(m, a, n, Merged(m, a, n, left))
  {
    CutLeft(m, a, n, left);
    CutRight(m, a, n, left);
    MergedInsert(m, a, n, left);
    forall x
      ensures left <= x < a ==> Covers(m, x)
      ensures a + n <= x < a + n + SizeAt(m, a + n) ==> Covers(m, x)
    {
      NeighboursCovered(m, a, n, left, x);
    }
    MergeAdds(m, m - {left}, m - {left, a + n}, Merged(m, a, n, left), a, n, left, SizeAt(m, a + n));
  }

  lemma NotAKey(m: BlockMap, a: nat, n: nat, left: nat)
    requires Mergeable(m, a, n, left)
    ensures a !in m
  {
    assert !Covers(m, a);
  }

  /** Cutting both neighbours and adding the whole adds just the middle. */
  lemma MergeAdds(m: BlockMap, m0: BlockMap, m1: BlockMap, m': BlockMap, a: nat, n: nat, left: nat, right: nat)
    requires left <= a && Cuts(m, left, a - left, m0) && Cuts(m0, a + n, right, m1)
    requires Adds(m1, left, (a - left) + n + right, m')
    requires forall x :: left <= x < a ==> Covers(m, x)
    requires forall x :: a + n <= x < a + n + right ==> Covers(m, x)
    ensures Adds(m, a, n, m')
  {
    forall x ensures Covers(m', x) <==> Covers(m, x) || a <= x < a + n {
      assert Covers(m', x) <==> Covers(m1, x) || left <= x < a + n + right;
      assert Covers(m1, x) <==> Covers(m0, x) && !(a + n <= x < a + n + right);
      assert Covers(m0, x) <==> Covers(m, x) && !(left <= x < a);
    }
  }

  lemma FarFrom(m: BlockMap, a: nat, n: nat, left: nat, b: nat)
    requires Mergeable(m, a, n, left) && b in m && b != left && b != a + n
    ensures b + m[b] < left || a + n + SizeAt(m, a + n) < b
  {
    Inside(m, b, a);
    Inside(m, b, b);
  }
}
