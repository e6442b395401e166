/**
 * Python's ordering of `str` values and `sorted(set(xs))`, the normal form
 * the contact lists are returned in.
 */
module Ordering {

  /** Python's `a < b` on strings: lexicographic by code point, a proper prefix first. */
  predicate Less(a: string, b: string)
    decreases |a|
  {
    if a == [] then b != []
    else if b == [] then false
    else if a[0] != b[0] then a[0] < b[0]
    else Less(a[1..], b[1..])
  }

  lemma {:induction false} LessIrreflexive(a: string)
    ensures !Less(a, a)
  {
    if a != [] {
      LessIrreflexive(a[1..]);
    }
  }

  lemma {:induction false} LessTransitive(a: string, b: string, c: string)
    requires Less(a, b) && Less(b, c)
    ensures Less(a, c)
    decreases |a|
  {
    if a != [] && a[0] == b[0] && b[0] == c[0] {
      LessTransitive(a[1..], b[1..], c[1..]);
    }
  }

  lemma {:induction false} LessTotal(a: string, b: string)
    ensures a == b || Less(a, b) || Less(b, a)
    decreases |a|
  {
    if a != [] && b != [] && a[0] == b[0] {
      LessTotal(a[1..], b[1..]);
      if a[1..] == b[1..] {
        assert a == [a[0]] + a[1..] && b == [b[0]] + b[1..];
      }
    }
  }

  lemma LessAsymmetric(a: string, b: string)
    requires Less(a, b)
    ensures !Less(b, a)
  {
    if Less(b, a) {
      LessTransitive(a, b, a);
      LessIrreflexive(a);
    }
  }

  /** Strictly increasing, hence free of duplicates. */
  predicate StrictlySorted(s: seq<string>) {
    forall i, j :: 0 <= i < j < |s| ==> Less(s[i], s[j])
  }

  lemma SortedDistinct(s: seq<string>, i: nat, j: nat)
    requires StrictlySorted(s) && i < j < |s|
    ensures s[i] != s[j]
  {
    LessIrreflexive(s[i]);
  }

  /** Inserts `x` into a strictly sorted list, unless it is already there. */
  function Insert(x: string, s: seq<string>): (r: seq<string>)
    requires StrictlySorted(s)
    ensures StrictlySorted(r)
    ensures forall y :: y in r <==> y in s || y == x
  {
    if s == [] then [x]
    else if x == s[0] then s
    else if Less(x, s[0]) then
      assert forall j :: 0 <= j < |s| ==> Less(x, s[j]) by {
        forall j | 0 <= j < |s| ensures Less(x, s[j]) {
          if j > 0 { LessTransitive(x, s[0], s[j]); }
        }
      }
      [x] + s
    else
      LessTotal(x, s[0]);
      var rest := Insert(x, s[1..]);
      assert forall y :: y in rest ==> Less(s[0], y) by {
        forall y | y in rest ensures Less(s[0], y) {
          if y != x {
            var j :| 0 <= j < |s[1..]| && s[1..][j] == y;
            assert s[j + 1] == y;
          }
        }
      }
      [s[0]] + rest
  }

  /** Python's `sorted(set(xs))`. */
  function SortedSet(xs: seq<string>): (r: seq<string>)
    ensures StrictlySorted(r)
    ensures forall y :: y in r <==> y in xs
  {
    if xs == [] then []
    else
      var init := xs[..|xs| - 1];
      assert xs == init + [xs[|xs| - 1]];
      Insert(xs[|xs| - 1], SortedSet(init))
  }

  /**
   * A strictly sorted list is determined by its elements: `SortedSet(xs)` is
   * the one sorted, duplicate-free enumeration of the values in `xs`.
   */
  lemma {:induction false} SortedUnique(a: seq<string>, b: seq<string>)
    requires StrictlySorted(a) && StrictlySorted(b)
    requires forall y :: y in a <==> y in b
    ensures a == b
  {
    if a != [] { assert a[0] in a && a[0] in b; }
    if b != [] { assert b[0] in b && b[0] in a; }
    if a != [] && b != [] {
      if a[0] != b[0] {
        var i :| 0 <= i < |b| && b[i] == a[0];
        var j :| 0 <= j < |a| && a[j] == b[0];
        assert i > 0 && j > 0;
        LessAsymmetric(a[0], a[j]);
      }
      forall y | y in a[1..] ensures y in b[1..] {
        var j :| 0 <= j < |a[1..]| && a[1..][j] == y;
        SortedDistinct(a, 0, j + 1);
        assert y == a[j + 1] && y in a && y in b;
        var i :| 0 <= i < |b| && b[i] == y;
        assert i > 0;
        assert b[1..][i - 1] == y;
      }
      forall y | y in b[1..] ensures y in a[1..] {
        var j :| 0 <= j < |b[1..]| && b[1..][j] == y;
        SortedDistinct(b, 0, j + 1);
        assert y == b[j + 1] && y in b && y in a;
        var i :| 0 <= i < |a| && a[i] == y;
        assert i > 0;
        assert a[1..][i - 1] == y;
      }
      SortedUnique(a[1..], b[1..]);
      assert a == [a[0]] + a[1..] && b == [b[0]] + b[1..];
    }
  }

  /** Keeps the elements satisfying `keep`, in order. */
  function Filter(s: seq<string>, keep: string -> bool): (r: seq<string>)
    ensures forall y :: y in r <==> y in s && keep(y)
    ensures |r| <= |s|
  {
    if s == [] then []
    else (if keep(s[0]) then [s[0]] else []) + Filter(s[1..], keep)
  }

  /** Filtering a sorted list keeps it sorted. */
  lemma {:induction false} FilterSorted(s: seq<string>, keep: string -> bool)
    requires StrictlySorted(s)
    ensures StrictlySorted(Filter(s, keep))
  {
    if s != [] {
      FilterSorted(s[1..], keep);
      var rest := Filter(s[1..], keep);
      assert forall y :: y in rest ==> Less(s[0], y) by {
        forall y | y in rest ensures Less(s[0], y) {
          var j :| 0 <= j < |s[1..]| && s[1..][j] == y;
          assert s[j + 1] == y;
        }
      }
    }
  }

  /**
   * `r` lists, in increasing order, the `k` smallest values of `pool`: every
   * value left out is larger than every value kept, and nothing is left out
   * when fewer than `k` were kept.
   */
  predicate SmallestOf(r: seq<string>, pool: set<string>, k: nat) {
    && StrictlySorted(r)
    && |r| <= k
    && (forall y :: y in r ==> y in pool)
    && (forall p, q :: p in r && q in pool && q !in r ==> Less(p, q))
    && (|r| < k ==> forall q :: q in pool ==> q in r)
  }

  /** The first `k` entries of a strictly sorted list are its `k` smallest values. */
  lemma TakeSmallest(s: seq<string>, k: nat)
    requires StrictlySorted(s)
    ensures SmallestOf(if |s| <= k then s else s[..k], (set y | y in s), k)
  {
    var r := if |s| <= k then s else s[..k];
    forall p, q | p in r && q in s && q !in r ensures Less(p, q) {
      var i :| 0 <= i < |r| && r[i] == p;
      var j :| 0 <= j < |s| && s[j] == q;
    }
  }

  /** `sorted(set(xs))[:k]`. */
  function SmallestDistinct(xs: seq<string>, k: nat): (r: seq<string>)
    ensures SmallestOf(r, (set y | y in xs), k)
  {
    var s := SortedSet(xs);
    TakeSmallest(s, k);
    assert (set y | y in s) == (set y | y in xs);
    if |s| <= k then s else s[..k]
  }
}
