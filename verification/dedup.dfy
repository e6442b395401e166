/**
 * Case-insensitive de-duplication, written twice in the service with the
 * same loop: once for skills (backend/app.py:218-224) and once for
 * suggestions (backend/app.py:474-481). The first spelling of each
 * lower-cased key is kept, in order of first occurrence.
 */
module Dedup {
  import opened Text

  /** `xs[j]` repeats, up to case, an earlier entry. */
  predicate SeenBefore(xs: seq<string>, j: nat)
    requires j < |xs|
  {
    exists i :: 0 <= i < j && Lower(xs[i]) == Lower(xs[j])
  }

  /** Reference definition: keep `xs[j]` exactly when no earlier entry equals it up to case. */
  function FirstSpellings(xs: seq<string>): seq<string> {
    if xs == [] then []
    else
      var n := |xs| - 1;
      FirstSpellings(xs[..n]) + (if SeenBefore(xs, n) then [] else [xs[n]])
  }

  /** No two entries are equal after lowering. */
  predicate CaselessDistinct(s: seq<string>) {
    forall i, j :: 0 <= i < j < |s| ==> Lower(s[i]) != Lower(s[j])
  }

  /** Every kept entry comes from `xs`. */
  lemma {:induction false} FirstSpellingsFrom(xs: seq<string>)
    ensures forall y :: y in FirstSpellings(xs) ==> y in xs
  {
    if xs != [] {
      var n := |xs| - 1;
      FirstSpellingsFrom(xs[..n]);
      forall y | y in FirstSpellings(xs[..n]) ensures y in xs {
        var i :| 0 <= i < n && xs[..n][i] == y;
        assert xs[i] == y;
      }
    }
  }

  /** The kept entries are distinct up to case. */
  lemma {:induction false} FirstSpellingsDistinct(xs: seq<string>)
    ensures CaselessDistinct(FirstSpellings(xs))
  {
    if xs != [] {
      var n := |xs| - 1;
      var init := xs[..n];
      FirstSpellingsDistinct(init);
      FirstSpellingsFrom(init);
      var k := FirstSpellings(init);
      if !SeenBefore(xs, n) {
        forall i | 0 <= i < |k| ensures Lower(k[i]) != Lower(xs[n]) {
          assert k[i] in k;
          var j :| 0 <= j < |init| && init[j] == k[i];
          assert xs[j] == k[i];
        }
        assert FirstSpellings(xs) == k + [xs[n]];
      }
    }
  }

  /** Every key of `xs` is represented among the kept entries. */
  lemma {:induction false} FirstSpellingsCover(xs: seq<string>)
    ensures forall i :: 0 <= i < |xs| ==> exists y :: y in FirstSpellings(xs) && Lower(y) == Lower(xs[i])
  {
    if xs != [] {
      var n := |xs| - 1;
      var init := xs[..n];
      FirstSpellingsCover(init);
      var k := FirstSpellings(init);
      var r := FirstSpellings(xs);
      assert forall y :: y in k ==> y in r;
      forall i | 0 <= i < |xs| ensures exists y :: y in r && Lower(y) == Lower(xs[i]) {
        if i < n {
          assert init[i] == xs[i];
          var y :| y in k && Lower(y) == Lower(init[i]);
          assert y in r;
        } else if SeenBefore(xs, n) {
          var j :| 0 <= j < n && Lower(xs[j]) == Lower(xs[n]);
          assert init[j] == xs[j];
          var y :| y in k && Lower(y) == Lower(init[j]);
          assert y in r;
        } else {
          assert xs[n] in r;
        }
      }
    }
  }

  /** A list that is already distinct up to case is left unchanged. */
  lemma {:induction false} FirstSpellingsOfDistinct(xs: seq<string>)
    requires CaselessDistinct(xs)
    ensures FirstSpellings(xs) == xs
  {
    if xs != [] {
      var n := |xs| - 1;
      assert CaselessDistinct(xs[..n]);
      FirstSpellingsOfDistinct(xs[..n]);
      assert !SeenBefore(xs, n);
      assert xs == xs[..n] + [xs[n]];
    }
  }

  /** The service's loop: a `seen` set of lower-cased keys and an output list. */
  method DedupCaseless(xs: seq<string>) returns (out: seq<string>)
    ensures out == FirstSpellings(xs)
    ensures CaselessDistinct(out)
    ensures forall y :: y in out ==> y in xs
    ensures forall i :: 0 <= i < |xs| ==> exists y :: y in out && Lower(y) == Lower(xs[i])
  {
    out := [];
    var seen: set<string> := {};
    for i := 0 to |xs|
      invariant out == FirstSpellings(xs[..i])
      invariant seen == set j | 0 <= j < i :: Lower(xs[j])
    {
      var k := Lower(xs[i]);
      var prefix := xs[..i + 1];
      assert prefix[..i] == xs[..i];
      assert SeenBefore(prefix, i) <==> k in seen by {
        if k in seen {
          var j :| 0 <= j < i && Lower(xs[j]) == k;
          assert prefix[j] == xs[j];
        }
      }
      if k !in seen {
        seen := seen + {k};
        out := out + [xs[i]];
      }
    }
    assert xs[..|xs|] == xs;
    FirstSpellingsFrom(xs);
    FirstSpellingsDistinct(xs);
    FirstSpellingsCover(xs);
  }
}
