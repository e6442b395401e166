/** The optional value used wherever the service returns `None`. */
module Wrappers {

  datatype Option<+T> = None | Some(value: T)

  /** The first `n` elements of `s` (Python's `s[:n]`). */
  function Take<T>(s: seq<T>, n: nat): (r: seq<T>)
    ensures |r| == if |s| <= n then |s| else n
    ensures r == s[..|r|]
  {
    if |s| <= n then s else s[..n]
  }

  /** `[f(x) for x in xs if f(x) is not None]`: the present values of `f` over `xs`, in order. */
  function Present<A, B>(xs: seq<A>, f: A -> Option<B>): seq<B> {
    if xs == [] then []
    else (if f(xs[0]).Some? then [f(xs[0]).value] else []) + Present(xs[1..], f)
  }

  lemma {:induction false} PresentAppend<A, B>(a: seq<A>, b: seq<A>, f: A -> Option<B>)
    ensures Present(a + b, f) == Present(a, f) + Present(b, f)
  {
    if a != [] {
      var ab := a + b;
      assert ab[0] == a[0] && ab[1..] == a[1..] + b;
      PresentAppend(a[1..], b, f);
      var k := if f(a[0]).Some? then [f(a[0]).value] else [];
      AppendStep(Present(ab, f), k, Present(a[1..] + b, f), Present(a[1..], f), Present(b, f), Present(a, f));
    } else {
      assert a + b == b;
    }
  }

  lemma {:induction false} PresentMembers<A, B>(xs: seq<A>, f: A -> Option<B>)
    ensures forall y :: y in Present(xs, f) <==> exists x :: x in xs && f(x) == Some(y)
  {
    if xs != [] {
      PresentMembers(xs[1..], f);
      assert xs == [xs[0]] + xs[1..];
    }
  }

  /**
   * The inductive step of "a list built element by element distributes over
   * `+`": `x` is `k` before `y`, `y` splits as `y1 + z`, and `w` is `k` before `y1`.
   */
  lemma AppendStep<T>(x: seq<T>, k: seq<T>, y: seq<T>, y1: seq<T>, z: seq<T>, w: seq<T>)
    requires x == k + y && y == y1 + z && w == k + y1
    ensures x == w + z
  {
  }
}
