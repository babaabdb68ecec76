/** The few general notions the rest of the project shares. */
module Prelude {

  newtype byte = x: int | 0 <= x < 256

  datatype Option<+T> = None | Some(value: T)

  datatype Result<+T> = Ok(value: T) | Err(reason: string)

  /** An injection between finite sets bounds the size of its domain. */
  lemma {:induction false} InjectionBounds<A, B>(xs: set<A>, ys: set<B>, f: map<A, B>)
    requires f.Keys == xs
    requires forall x :: x in xs ==> f[x] in ys
    requires forall x, y :: x in xs && y in xs && f[x] == f[y] ==> x == y
    ensures |xs| <= |ys|
    decreases |xs|
  {
    if xs != {} {
      var x :| x in xs;
      InjectionBounds(xs - {x}, ys - {f[x]}, f - {x});
    }
  }

  /** A bijection between finite sets makes them equally large. */
  lemma BijectionEqualSize<A, B>(xs: set<A>, ys: set<B>, f: map<A, B>, g: map<B, A>)
    requires f.Keys == xs && g.Keys == ys
    requires forall x :: x in xs ==> f[x] in ys && g[f[x]] == x
    requires forall y :: y in ys ==> g[y] in xs && f[g[y]] == y
    ensures |xs| == |ys|
  {
    forall x, y | x in xs && y in xs && f[x] == f[y] ensures x == y {
      assert g[f[x]] == g[f[y]];
    }
    forall x, y | x in ys && y in ys && g[x] == g[y] ensures x == y {
      assert f[g[x]] == f[g[y]];
    }
    InjectionBounds(xs, ys, f);
    InjectionBounds(ys, xs, g);
  }

  /** Step i starts the thing, and no step after it and before n ends it. */
  predicate Lasts(starts: seq<bool>, ends: seq<bool>, i: nat, n: nat) {
    i < n <= |starts| == |ends| && starts[i] && forall j :: i < j < n ==> !ends[j]
  }

  /**
   If each step either starts a thing, or ends it, or leaves it as it is, then it is there
   exactly if some step has started it and none since has ended it.
  */
  lemma {:induction false} Lifetime(has: seq<bool>, starts: seq<bool>, ends: seq<bool>, n: nat)
    requires |has| == |starts| + 1 == |ends| + 1 && n < |has| && !has[0]
    requires forall j :: 0 <= j < |starts| ==> (has[j+1] <==> starts[j] || (has[j] && !ends[j]))
    ensures has[n] <==> exists i: nat :: Lasts(starts, ends, i, n)
  {
    if n > 0 {
      Lifetime(has, starts, ends, n - 1);
      if starts[n-1] {
        assert Lasts(starts, ends, n - 1, n);
      } else if has[n] {
        var i: nat :| Lasts(starts, ends, i, n - 1);
        assert Lasts(starts, ends, i, n);
      } else if i: nat :| Lasts(starts, ends, i, n) {
        assert Lasts(starts, ends, i, n - 1);
      }
    }
  }
}
