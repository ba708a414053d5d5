/** Concatenating the lists a function gives for each element of a sequence. */
module Seqs {
  /** `f(xs[0]) + f(xs[1]) + ...`. */
  function FlatMap<A, B>(xs: seq<A>, f: A -> seq<B>): seq<B> {
    if |xs| == 0 then [] else FlatMap(xs[..|xs| - 1], f) + f(xs[|xs| - 1])
  }

  /** `f(0, xs[0]) + ... + f(n - 1, xs[n - 1])`: the same with the position passed along. */
  function FlatMapUpTo<A, B>(xs: seq<A>, n: nat, f: (nat, A) -> seq<B>): seq<B>
    requires n <= |xs|
  {
    if n == 0 then [] else FlatMapUpTo(xs, n - 1, f) + f(n - 1, xs[n - 1])
  }

  lemma {:induction false} FlatMapEmpty<A, B>(xs: seq<A>, f: A -> seq<B>)
    ensures FlatMap(xs, f) == [] <==> forall i :: 0 <= i < |xs| ==> f(xs[i]) == []
  {
    if |xs| > 0 {
      var init := xs[..|xs| - 1];
      FlatMapEmpty(init, f);
      assert forall i :: 0 <= i < |init| ==> init[i] == xs[i];
    }
  }

  /** Whatever one element contributes is in the whole. */
  lemma {:induction false} FlatMapMember<A, B>(xs: seq<A>, f: A -> seq<B>, i: nat, y: B)
    requires i < |xs| && y in f(xs[i])
    ensures y in FlatMap(xs, f)
  {
    var init := xs[..|xs| - 1];
    if i < |init| {
      assert init[i] == xs[i];
      FlatMapMember(init, f, i, y);
    }
  }

  lemma {:induction false} FlatMapUpToEmpty<A, B>(xs: seq<A>, n: nat, f: (nat, A) -> seq<B>)
    requires n <= |xs|
    ensures FlatMapUpTo(xs, n, f) == [] <==> forall i :: 0 <= i < n ==> f(i, xs[i]) == []
  {
    if n > 0 {
      FlatMapUpToEmpty(xs, n - 1, f);
    }
  }

  /** A shorter run's output sits, unchanged, at the head of a longer run's. */
  lemma {:induction false} FlatMapUpToPrefix<A, B>(xs: seq<A>, m: nat, n: nat, f: (nat, A) -> seq<B>)
    requires m <= n <= |xs|
    ensures |FlatMapUpTo(xs, m, f)| <= |FlatMapUpTo(xs, n, f)|
    ensures FlatMapUpTo(xs, n, f)[..|FlatMapUpTo(xs, m, f)|] == FlatMapUpTo(xs, m, f)
  {
    if m < n {
      FlatMapUpToPrefix(xs, m, n - 1, f);
      var a, b := FlatMapUpTo(xs, n - 1, f), FlatMapUpTo(xs, m, f);
      assert (a + f(n - 1, xs[n - 1]))[..|b|] == a[..|b|];
    }
  }

  /** One more element of a prefix. */
  lemma TakeNext<T>(s: seq<T>, k: nat)
    requires k < |s|
    ensures s[..k + 1] == s[..k] + [s[k]]
  {
  }

  /** A non-empty sequence is its prefix and its last element. */
  lemma InitLast<T>(s: seq<T>)
    requires |s| > 0
    ensures s == s[..|s| - 1] + [s[|s| - 1]]
  {
  }

  /** Appending one element and dropping it again. */
  lemma InitOfSnoc<T>(s: seq<T>, x: T)
    ensures (s + [x])[..|s|] == s
  {
  }

  lemma AppendAssoc<T>(a: seq<T>, b: seq<T>, c: seq<T>)
    ensures a + (b + c) == (a + b) + c
  {
  }
}
