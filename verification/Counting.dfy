/** Counting facts about finite sets, sequences and multisets. */
module Counting {

  function Map<T, U>(f: T -> U, s: seq<T>): (r: seq<U>)
    ensures |r| == |s|
    ensures forall i :: 0 <= i < |s| ==> r[i] == f(s[i])
  {
    seq(|s|, i requires 0 <= i < |s| => f(s[i]))
  }

  lemma MapTakingOut<T, U>(f: T -> U, pre: seq<T>, x: T, post: seq<T>)
    ensures multiset(pre + [x] + post) == multiset{x} + multiset(pre + post)
    ensures multiset(Map(f, pre + [x] + post)) == multiset{f(x)} + multiset(Map(f, pre + post))
  {
    var s := Map(f, pre + [x] + post);
    assert s == Map(f, pre) + [f(x)] + Map(f, post);
    assert Map(f, pre + post) == Map(f, pre) + Map(f, post);
  }

  /** Takes one occurrence of x out of s. */
  lemma TakeOut<T, U>(f: T -> U, s: seq<T>, x: T) returns (rest: seq<T>)
    requires x in multiset(s)
    ensures |rest| == |s| - 1
    ensures multiset(s) == multiset{x} + multiset(rest)
    ensures multiset(Map(f, s)) == multiset{f(x)} + multiset(Map(f, rest))
  {
    var k :| 0 <= k < |s| && s[k] == x;
    assert s == s[..k] + [x] + s[k + 1..];
    MapTakingOut(f, s[..k], x, s[k + 1..]);
    rest := s[..k] + s[k + 1..];
  }

  /** Permuting the arguments permutes the results. */
  lemma {:induction false} MapPreservesMultiset<T, U>(f: T -> U, a: seq<T>, b: seq<T>)
    requires multiset(a) == multiset(b)
    ensures multiset(Map(f, a)) == multiset(Map(f, b))
    decreases |a|
  {
    if a == [] {
      assert |multiset(b)| == 0;
    } else {
      var x := a[0];
      assert x in multiset(a);
      var a' := TakeOut(f, a, x);
      var b' := TakeOut(f, b, x);
      assert multiset(a') == multiset(a) - multiset{x} == multiset(b');
      MapPreservesMultiset(f, a', b');
    }
  }

  /** When word and index are mutually inverse below n, exactly size indices below n have
      their word in a block of that size. */
  lemma {:induction false} BlockCount(word: nat -> nat, index: nat -> nat, n: nat, lo: nat, size: nat)
    requires lo + size <= n
    requires forall w: nat :: w < n ==> index(w) < n && word(index(w)) == w
    requires forall i: nat :: i < n ==> word(i) < n && index(word(i)) == i
    ensures |set i: nat | i < n && lo <= word(i) < lo + size| == size
  {
    var block := set i: nat | i < n && lo <= word(i) < lo + size;
    if size == 0 {
      assert block == {};
    } else {
      BlockCount(word, index, n, lo, size - 1);
      var smaller := set i: nat | i < n && lo <= word(i) < lo + (size - 1);
      var last := index(lo + size - 1);
      assert block == smaller + {last} && last !in smaller;
    }
  }

  function Bit(b: bool): nat {
    if b then 1 else 0
  }

  // ---------- waits that fit into a time ----------

  /** How long n waits of length p take. */
  function Times(n: nat, p: nat): nat {
    if n == 0 then 0 else Times(n - 1, p) + p
  }

  lemma {:induction false} TimesIsProduct(n: nat, p: nat)
    ensures Times(n, p) == n * p
  {
    if n > 0 {
      TimesIsProduct(n - 1, p);
    }
  }

  lemma WaitsFit(n: nat, p: nat, now: nat)
    requires p > 0 && Times(n, p) <= now
    ensures n <= now / p
  {
    TimesIsProduct(n, p);
    var q := now / p;
    assert now < q * p + p;
    assert n > q ==> n * p >= (q + 1) * p;
    assert (q + 1) * p == q * p + p;
  }
}
