/**
 * Left-to-right sums of real-valued terms over a sequence, as Python's
 * `sum(...)` and an accumulating `for` loop compute them, with the facts the
 * calculators need: a sum splits over concatenation and does not depend on
 * the order of the elements.
 */
module Sums {

  /** The sum of `f(x)` over the elements `x` of `s`, accumulated left to right. */
  function SumOf<T>(s: seq<T>, f: T -> real): real
  {
    if s == [] then 0.0 else SumOf(s[..|s| - 1], f) + f(s[|s| - 1])
  }

  /** Extending the summed prefix by one element adds that element's term. */
  lemma SumOfSnoc<T>(s: seq<T>, i: nat, f: T -> real)
    requires i < |s|
    ensures SumOf(s[..i + 1], f) == SumOf(s[..i], f) + f(s[i])
  {
    assert s[..i + 1][..i] == s[..i];
  }

  /** A sum splits over a concatenation. */
  lemma {:induction false} SumOfAppend<T>(s: seq<T>, t: seq<T>, f: T -> real)
    ensures SumOf(s + t, f) == SumOf(s, f) + SumOf(t, f)
    decreases |t|
  {
    if t == [] {
      assert s + t == s;
    } else {
      var t' := t[..|t| - 1];
      assert (s + t)[..|s + t| - 1] == s + t';
      assert (s + t)[|s + t| - 1] == t[|t| - 1];
      SumOfAppend(s, t', f);
    }
  }

  /** Taking the element at `j` out of a sequence takes its term out of the sum. */
  lemma SumOfRemove<T>(t: seq<T>, j: nat, f: T -> real)
    requires j < |t|
    ensures SumOf(t, f) == SumOf(t[..j] + t[j + 1..], f) + f(t[j])
  {
    var a, c := t[..j], t[j + 1..];
    calc {
      SumOf(t, f);
      { assert t == t[..j + 1] + c; }
      SumOf(t[..j + 1] + c, f);
      { SumOfAppend(t[..j + 1], c, f); }
      SumOf(t[..j + 1], f) + SumOf(c, f);
      { SumOfSnoc(t, j, f); }
      SumOf(a, f) + f(t[j]) + SumOf(c, f);
      { SumOfAppend(a, c, f); }
      SumOf(a + c, f) + f(t[j]);
    }
  }

  /** Taking the element at `j` out of a sequence takes one occurrence of it out of the multiset. */
  lemma MultisetRemove<T>(t: seq<T>, j: nat)
    requires j < |t|
    ensures multiset(t[..j] + t[j + 1..]) == multiset(t) - multiset{t[j]}
  {
    assert t == t[..j] + [t[j]] + t[j + 1..];
  }

  /** Summing in any order gives the same total. */
  lemma {:induction false} SumOfPermutation<T>(s: seq<T>, t: seq<T>, f: T -> real)
    requires multiset(s) == multiset(t)
    ensures SumOf(s, f) == SumOf(t, f)
    decreases |s|
  {
    if s == [] {
      assert |t| == |multiset(t)| == 0;
    } else {
      var s' := s[..|s| - 1];
      var x := s[|s| - 1];
      MultisetRemove(s, |s| - 1);
      assert s[..|s| - 1] + s[|s|..] == s';
      assert x in multiset(t);
      var j :| 0 <= j < |t| && t[j] == x;
      MultisetRemove(t, j);
      SumOfPermutation(s', t[..j] + t[j + 1..], f);
      SumOfRemove(t, j, f);
    }
  }
}
