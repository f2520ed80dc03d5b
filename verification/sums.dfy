/**
 * Left-to-right sums, as the accumulation loops of the fetchers compute them
 * (`*balance += ...`, `totalUsdBalance += ...`), and the fact that with exact
 * arithmetic such a sum does not depend on the order of its terms.
 */
module Sums {

  /** f(s[0]) + f(s[1]) + ... + f(s[|s|-1]), added from the left. */
  function SumBy<T>(s: seq<T>, f: T -> real): real
  {
    if |s| == 0 then 0.0 else SumBy(s[..|s| - 1], f) + f(s[|s| - 1])
  }

  lemma {:induction false} SumByAppend<T>(s: seq<T>, t: seq<T>, f: T -> real)
    ensures SumBy(s + t, f) == SumBy(s, f) + SumBy(t, f)
  {
    if |t| == 0 {
      assert s + t == s;
    } else {
      assert (s + t)[..|s + t| - 1] == s + t[..|t| - 1];
      SumByAppend(s, t[..|t| - 1], f);
    }
  }

  /** Taking one term out of the sum. */
  lemma SumByRemove<T>(s: seq<T>, j: nat, f: T -> real)
    requires j < |s|
    ensures SumBy(s, f) == SumBy(s[..j] + s[j + 1..], f) + f(s[j])
  {
    assert s == s[..j] + ([s[j]] + s[j + 1..]);
    SumByAppend(s[..j], [s[j]] + s[j + 1..], f);
    SumByAppend([s[j]], s[j + 1..], f);
    SumByAppend(s[..j], s[j + 1..], f);
    assert SumBy([s[j]], f) == f(s[j]) by {
      assert [s[j]][..0] == [];
    }
  }

  /** Taking one element out of a sequence takes one occurrence out of its multiset. */
  lemma MultisetWithout<T>(t: seq<T>, j: nat)
    requires j < |t|
    ensures multiset(t) == multiset(t[..j] + t[j + 1..]) + multiset{t[j]}
  {
    assert t == t[..j] + [t[j]] + t[j + 1..];
  }

  /** Any rearrangement of the terms has the same sum. */
  lemma {:induction false} SumByPermutation<T>(s: seq<T>, t: seq<T>, f: T -> real)
    requires multiset(s) == multiset(t)
    ensures SumBy(s, f) == SumBy(t, f)
  {
    if |s| == 0 {
      assert |t| == |multiset(t)| == 0;
    } else {
      var n := |s| - 1;
      var x := s[n];
      MultisetWithout(s, n);
      assert s[..n] + s[n + 1..] == s[..n];
      assert x in multiset(t);
      var j :| 0 <= j < |t| && t[j] == x;
      var t' := t[..j] + t[j + 1..];
      MultisetWithout(t, j);
      assert multiset(s[..n]) == multiset(s) - multiset{x} == multiset(t');
      SumByPermutation(s[..n], t', f);
      SumByRemove(t, j, f);
    }
  }

  /** Scaling every term scales the sum (used for the division by 10^18). */
  lemma {:induction false} SumByScaled<T>(s: seq<T>, f: T -> real, g: T -> real, c: real)
    requires forall x :: g(x) * c == f(x)
    ensures SumBy(s, g) * c == SumBy(s, f)
  {
    if |s| > 0 {
      SumByScaled(s[..|s| - 1], f, g, c);
      calc {
        SumBy(s, g) * c;
        (SumBy(s[..|s| - 1], g) + g(s[|s| - 1])) * c;
        SumBy(s[..|s| - 1], g) * c + g(s[|s| - 1]) * c;
      }
    }
  }

  /** Terms that agree on the sequence give the same sum. */
  lemma {:induction false} SumByCongruent<T>(s: seq<T>, f: T -> real, g: T -> real)
    requires forall i :: 0 <= i < |s| ==> f(s[i]) == g(s[i])
    ensures SumBy(s, f) == SumBy(s, g)
  {
    if |s| > 0 {
      SumByCongruent(s[..|s| - 1], f, g);
    }
  }
}
