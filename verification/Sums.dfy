/** Sums of a quantity over the elements of a sequence, and how they split and reorder. */
module Sums {
  function SumInt<T>(s: seq<T>, f: T -> int): int {
    if s == [] then 0 else f(s[0]) + SumInt(s[1..], f)
  }

  function SumReal<T>(s: seq<T>, f: T -> real): real {
    if s == [] then 0.0 else f(s[0]) + SumReal(s[1..], f)
  }

  lemma {:induction false} SumIntConcat<T>(a: seq<T>, b: seq<T>, f: T -> int)
    ensures SumInt(a + b, f) == SumInt(a, f) + SumInt(b, f)
  {
    if a == [] {
      assert a + b == b;
    } else {
      assert (a + b)[1..] == a[1..] + b;
      SumIntConcat(a[1..], b, f);
    }
  }

  lemma SumIntAppend<T>(s: seq<T>, x: T, f: T -> int)
    ensures SumInt(s + [x], f) == SumInt(s, f) + f(x)
  {
    SumIntConcat(s, [x], f);
  }

  lemma SumIntSingle<T>(x: T, f: T -> int)
    ensures SumInt([x], f) == f(x)
  {
    assert SumInt([x][1..], f) == 0;
  }

  lemma SumRealSingle<T>(x: T, f: T -> real)
    ensures SumReal([x], f) == f(x)
  {
    assert SumReal([x][1..], f) == 0.0;
  }

  lemma SumIntPair<T>(x: T, y: T, f: T -> int)
    ensures SumInt([x, y], f) == f(x) + f(y)
  {
    assert [x, y] == [x] + [y];
    SumIntAppend([x], y, f);
    SumIntAppend([], x, f);
    assert [] + [x] == [x];
  }

  lemma {:induction false} SumRealConcat<T>(a: seq<T>, b: seq<T>, f: T -> real)
    ensures SumReal(a + b, f) == SumReal(a, f) + SumReal(b, f)
  {
    if a == [] {
      assert a + b == b;
    } else {
      assert (a + b)[1..] == a[1..] + b;
      SumRealConcat(a[1..], b, f);
    }
  }

  lemma SumRealAppend<T>(s: seq<T>, x: T, f: T -> real)
    ensures SumReal(s + [x], f) == SumReal(s, f) + f(x)
  {
    SumRealConcat(s, [x], f);
  }

  /** The prefix of length i + 1 adds the element at i. */
  lemma SumIntPrefix<T>(s: seq<T>, i: nat, f: T -> int)
    requires i < |s|
    ensures SumInt(s[..i + 1], f) == SumInt(s[..i], f) + f(s[i])
  {
    assert s[..i + 1] == s[..i] + [s[i]];
    SumIntAppend(s[..i], s[i], f);
  }

  /** Taking out one element takes its share out of the sum. */
  lemma SumIntWithout<T>(s: seq<T>, i: nat, f: T -> int)
    requires i < |s|
    ensures SumInt(s, f) == SumInt(s[..i] + s[i + 1..], f) + f(s[i])
  {
    assert s == s[..i] + ([s[i]] + s[i + 1..]);
    SumIntConcat(s[..i], [s[i]] + s[i + 1..], f);
    SumIntConcat(s[..i], s[i + 1..], f);
    assert ([s[i]] + s[i + 1..])[1..] == s[i + 1..];
  }

  lemma SumRealWithout<T>(s: seq<T>, i: nat, f: T -> real)
    requires i < |s|
    ensures SumReal(s, f) == SumReal(s[..i] + s[i + 1..], f) + f(s[i])
  {
    assert s == s[..i] + ([s[i]] + s[i + 1..]);
    SumRealConcat(s[..i], [s[i]] + s[i + 1..], f);
    SumRealConcat(s[..i], s[i + 1..], f);
    assert ([s[i]] + s[i + 1..])[1..] == s[i + 1..];
  }

  lemma MultisetWithout<T>(s: seq<T>, i: nat)
    requires i < |s|
    ensures multiset(s[..i] + s[i + 1..]) == multiset(s) - multiset{s[i]}
  {
    assert s == s[..i] + [s[i]] + s[i + 1..];
  }

  /** Two orderings of the same elements stay so when the first of one is taken out of both. */
  lemma TakeOut<T>(a: seq<T>, b: seq<T>) returns (i: nat, rest: seq<T>)
    requires a != [] && multiset(a) == multiset(b)
    ensures i < |b| && b[i] == a[0] && rest == b[..i] + b[i + 1..]
    ensures multiset(a[1..]) == multiset(rest)
  {
    assert a[0] in multiset(b);
    i :| 0 <= i < |b| && b[i] == a[0];
    rest := b[..i] + b[i + 1..];
    MultisetWithout(b, i);
    assert a == [a[0]] + a[1..];
    assert multiset(a) == multiset{a[0]} + multiset(a[1..]);
  }

  /** Sums do not depend on order. */
  lemma {:induction false} SumIntPermutation<T>(a: seq<T>, b: seq<T>, f: T -> int)
    requires multiset(a) == multiset(b)
    ensures SumInt(a, f) == SumInt(b, f)
    decreases |a|
  {
    if a == [] {
      assert |multiset(b)| == 0;
    } else {
      var i, rest := TakeOut(a, b);
      SumIntWithout(b, i, f);
      SumIntPermutation(a[1..], rest, f);
    }
  }

  lemma {:induction false} SumRealPermutation<T>(a: seq<T>, b: seq<T>, f: T -> real)
    requires multiset(a) == multiset(b)
    ensures SumReal(a, f) == SumReal(b, f)
    decreases |a|
  {
    if a == [] {
      assert |multiset(b)| == 0;
    } else {
      var i, rest := TakeOut(a, b);
      SumRealWithout(b, i, f);
      SumRealPermutation(a[1..], rest, f);
    }
  }

  /** Pointwise comparison carries over to sums. */
  lemma {:induction false} SumIntMonotone<T>(s: seq<T>, f: T -> int, g: T -> int)
    requires forall x :: x in s ==> f(x) <= g(x)
    ensures SumInt(s, f) <= SumInt(s, g)
  {
    if s != [] {
      SumIntMonotone(s[1..], f, g);
    }
  }

  lemma {:induction false} SumIntSame<T>(s: seq<T>, f: T -> int, g: T -> int)
    requires forall x :: x in s ==> f(x) == g(x)
    ensures SumInt(s, f) == SumInt(s, g)
  {
    if s != [] {
      SumIntSame(s[1..], f, g);
    }
  }

  lemma {:induction false} SumRealSame<T>(s: seq<T>, f: T -> real, g: T -> real)
    requires forall x :: x in s ==> f(x) == g(x)
    ensures SumReal(s, f) == SumReal(s, g)
  {
    if s != [] {
      SumRealSame(s[1..], f, g);
    }
  }

  lemma {:induction false} ZeroSumInt<T>(s: seq<T>, f: T -> int)
    requires forall x :: x in s ==> f(x) == 0
    ensures SumInt(s, f) == 0
  {
    if s != [] {
      ZeroSumInt(s[1..], f);
    }
  }

  lemma {:induction false} ZeroSumReal<T>(s: seq<T>, f: T -> real)
    requires forall x :: x in s ==> f(x) == 0.0
    ensures SumReal(s, f) == 0.0
  {
    if s != [] {
      ZeroSumReal(s[1..], f);
    }
  }

  lemma {:induction false} SumIntNonNegative<T>(s: seq<T>, f: T -> int)
    requires forall x :: x in s ==> f(x) >= 0
    ensures SumInt(s, f) >= 0
  {
    if s != [] {
      SumIntNonNegative(s[1..], f);
    }
  }

  /** One element never exceeds a sum of non-negative terms. */
  lemma {:induction false} SumIntElement<T>(s: seq<T>, i: nat, f: T -> int)
    requires i < |s|
    requires forall x :: x in s ==> f(x) >= 0
    ensures f(s[i]) <= SumInt(s, f)
  {
    if i == 0 {
      SumIntNonNegative(s[1..], f);
    } else {
      SumIntElement(s[1..], i - 1, f);
    }
  }
}
