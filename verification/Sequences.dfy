/** Sums over sequences, other arithmetic of ranks, and concatenation of texts. */
module Sequences {

  function Total<A>(f: A -> int, s: seq<A>): int {
    if s == [] then 0 else f(s[0]) + Total(f, s[1..])
  }

  lemma {:induction false} TotalSplit<A>(f: A -> int, s: seq<A>, t: seq<A>)
    ensures Total(f, s + t) == Total(f, s) + Total(f, t)
    decreases |s|
  {
    if s == [] {
      assert s + t == t;
    } else {
      assert (s + t)[1..] == s[1..] + t;
      TotalSplit(f, s[1..], t);
    }
  }

  lemma TotalAppend<A>(f: A -> int, s: seq<A>, x: A)
    ensures Total(f, s + [x]) == Total(f, s) + f(x)
  {
    TotalSplit(f, s, [x]);
  }

  lemma TotalUpdate<A>(f: A -> int, s: seq<A>, i: nat, x: A)
    requires i < |s|
    ensures Total(f, s[i := x]) == Total(f, s) - f(s[i]) + f(x)
  {
    assert s == s[..i] + ([s[i]] + s[i + 1..]);
    assert s[i := x] == s[..i] + ([x] + s[i + 1..]);
    TotalSplit(f, s[..i], [s[i]] + s[i + 1..]);
    TotalSplit(f, s[..i], [x] + s[i + 1..]);
  }

  lemma {:induction false} TotalAtLeast<A>(f: A -> int, s: seq<A>, low: int)
    requires forall i :: 0 <= i < |s| ==> low <= f(s[i])
    ensures low * |s| <= Total(f, s)
    decreases |s|
  {
    if s == [] {
    } else {
      TotalAtLeast(f, s[1..], low);
    }
  }

  lemma {:induction false} TotalAtMost<A>(f: A -> int, s: seq<A>, high: int)
    requires forall i :: 0 <= i < |s| ==> f(s[i]) <= high
    ensures Total(f, s) <= high * |s|
    decreases |s|
  {
    if s == [] {
    } else {
      TotalAtMost(f, s[1..], high);
    }
  }

  /** If every term is at most its counterpart, so is the sum. */
  lemma {:induction false} TotalMonotone<A>(f: A -> int, g: A -> int, s: seq<A>)
    requires forall i :: 0 <= i < |s| ==> f(s[i]) <= g(s[i])
    ensures Total(f, s) <= Total(g, s)
    decreases |s|
  {
    if s == [] {
    } else {
      TotalMonotone(f, g, s[1..]);
    }
  }

  ghost predicate Distinct<A>(s: seq<A>) {
    forall i, j :: 0 <= i < j < |s| ==> s[i] != s[j]
  }

  lemma {:induction false} BoundedSet(s: set<nat>, n: nat)
    requires forall x :: x in s ==> x < n
    ensures |s| <= n
  {
    if n > 0 {
      BoundedSet(s - {n - 1}, n - 1);
    } else {
      assert s == {};
    }
  }

  /** Multiplication by repeated addition, for ranks. */
  function Times(k: nat, m: nat): nat { if m == 0 then 0 else k + Times(k, m - 1) }

  lemma {:induction false} TimesGap(k: nat, m: nat, n: nat)
    requires m < n
    ensures Times(k, m) + k <= Times(k, n)
  {
    if m == n - 1 {
    } else {
      TimesGap(k, m, n - 1);
    }
  }

  lemma {:induction false} TimesIsProduct(k: nat, m: nat)
    ensures Times(k, m) == k * m
  {
    if m == 0 {
    } else {
      TimesIsProduct(k, m - 1);
    }
  }

  function Before<A>(first: seq<A>, rest: seq<A>): (all: seq<A>)
    requires |first| <= 1
    ensures if first == [] then all == rest else all != [] && all[0] == first[0] && all[1..] == rest
  {
    first + rest
  }

  // ---------------------------------------------------------------- texts

  function Concat(xs: seq<string>): string { if xs == [] then "" else xs[0] + Concat(xs[1..]) }

  lemma Associative(a: string, b: string, c: string)
    ensures (a + b) + c == a + (b + c)
  {
  }

  lemma {:induction false} ConcatSplit(xs: seq<string>, ys: seq<string>)
    ensures Concat(xs + ys) == Concat(xs) + Concat(ys)
    decreases |xs|
  {
    if xs == [] {
      assert xs + ys == ys;
    } else {
      assert (xs + ys)[1..] == xs[1..] + ys;
      ConcatSplit(xs[1..], ys);
      Associative(xs[0], Concat(xs[1..]), Concat(ys));
    }
  }

  lemma ConcatAppend(xs: seq<string>, y: string)
    ensures Concat(xs + [y]) == Concat(xs) + y
  {
    ConcatSplit(xs, [y]);
    assert [y][1..] == [];
  }
}
