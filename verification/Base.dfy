/** Vocabulary shared by every module: options, results, and the "last n" window that a
    bounded deque keeps. */
module Base {

  datatype Option<+T> = None | Some(value: T)

  datatype Result<+T, +E> = Ok(value: T) | Err(error: E)

  /** The trailing n elements of s (all of it when it is shorter). */
  function LastN<T>(s: seq<T>, n: nat): (r: seq<T>) {
    if |s| <= n then s else s[|s| - n..]
  }

  /** Appending to a deque with a maximum length: the oldest element falls off. */
  function Push<T>(s: seq<T>, x: T, n: nat): seq<T> {
    LastN(s + [x], n)
  }

  /** Taking the window early and taking it late agree. */
  lemma LastNAbsorbs<T>(s: seq<T>, t: seq<T>, n: nat)
    ensures LastN(LastN(s, n) + t, n) == LastN(s + t, n)
  {
    if |s| > n {
      var w := LastN(s, n);
      assert s + t == s[..|s| - n] + (w + t);
      if |t| <= n {
        assert LastN(s + t, n) == (s + t)[|s| + |t| - n..];
        assert LastN(w + t, n) == (w + t)[|t|..];
      }
    }
  }

  /** The elements of s satisfying p, in order. */
  function Filter<T>(p: T -> bool, s: seq<T>): seq<T> {
    if s == [] then []
    else (if p(s[0]) then [s[0]] else []) + Filter(p, s[1..])
  }

  lemma {:induction false} FilterConcat<T>(p: T -> bool, s: seq<T>, t: seq<T>)
    ensures Filter(p, s + t) == Filter(p, s) + Filter(p, t)
  {
    if s == [] {
      assert s + t == t;
    } else {
      FilterConcat(p, s[1..], t);
      assert (s + t)[1..] == s[1..] + t;
      Associative(if p(s[0]) then [s[0]] else [], Filter(p, s[1..]), Filter(p, t));
    }
  }

  lemma Associative<T>(a: seq<T>, b: seq<T>, c: seq<T>)
    ensures a + (b + c) == (a + b) + c
  {
  }

  lemma {:induction false} FilterIn<T>(p: T -> bool, s: seq<T>)
    ensures forall x :: x in Filter(p, s) <==> x in s && p(x)
  {
    if s == [] {
    } else {
      FilterIn(p, s[1..]);
    }
  }

  lemma Overwrite<K, V>(m: map<K, V>, k: K, x: V, y: V)
    ensures m[k := x][k := y] == m[k := y]
  {
  }

  /** No element occurs twice. */
  predicate Distinct<T(==)>(l: seq<T>) {
    forall i, j :: 0 <= i < j < |l| ==> l[i] != l[j]
  }

  lemma DistinctInit<T>(l: seq<T>)
    requires Distinct(l) && l != []
    ensures Distinct(l[..|l| - 1]) && l[|l| - 1] !in l[..|l| - 1]
  {
  }

  /** Lists the elements of a set in some order, each once. */
  method ListOf<T(==)>(s: set<T>) returns (l: seq<T>)
    ensures Distinct(l) && forall x :: x in l <==> x in s
  {
    l := [];
    var rest := s;
    while rest != {}
      invariant rest <= s
      invariant forall x :: x in l <==> x in s && x !in rest
      invariant Distinct(l)
      decreases rest
    {
      var x :| x in rest;
      assert forall y :: y in l + [x] <==> y in l || y == x;
      l := l + [x];
      rest := rest - {x};
    }
  }
}
