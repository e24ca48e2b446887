// Concatenation, slices, and rearrangements of sequences.
module Sequences {

  function Concat<T>(xss: seq<seq<T>>): seq<T> {
    if xss == [] then [] else xss[0] + Concat(xss[1..])
  }

  lemma {:induction false} ConcatAppend<T>(a: seq<seq<T>>, b: seq<seq<T>>)
    ensures Concat(a + b) == Concat(a) + Concat(b)
  {
    if a == [] {
      assert a + b == b;
    } else {
      assert (a + b)[1..] == a[1..] + b;
      ConcatAppend(a[1..], b);
    }
  }

  lemma {:induction false} ConcatOne<T>(a: seq<T>)
    ensures Concat([a]) == a
  {
    assert [a][1..] == [];
  }

  function Sum(xs: seq<int>): int {
    if xs == [] then 0 else xs[0] + Sum(xs[1..])
  }

  lemma {:induction false} SumAppend(a: seq<int>, b: seq<int>)
    ensures Sum(a + b) == Sum(a) + Sum(b)
  {
    if a == [] {
      assert a + b == b;
    } else {
      assert (a + b)[1..] == a[1..] + b;
      SumAppend(a[1..], b);
    }
  }

  lemma {:induction false} Associate<T>(a: seq<T>, b: seq<T>, c: seq<T>)
    ensures (a + b) + c == a + (b + c)
  {
  }

  function Below(n: nat): (r: set<nat>)
    ensures |r| == n && forall k: nat :: k in r <==> k < n
  {
    if n == 0 then {} else Below(n - 1) + {n - 1}
  }

  // s[a:b] of a Python sequence, for non-negative bounds
  function Slice<T>(s: seq<T>, a: nat, b: nat): seq<T> {
    var end := if b <= |s| then b else |s|;
    if a <= end then s[a..end] else []
  }

  function Mapped<A, B>(f: A -> B, s: seq<A>): (r: seq<B>)
    ensures |r| == |s| && forall i :: 0 <= i < |s| ==> r[i] == f(s[i])
  {
    seq(|s|, i requires 0 <= i < |s| => f(s[i]))
  }

  function Without<T>(s: seq<T>, k: nat): (r: seq<T>)
    requires k < |s|
    ensures |r| == |s| - 1
  {
    s[..k] + s[k + 1..]
  }

  lemma {:induction false} WithoutOne<T>(s: seq<T>, k: nat)
    requires k < |s|
    ensures multiset(s) == multiset{s[k]} + multiset(Without(s, k))
  {
    assert s == s[..k] + [s[k]] + s[k + 1..];
  }

  lemma {:induction false} MappedWithout<A, B>(f: A -> B, s: seq<A>, k: nat)
    requires k < |s|
    ensures Mapped(f, Without(s, k)) == Without(Mapped(f, s), k)
  {
  }

  lemma {:induction false} SameRest<T>(one: multiset<T>, a: multiset<T>, b: multiset<T>)
    requires one + a == one + b
    ensures a == b
  {
    assert a == (one + a) - one && b == (one + b) - one;
  }

  // The same elements in another order have the same images.
  lemma {:induction false} SameMapped<A, B>(f: A -> B, a: seq<A>, b: seq<A>)
    requires multiset(a) == multiset(b)
    ensures multiset(Mapped(f, a)) == multiset(Mapped(f, b))
    decreases |a|
  {
    hide Mapped, Without;
    if a == [] {
      assert |b| == |multiset(b)|;
      assert b == [];
    } else {
      assert a[0] in multiset(b);
      var k :| 0 <= k < |b| && b[k] == a[0];
      WithoutOne(a, 0);
      WithoutOne(b, k);
      WithoutOne(Mapped(f, a), 0);
      WithoutOne(Mapped(f, b), k);
      MappedWithout(f, a, 0);
      MappedWithout(f, b, k);
      SameRest(multiset{a[0]}, multiset(Without(a, 0)), multiset(Without(b, k)));
      SameMapped(f, Without(a, 0), Without(b, k));
    }
  }

  // n elements at a time.
  function Batches<T>(s: seq<T>, n: nat): (r: seq<seq<T>>)
    requires n > 0
    ensures Concat(r) == s
    ensures forall k :: 0 <= k < |r| - 1 ==> |r[k]| == n
    ensures r != [] ==> 0 < |r[|r| - 1]| <= n
    decreases |s|
  {
    if s == [] then []
    else if |s| <= n then
      assert Concat([s]) == s by { ConcatOne(s); }
      [s]
    else [s[..n]] + Batches(s[n..], n)
  }
}
