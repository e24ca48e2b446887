// Where a pattern first occurs, in a text over any symbols.
module Searching {
  import opened Options

  // str.find: where m first occurs in s.
  function Find<T(==)>(s: seq<T>, m: seq<T>): (r: Option<nat>)
    ensures r.Some? ==> r.value + |m| <= |s| && s[r.value..r.value + |m|] == m
    decreases |s|
  {
    if m <= s then Some(0)
    else if s == [] then None
    else match Find(s[1..], m)
      case None => None
      case Some(i) => Some(i + 1)
  }

  function Later(r: Option<nat>, n: nat): Option<nat> {
    match r
    case None => None
    case Some(i) => Some(n + i)
  }

  lemma {:induction false} LaterTwice(r: Option<nat>, a: nat, b: nat)
    ensures Later(Later(r, a), b) == Later(r, a + b)
    ensures Later(r, 0) == r
  {
  }

  lemma {:induction false} FindHere<T>(m: seq<T>, rest: seq<T>)
    ensures Find(m + rest, m) == Some(0)
  {
    assert m <= m + rest;
  }

  lemma {:induction false} FindStep<T>(s: seq<T>, m: seq<T>)
    requires s != [] && !(m <= s)
    ensures Find(s, m) == Later(Find(s[1..], m), 1)
  {
  }

  // Elements that cannot start an occurrence are passed over.
  lemma {:induction false} FindSkips<T>(a: seq<T>, b: seq<T>, m: seq<T>)
    requires m != [] && m[0] !in a
    ensures Find(a + b, m) == Later(Find(b, m), |a|)
  {
    hide Find;
    if a == [] {
      assert a + b == b;
      LaterTwice(Find(b, m), 0, 0);
    } else {
      var s := a + b;
      assert s[1..] == a[1..] + b;
      assert !(m <= s) by {
        assert a[0] in a && s[0] == a[0];
      }
      FindStep(s, m);
      FindSkips(a[1..], b, m);
    }
  }
}
