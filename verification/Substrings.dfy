// Python string operations shared by the tool-call codecs: str.find, str.split, str.strip.
module Substrings {
  import opened Options
  import opened Searching

  // str.isspace, and \s of a regular expression on str.
  predicate IsSpace(c: char) {
    var n := c as int;
    || 9 <= n <= 13 || 28 <= n <= 32 || n == 0x85 || n == 0xA0 || n == 0x1680
    || 0x2000 <= n <= 0x200A || n == 0x2028 || n == 0x2029 || n == 0x202F || n == 0x205F || n == 0x3000
  }

  function Strip(s: string): string
    decreases |s|
  {
    if s == "" then s
    else if IsSpace(s[0]) then Strip(s[1..])
    else if IsSpace(s[|s| - 1]) then Strip(s[..|s| - 1])
    else s
  }

  predicate Trimmed(s: string) {
    s == "" || (!IsSpace(s[0]) && !IsSpace(s[|s| - 1]))
  }

  predicate Spaces(s: string) {
    forall i :: 0 <= i < |s| ==> IsSpace(s[i])
  }

  // What is left is what stands between the spaces at both ends.
  lemma {:induction false} StripOf(a: string, m: string, b: string)
    requires Spaces(a) && Spaces(b) && Trimmed(m)
    ensures Strip(a + m + b) == m
    decreases |a| + |b|
  {
    var s := a + m + b;
    if a != "" {
      assert s[0] == a[0] && s[1..] == a[1..] + m + b;
      StripOf(a[1..], m, b);
    } else if b != "" {
      assert s[|s| - 1] == b[|b| - 1] && s[..|s| - 1] == a + m + b[..|b| - 1];
      if m == "" {
        assert s[0] == b[0] && s[1..] == a + m + b[1..];
        StripOf(a, m, b[1..]);
      } else {
        assert s[0] == m[0];
        StripOf(a, m, b[..|b| - 1]);
      }
    } else {
      assert s == m;
    }
  }

  predicate Free(s: string, m: string) {
    Find(s, m).None?
  }

  function Split(s: string, m: string): (r: seq<string>)
    requires m != ""
    ensures r != []
    decreases |s|
  {
    match Find(s, m)
    case None => [s]
    case Some(i) => [s[..i]] + Split(s[i + |m|..], m)
  }

  // The first character of a marker occurs only there, so two occurrences cannot overlap.
  predicate Borderless(m: string) {
    m != "" && forall i :: 0 < i < |m| ==> m[i] != m[0]
  }

  // Two texts that differ before either ends.
  predicate Clash(x: string, y: string) {
    x != "" && y != "" && (x[0] != y[0] || Clash(x[1..], y[1..]))
  }

  // No occurrence of m that starts before b can reach into it.
  predicate Guarded(m: string, b: string) {
    forall i :: 0 < i < |m| ==> Clash(m[i..], b)
  }

  lemma {:induction false} ClashAt(x: string, y: string, k: nat)
    requires k < |x| && k < |y| && x[k] != y[k]
    ensures Clash(x, y)
    decreases k
  {
    if k > 0 {
      assert x[1..][k - 1] == x[k] && y[1..][k - 1] == y[k];
      ClashAt(x[1..], y[1..], k - 1);
    }
  }

  lemma {:induction false} PrefixDrop(x: string, y: string, n: nat)
    requires n <= |x| && n <= |y|
    ensures x <= y ==> x[n..] <= y[n..]
  {
  }

  lemma {:induction false} ClashIsNoPrefix(x: string, y: string, rest: string)
    requires Clash(x, y)
    ensures Clash(x, y + rest) && !(x <= y + rest)
  {
    if x[0] == y[0] {
      ClashIsNoPrefix(x[1..], y[1..], rest);
      assert (y + rest)[1..] == y[1..] + rest;
      PrefixDrop(x, y + rest, 1);
    }
  }

  lemma {:induction false} NotYet(a: string, b: string, rest: string, m: string)
    requires a != "" && !(m <= a) && Guarded(m, b)
    ensures !(m <= a + (b + rest))
  {
    if |m| <= |a| {
      assert (a + (b + rest))[..|m|] == a[..|m|];
    } else {
      ClashIsNoPrefix(m[|a|..], b, rest);
      PrefixDrop(m, a + (b + rest), |a|);
      assert (a + (b + rest))[|a|..] == b + rest;
    }
  }

  lemma {:induction false} FreeTail(a: string, m: string)
    requires Free(a, m) && a != ""
    ensures Free(a[1..], m) && !(m <= a)
  {
  }

  // A text without m is passed over, up to a b that no occurrence can straddle.
  lemma {:induction false} FindPast(a: string, b: string, rest: string, m: string)
    requires m != "" && Free(a, m) && Guarded(m, b)
    ensures Find(a + (b + rest), m) == Later(Find(b + rest, m), |a|)
    decreases |a|
  {
    hide Find, Guarded, Free;
    if a == "" {
      assert a + (b + rest) == b + rest;
      LaterTwice(Find(b + rest, m), 0, 0);
    } else {
      var tail := b + rest;
      assert (a + tail)[1..] == a[1..] + tail && (a + tail)[0] == a[0];
      FreeTail(a, m);
      FindPast(a[1..], b, rest, m);
      NotYet(a, b, rest, m);
      FindStep(a + tail, m);
      LaterTwice(Find(tail, m), |a| - 1, 1);
    }
  }

  // The first occurrence after a text without one.
  lemma {:induction false} FindAfter(a: string, m: string, rest: string)
    requires m != "" && Guarded(m, m) && Free(a, m)
    ensures Find(a + (m + rest), m) == Some(|a|)
  {
    FindPast(a, m, rest, m);
  }

  lemma {:induction false} BorderlessIsGuarded(m: string)
    requires Borderless(m)
    ensures Guarded(m, m)
  {
  }

  lemma {:induction false} FindStays(a: string, b: string, m: string)
    requires Find(a, m).Some?
    ensures Find(a + b, m) == Find(a, m)
    decreases |a|
  {
    if m <= a {
      assert (a + b)[..|m|] == a[..|m|];
    } else {
      assert (a + b)[1..] == a[1..] + b;
      FindStays(a[1..], b, m);
      assert !(m <= a + b) by {
        assert |m| <= |a|;
        assert (a + b)[..|m|] == a[..|m|];
      }
    }
  }

  lemma {:induction false} TrimmedStays(s: string)
    requires Trimmed(s)
    ensures Strip(s) == s
  {
  }
}
