// What the MiniMax-M3 parser makes of texts that a model wrote: text between tags, entries
// that are not complete, keys that come twice.
module MinimaxResponses {
  import opened Options
  import opened MinimaxExact
  import opened MinimaxParser
  import opened MinimaxRoundTrip
  import opened MinimaxXml
  import opened Searching

  lemma {:induction false} OpenSkipsText(t: Doc, d: Doc)
    requires Ns !in t
    ensures SearchOpen(t + d) == Later(SearchOpen(d), |t|)
  {
    hide OpeningKey;
    if t == [] {
      assert t + d == d;
      LaterTwice(SearchOpen(d), 0, 0);
    } else {
      var all := t + d;
      assert all[0] == t[0] && t[0] in t && all[1..] == t[1..] + d;
      NoTagHere(all);
      OpenSkipsText(t[1..], d);
    }
  }

  lemma {:induction false} NoTagHere(d: Doc)
    requires d != [] && d[0] != Ns
    ensures OpeningKey(d).None?
  {
  }

  // Text between the entries of a mapping is passed over.
  lemma {:induction false} KeyedSkipsText(t: Doc, d: Doc)
    requires Ns !in t
    ensures IterKeyed(t + d) == IterKeyed(d)
  {
    hide *;
    OpenSkipsText(t, d);
    var all := t + d;
    KeyedStep(all);
    KeyedStep(d);
    LaterCases(SearchOpen(d), |t|);
    if SearchOpen(d).Some? {
      var start := SearchOpen(d).value;
      SuffixAfter(t, d, start);
      SuffixAfter(t, d, start + |OpenTag(OpeningKey(d[start..]).value)|);
    }
  }

  lemma {:induction false} LaterCases(r: Option<nat>, n: nat)
    ensures Later(r, n) == if r.Some? then Some(n + r.value) else None
  {
  }

  lemma {:induction false} SuffixAfter(t: Doc, d: Doc, i: nat)
    requires i <= |d|
    ensures (t + d)[|t| + i..] == d[i..]
  {
  }

  // So is text around the items of a list, and around the block of tool calls.
  lemma {:induction false} TaggedSkipsText(t: Doc, d: Doc, tag: Doc)
    requires Ns !in t
    ensures IterTagged(t + d, tag) == IterTagged(d, tag)
  {
    assert OpenTag(tag)[0] == Ns;
    hide Find, IterTagged;
    FindSkips(t, d, OpenTag(tag));
    TaggedShift(tag, t, d);
  }

  // A text that starts like a mapping but has no complete entry stays a text.
  lemma {:induction false} NoEntryIsText(j: Json, c: Doc)
    requires Faithful(j) && MappingText(c) && IterKeyed(c) == []
    ensures Parse(j, c) == Str(c)
  {
    assert c[0] == Ns;
    hide Strip, IterKeyed, OpenTag;
  }

  // A key that comes again keeps its place and takes the new value, as in any dictionary.
  lemma {:induction false} AssignAgain(fields: seq<Field>, f: Field, i: nat)
    requires i < |fields| && fields[i].key == f.key && forall k :: 0 <= k < i ==> fields[k].key != f.key
    ensures Assign(fields, f) == fields[i := f]
  {
    if i > 0 {
      AssignAgain(fields[1..], f, i - 1);
      assert fields == [fields[0]] + fields[1..];
    }
  }
}
