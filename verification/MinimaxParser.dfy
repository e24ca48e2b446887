// The parser as the loops it is written with, each proved against its function.
module MinimaxParser {
  import opened Options
  import opened MinimaxXml
  import opened Searching
  import Sequences

  // _iter_keyed (lines 91-119)
  method KeyedPairs(content: Doc) returns (pairs: seq<Pair>)
    ensures pairs == IterKeyed(content)
  {
    hide *;
    pairs := [];
    var cursor, n := 0, |content|;
    ghost var all := IterKeyed(content);
    assert content[0..] == content && [] + all == all;
    while cursor < n
      invariant cursor <= n
      invariant pairs + IterKeyed(content[cursor..]) == all
    {
      var found := SearchOpen(content[cursor..]);
      KeyedStep(content[cursor..]);
      if found.None? {
        assert pairs + [] == pairs;
        return;
      }
      var start := cursor + found.value;
      SuffixOfSuffix(content, cursor, found.value);
      var name := OpeningKey(content[start..]).value;
      var end := start + |OpenTag(name)|;
      SuffixOfSuffix(content, cursor, found.value + |OpenTag(name)|);
      var scan := ScanToClose(content, name, end);
      if scan.None? {
        assert pairs + [] == pairs;
        return;
      }
      var body := content[end..];
      SuffixOfSuffix(content, end, scan.value - end);
      var pair := Pair(name, Upto(body, scan.value - end - |CloseTag(name)|));
      Sequences.Associate(pairs, [pair], IterKeyed(content[scan.value..]));
      pairs := pairs + [pair];
      cursor := scan.value;
    }
    NothingLeft(content);
    assert content[cursor..] == content[|content|..] && pairs + [] == pairs;
  }

  lemma {:induction false} SuffixOfSuffix(d: Doc, a: nat, b: nat)
    requires a + b <= |d|
    ensures d[a..][b..] == d[a + b..]
  {
  }

  lemma {:induction false} TagFits(d: Doc)
    requires SearchOpen(d).Some?
    ensures var start := SearchOpen(d).value;
      && start < |d| && OpeningKey(d[start..]).Some?
      && 0 < |OpenTag(OpeningKey(d[start..]).value)| <= |d| - start
  {
    hide OpeningKey, SearchOpen;
    var start := SearchOpen(d).value;
    assert OpenTag(OpeningKey(d[start..]).value) <= d[start..];
  }

  // One turn of the outer loop.
  lemma {:induction false} KeyedStep(d: Doc)
    ensures SearchOpen(d).None? ==> IterKeyed(d) == []
    ensures SearchOpen(d).Some? ==>
      var start := SearchOpen(d).value;
      && start < |d| && OpeningKey(d[start..]).Some?
      && 0 < |OpenTag(OpeningKey(d[start..]).value)| <= |d| - start
      && var name := OpeningKey(d[start..]).value;
      var body := d[start + |OpenTag(name)|..];
      IterKeyed(d) == match ScanClose(body, name, 1)
        case None => []
        case Some(scan) => [Pair(name, Upto(body, scan - |CloseTag(name)|))] + IterKeyed(body[scan..])
  {
    hide Find, KeyRun, ScanClose, OpenTag, CloseTag, OpeningKey, SearchOpen, Upto;
    if SearchOpen(d).Some? {
      TagFits(d);
    }
  }

  lemma {:induction false} NothingLeft(content: Doc)
    ensures IterKeyed(content[|content|..]) == []
  {
  }

  // The depth loop (lines 102-116), from the end of the opening tag.
  method ScanToClose(content: Doc, name: Doc, end: nat) returns (r: Option<nat>)
    requires end <= |content|
    ensures r.Some? ==> end <= r.value <= |content|
    ensures ScanClose(content[end..], name, 1) == if r.Some? then Some(r.value - end) else None
  {
    hide Find, OpenTag, CloseTag, NextTurn, ScanClose;
    var depth, scan, n := 1, end, |content|;
    while depth > 0 && scan < n
      invariant end <= scan <= n
      invariant ScanClose(content[end..], name, 1) == Later(ScanClose(content[scan..], name, depth), scan - end)
      decreases n - scan
    {
      var rest := content[scan..];
      var turn := NextTurn(rest, name, depth);
      OneTurn(rest, name, depth);
      if turn.GiveUp? {
        return None;
      }
      assert rest[turn.step..] == content[scan + turn.step..];
      depth, scan := turn.depth, scan + turn.step;
    }
    OneTurn(content[scan..], name, depth);
    return Some(scan);
  }

  lemma {:induction false} OneTurn(rest: Doc, name: Doc, depth: nat)
    ensures ScanClose(rest, name, depth) ==
      if depth == 0 || rest == [] then Some(0)
      else match NextTurn(rest, name, depth)
        case GiveUp => None
        case Move(step, depth') => Later(ScanClose(rest[step..], name, depth'), step)
  {
    hide NextTurn;
  }

  // _parse_xml_value (lines 52-82)
  method ParseXmlValue(j: Json, content: Doc) returns (v: Value)
    ensures v == Parse(j, content)
    decreases |content|
  {
    hide Find, IterTagged, OpenTag, Strip, IterKeyed;
    var c := Strip(content);
    if c == [] {
      return Str([]);
    }
    if OpenTag(ITEM) <= c {
      var inners := IterTagged(c, ITEM);
      var items := [];
      for i := 0 to |inners|
        invariant |items| == i && forall k :: 0 <= k < i ==> items[k] == Parse(j, inners[k])
      {
        var item := ParseXmlValue(j, inners[i]);
        items := items + [item];
      }
      assert items == ParseItems(j, |c|, inners);
      return Arr(items);
    }
    if [Ns, Chr('<')] <= c {
      var pairs := KeyedPairs(c);
      var fields := [];
      for i := 0 to |pairs|
        invariant fields == ParseFields(j, |c|, pairs[..i])
      {
        var value := ParseXmlValue(j, pairs[i].inner);
        assert pairs[..i + 1][..i] == pairs[..i];
        fields := Assign(fields, Field(pairs[i].key, value));
      }
      assert pairs[..|pairs|] == pairs;
      if fields != [] {
        return Obj(fields);
      }
    }
    var loaded := j.loads(c);
    return if loaded.Some? then loaded.value else Str(c);
  }
}
