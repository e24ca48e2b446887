// The main results on the Gemma-4 DSL: the translation of every value, and the round trip of
// tool calls.
module Gemma4Calls {
  import opened Gemma4
  import opened Gemma4Translation
  import opened Options
  import opened Searching
  import opened Sequences
  import opened Substrings

  // ----------------------------------------------------------------------- sorted keys

  predicate KeysAtMost<T>(k: string, ps: seq<Pair<T>>) {
    forall i :: 0 <= i < |ps| ==> AtMost(k, ps[i].key)
  }

  predicate KeysSorted<T>(ps: seq<Pair<T>>) {
    ps == [] || (KeysAtMost(ps[0].key, ps[1..]) && KeysSorted(ps[1..]))
  }

  lemma {:induction false} AtMostTotal(a: string, b: string)
    ensures AtMost(a, b) || AtMost(b, a)
  {
    if a != "" && b != "" && a[0] == b[0] {
      AtMostTotal(a[1..], b[1..]);
    }
  }

  lemma {:induction false} AtMostTransitive(a: string, b: string, c: string)
    requires AtMost(a, b) && AtMost(b, c)
    ensures AtMost(a, c)
  {
    if a != "" && a[0] == b[0] == c[0] {
      AtMostTransitive(a[1..], b[1..], c[1..]);
    }
  }

  lemma {:induction false} AtMostOnce(a: string, b: string)
    requires AtMost(a, b) && AtMost(b, a)
    ensures a == b
  {
    if a != "" {
      AtMostOnce(a[1..], b[1..]);
      assert a == [a[0]] + a[1..] && b == [b[0]] + b[1..];
    }
  }

  lemma {:induction false} InsertKeySorts<T>(p: Pair<T>, ps: seq<Pair<T>>)
    requires KeysSorted(ps)
    ensures KeysSorted(InsertKey(p, ps)) && multiset(InsertKey(p, ps)) == multiset{p} + multiset(ps)
    ensures forall k: string :: AtMost(k, p.key) && KeysAtMost(k, ps) ==> KeysAtMost(k, InsertKey(p, ps))
  {
    if ps == [] || AtMost(p.key, ps[0].key) {
      assert multiset([p] + ps) == multiset{p} + multiset(ps);
      assert ([p] + ps)[1..] == ps;
      forall i | 0 <= i < |ps| ensures AtMost(p.key, ps[i].key) {
        if i > 0 {
          assert ps[1..][i - 1] == ps[i];
          AtMostTransitive(p.key, ps[0].key, ps[i].key);
        }
      }
    } else {
      AtMostTotal(p.key, ps[0].key);
      InsertKeySorts(p, ps[1..]);
      var rest := InsertKey(p, ps[1..]);
      assert ps == [ps[0]] + ps[1..];
      assert ([ps[0]] + rest)[1..] == rest;
      forall k: string | AtMost(k, p.key) && KeysAtMost(k, ps) ensures KeysAtMost(k, [ps[0]] + rest) {
        assert KeysAtMost(k, ps[1..]);
      }
    }
  }

  // sorted(): an ascending permutation.
  lemma {:induction false} SortKeysSorts<T>(ps: seq<Pair<T>>)
    ensures KeysSorted(SortKeys(ps)) && multiset(SortKeys(ps)) == multiset(ps)
  {
    if ps != [] {
      SortKeysSorts(ps[1..]);
      InsertKeySorts(ps[0], SortKeys(ps[1..]));
      assert ps == [ps[0]] + ps[1..];
    }
  }

  // Entries with the same key are the same entry, as in any dictionary.
  predicate OnePerKey<T(==)>(ps: seq<Pair<T>>) {
    forall i, k :: 0 <= i < |ps| && 0 <= k < |ps| && ps[i].key == ps[k].key ==> ps[i] == ps[k]
  }

  lemma {:induction false} OnePerKeyMoved<T>(a: seq<Pair<T>>, b: seq<Pair<T>>)
    requires OnePerKey(a) && multiset(a) == multiset(b)
    ensures OnePerKey(b)
  {
    forall i, k | 0 <= i < |b| && 0 <= k < |b| && b[i].key == b[k].key ensures b[i] == b[k] {
      assert b[i] in multiset(a) && b[k] in multiset(a);
      assert b[i] in a && b[k] in a;
    }
  }

  lemma {:induction false} SmallestFirst<T>(a: seq<Pair<T>>, p: Pair<T>)
    requires KeysSorted(a) && p in a
    ensures AtMost(a[0].key, p.key)
  {
    AtMostTotal(p.key, p.key);
    assert a == [a[0]] + a[1..];
  }

  // There is only one way to put the entries in order.
  lemma {:induction false} SortedOnce<T>(a: seq<Pair<T>>, b: seq<Pair<T>>)
    requires KeysSorted(a) && KeysSorted(b) && OnePerKey(a) && multiset(a) == multiset(b)
    ensures a == b
    decreases |a|
  {
    assert |multiset(a)| == |a| && |multiset(b)| == |b|;
    if a != [] {
      assert a[0] in multiset(b) && b[0] in multiset(a);
      assert a[0] in b && b[0] in a;
      SmallestFirst(a, b[0]);
      SmallestFirst(b, a[0]);
      AtMostOnce(a[0].key, b[0].key);
      assert a == [a[0]] + a[1..] && b == [b[0]] + b[1..];
      SameRest(multiset{a[0]}, multiset(a[1..]), multiset(b[1..]));
      SortedOnce(a[1..], b[1..]);
    }
  }

  lemma {:induction false} FormatFieldsMapped(q: Quoting, fields: seq<Pair<Value>>)
    ensures FormatFields(q, fields) == Mapped((f: Pair<Value>) => Pair(f.key, Format(q, f.value)), fields)
  {
    hide Format;
    if fields != [] {
      FormatFieldsMapped(q, fields[1..]);
    }
  }

  lemma {:induction false} FormatsOnePerKey(q: Quoting, fields: seq<Pair<Value>>)
    requires OnePerKey(fields)
    ensures OnePerKey(FormatFields(q, fields))
  {
    hide Format;
    FormatFieldsMapped(q, fields);
  }

  // The text of a dictionary does not depend on the order in which its keys were inserted.
  lemma {:induction false} InsertionOrderIsIrrelevant(q: Quoting, a: seq<Pair<Value>>, b: seq<Pair<Value>>)
    requires OnePerKey(a) && multiset(a) == multiset(b)
    ensures Format(q, Dict(a)) == Format(q, Dict(b))
  {
    hide KeysSorted, SortKeys, OnePerKey;
    FormatFieldsMapped(q, a);
    FormatFieldsMapped(q, b);
    SameMapped((f: Pair<Value>) => Pair(f.key, Format(q, f.value)), a, b);
    FormatsOnePerKey(q, a);
    var x, y := FormatFields(q, a), FormatFields(q, b);
    SortKeysSorts(x);
    SortKeysSorts(y);
    OnePerKeyMoved(x, SortKeys(x));
    SortedOnce(SortKeys(x), SortKeys(y));
  }

  // A value with every dictionary in the order of its keys.
  function Norm(v: Value): Value
    decreases v, 1
  {
    match v
    case Dict(fields) => Dict(SortKeys(NormFields(fields)))
    case Arr(items) => Arr(NormItems(items))
    case _ => v
  }

  function NormFields(fields: seq<Pair<Value>>): seq<Pair<Value>>
    decreases fields, 0
  {
    if fields == [] then []
    else
      var f := fields[0];
      [Pair(f.key, Norm(f.value))] + NormFields(fields[1..])
  }

  function NormItems(items: seq<Value>): seq<Value>
    decreases items, 0
  {
    if items == [] then [] else [Norm(items[0])] + NormItems(items[1..])
  }

  // --------------------------------------------------- printing in order, or sorting first

  function Printed(q: Quoting, fields: seq<Pair<Value>>): seq<Pair<string>> {
    seq(|fields|, i requires 0 <= i < |fields| => Pair(fields[i].key, Print(q, fields[i].value)))
  }

  lemma {:induction false} PrintedTail(q: Quoting, fields: seq<Pair<Value>>)
    requires fields != []
    ensures Printed(q, fields) == [Pair(fields[0].key, Print(q, fields[0].value))] + Printed(q, fields[1..])
  {
    hide Print;
  }

  lemma {:induction false} InsertPrinted(q: Quoting, p: Pair<Value>, ps: seq<Pair<Value>>)
    ensures InsertKey(Pair(p.key, Print(q, p.value)), Printed(q, ps)) == Printed(q, InsertKey(p, ps))
  {
    hide Print, AtMost;
    if ps == [] || AtMost(p.key, ps[0].key) {
      PrintedTail(q, [p] + ps);
      assert ([p] + ps)[1..] == ps;
    } else {
      InsertPrinted(q, p, ps[1..]);
      PrintedTail(q, ps);
      var rest := InsertKey(p, ps[1..]);
      PrintedTail(q, [ps[0]] + rest);
      assert ([ps[0]] + rest)[1..] == rest;
      assert Printed(q, ps)[1..] == Printed(q, ps[1..]);
    }
  }

  lemma {:induction false} SortPrinted(q: Quoting, ps: seq<Pair<Value>>)
    ensures SortKeys(Printed(q, ps)) == Printed(q, SortKeys(ps))
  {
    hide Print, InsertKey;
    if ps != [] {
      PrintedTail(q, ps);
      assert Printed(q, ps)[1..] == Printed(q, ps[1..]);
      SortPrinted(q, ps[1..]);
      InsertPrinted(q, ps[0], SortKeys(ps[1..]));
    }
  }

  lemma {:induction false} JoinPrinted(q: Quoting, fields: seq<Pair<Value>>)
    ensures Join(Entries(q, Printed(q, fields))) == PrintFields(q, fields)
    ensures |Entries(q, Printed(q, fields))| == |fields|
  {
    hide Print;
    if fields != [] {
      PrintedTail(q, fields);
      assert Printed(q, fields)[1..] == Printed(q, fields[1..]);
      JoinPrinted(q, fields[1..]);
      var f := fields[0];
      var entry := q.key(f.key) + ":" + Print(q, f.value);
      var es := Entries(q, Printed(q, fields));
      assert es == [entry] + Entries(q, Printed(q, fields[1..]));
      assert es[1..] == Entries(q, Printed(q, fields[1..]));
      if |fields| > 1 {
        assert (entry + ",") + PrintFields(q, fields[1..]) == entry + ("," + PrintFields(q, fields[1..]));
      } else {
        assert entry + "" == entry;
      }
    }
  }

  // Sorting while printing is printing the sorted value.
  lemma {:induction false} FormatIsPrint(q: Quoting, v: Value)
    ensures Format(q, v) == Print(q, Norm(v))
    decreases v, 1
  {
    hide SortKeys, Join;
    match v
    case Dict(fields) =>
      FormatFieldsIsPrint(q, fields);
      SortPrinted(q, NormFields(fields));
      JoinPrinted(q, SortKeys(NormFields(fields)));
    case Arr(items) =>
      FormatItemsIsPrint(q, items);
    case _ =>
  }

  lemma {:induction false} FormatFieldsIsPrint(q: Quoting, fields: seq<Pair<Value>>)
    ensures FormatFields(q, fields) == Printed(q, NormFields(fields))
    decreases fields, 0
  {
    hide Print, Norm, Format;
    if fields != [] {
      var f := fields[0];
      FormatIsPrint(q, f.value);
      FormatFieldsIsPrint(q, fields[1..]);
      PrintedTail(q, NormFields(fields));
      assert NormFields(fields)[1..] == NormFields(fields[1..]);
    }
  }

  lemma {:induction false} FormatItemsIsPrint(q: Quoting, items: seq<Value>)
    ensures Join(FormatItems(q, items)) == PrintItems(q, NormItems(items))
    ensures |FormatItems(q, items)| == |items| == |NormItems(items)|
    decreases items, 0
  {
    hide Print, Norm, Format;
    if items != [] {
      FormatIsPrint(q, items[0]);
      FormatItemsIsPrint(q, items[1..]);
      var first, more := Format(q, items[0]), FormatItems(q, items[1..]);
      assert FormatItems(q, items)[1..] == more;
      assert NormItems(items)[1..] == NormItems(items[1..]) && NormItems(items)[0] == Norm(items[0]);
      if |items| > 1 {
        assert (first + ",") + Join(more) == first + ("," + Join(more));
      } else {
        assert first + "" == first;
      }
    }
  }

  // ----------------------------------------------------------------- clean after sorting

  lemma {:induction false} InsertClean(j: Json, word: char -> bool, p: Pair<Value>, ps: seq<Pair<Value>>)
    requires Identifier(word, p.key) && Clean(j, word, p.value) && p.key !in Keys(ps) && CleanFields(j, word, ps)
    ensures CleanFields(j, word, InsertKey(p, ps)) && Keys(InsertKey(p, ps)) == {p.key} + Keys(ps)
  {
    hide AtMost, Clean, Identifier;
    if ps == [] || AtMost(p.key, ps[0].key) {
      assert ([p] + ps)[1..] == ps;
    } else {
      InsertClean(j, word, p, ps[1..]);
      var rest := InsertKey(p, ps[1..]);
      assert ([ps[0]] + rest)[1..] == rest;
    }
  }

  lemma {:induction false} SortClean(j: Json, word: char -> bool, ps: seq<Pair<Value>>)
    requires CleanFields(j, word, ps)
    ensures CleanFields(j, word, SortKeys(ps)) && Keys(SortKeys(ps)) == Keys(ps)
  {
    hide Clean, Identifier, InsertKey;
    if ps != [] {
      SortClean(j, word, ps[1..]);
      InsertClean(j, word, ps[0], SortKeys(ps[1..]));
    }
  }

  lemma {:induction false} NormClean(j: Json, word: char -> bool, v: Value)
    requires Clean(j, word, v)
    ensures Clean(j, word, Norm(v))
    decreases v, 1
  {
    hide SortKeys;
    match v
    case Dict(fields) =>
      NormFieldsClean(j, word, fields);
      SortClean(j, word, NormFields(fields));
    case Arr(items) => NormItemsClean(j, word, items);
    case _ =>
  }

  lemma {:induction false} NormFieldsClean(j: Json, word: char -> bool, fields: seq<Pair<Value>>)
    requires CleanFields(j, word, fields)
    ensures CleanFields(j, word, NormFields(fields)) && Keys(NormFields(fields)) == Keys(fields)
    decreases fields, 0
  {
    hide Clean, Identifier, Norm;
    if fields != [] {
      var f := fields[0];
      NormClean(j, word, f.value);
      NormFieldsClean(j, word, fields[1..]);
      assert NormFields(fields)[1..] == NormFields(fields[1..]);
    }
  }

  lemma {:induction false} NormItemsClean(j: Json, word: char -> bool, items: seq<Value>)
    requires CleanItems(j, word, items)
    ensures CleanItems(j, word, NormItems(items))
    decreases items, 0
  {
    hide Clean, Norm;
    if items != [] {
      NormClean(j, word, items[0]);
      NormItemsClean(j, word, items[1..]);
      assert NormItems(items)[1..] == NormItems(items[1..]);
    }
  }

  // ------------------------------------------------------------------- the translation

  // For every value whose strings hold no quote token and whose keys are identifiers: the
  // translation of its DSL text is its compact JSON text with sorted keys.
  lemma {:induction false} TranslatesDsl(j: Json, word: char -> bool, v: Value)
    requires Faithful(j, word) && Clean(j, word, v)
    ensures GemmaToJson(j, word, Format(DSL, v)) == Format(Compact(j), v)
  {
    assert Bare(j, word, "", false) == "";
    hide Bare, GemmaToJson, Format, Print, Norm, Clean;
    FaithfulFacts(j, word);
    FormatIsPrint(DSL, v);
    FormatIsPrint(Compact(j), v);
    NormClean(j, word, v);
    var text := Print(DSL, Norm(v));
    TranslatesValue(j, word, Norm(v), false, "");
    assert text + "" == text && Print(Compact(j), Norm(v)) + "" == Print(Compact(j), Norm(v));
    TranslationIsBare(j, word, text);

  }

  // What is asked of json.loads: the compact text of a value is read back as that value.
  ghost predicate ReadsBack(j: Json, word: char -> bool) {
    forall v :: Clean(j, word, v) ==> j.loads(Print(Compact(j), v)) == Some(v)
  }

  lemma {:induction false} ArgumentsReadBack(j: Json, word: char -> bool, v: Value)
    requires Faithful(j, word) && ReadsBack(j, word) && Clean(j, word, v)
    ensures ParseArguments(j, word, ArgumentText(v)) == if v.Dict? then Norm(v) else Dict([])
  {
    assert Clean(j, word, Dict([])) && Norm(Dict([])) == Dict([]);
    hide GemmaToJson, Print, Clean, ReadsBack, Faithful;
    var d := if v.Dict? then v else Dict([]);
    assert "{" + ArgumentText(v) + "}" == Format(DSL, d);
    TranslatesDsl(j, word, d);
    FormatIsPrint(Compact(j), d);
    NormClean(j, word, d);
    assert j.loads(Print(Compact(j), Norm(d))) == Some(Norm(d));
  }

  // --------------------------------------------------------------------- tool calls

  // A name the pattern can capture.
  predicate Nameable(name: string) {
    name != "" && '{' !in name
  }

  lemma {:induction false} CloseMarker(args: string, rest: string)
    ensures var found := Find(args + (CLOSE + rest), CLOSE);
      found.Some? && (found.value == |args| <==> Free(args, CLOSE)) && found.value <= |args|
  {
    hide Find;
    if Free(args, CLOSE) {
      assert CLOSE[0] == '}';
      BorderlessIsGuarded(CLOSE);
      FindAfter(args, CLOSE, rest);
    } else {
      FindStays(args, CLOSE + rest, CLOSE);
    }
  }

  // The pattern captures the name, and the whole of the arguments exactly when they do not
  // contain the closing marker.
  lemma {:induction false} MatchFormatted(c: Call, rest: string)
    requires Nameable(c.name)
    ensures var found := MatchCall(FormatCall(c) + rest);
      && found.Some? && found.value.name == c.name
      && (found.value.body == ArgumentText(c.arguments) <==> Free(ArgumentText(c.arguments), CLOSE))
      && (found.value.body == ArgumentText(c.arguments) ==> found.value.rest == rest)
  {
    hide Find, ArgumentText, Free, OPEN, CLOSE;
    var args := ArgumentText(c.arguments);
    var s := FormatCall(c) + rest;
    var tail := args + (CLOSE + rest);
    CallSplits(c.name, args, rest);
    var t := s[|OPEN|..];
    assert t == c.name + ("{" + tail);
    NameEnds(c.name, tail);
    assert t[..|c.name|] == c.name && t[|c.name| + 1..] == tail;
    CloseMarker(args, rest);
    var e := Find(tail, CLOSE).value;
    assert tail[..|args|] == args;
    if e == |args| {
      assert tail[e + |CLOSE|..] == rest;
    } else {
      assert |tail[..e]| < |args|;
    }
  }

  lemma {:induction false} CallSplits(name: string, args: string, rest: string)
    ensures (OPEN + name + "{" + args + CLOSE) + rest == OPEN + (name + ("{" + (args + (CLOSE + rest))))
  {
    hide OPEN, CLOSE;
    assert (OPEN + name + "{" + args + CLOSE) + rest == OPEN + name + "{" + args + (CLOSE + rest);
    assert OPEN + name + "{" + args + (CLOSE + rest) == OPEN + name + "{" + (args + (CLOSE + rest));
  }

  lemma {:induction false} NameEnds(name: string, tail: string)
    requires '{' !in name
    ensures Find(name + ("{" + tail), "{") == Some(|name|)
  {
    FindSkips(name, "{" + tail, "{");
    assert "{" <= "{" + tail;
  }

  // What a call is expected to be read back as.
  function Expected(c: Call): Call {
    Call(c.name, if c.arguments.Dict? then Norm(c.arguments) else Dict([]))
  }

  function ExpectedCalls(calls: seq<Call>): seq<Call> {
    if calls == [] then [] else [Expected(calls[0])] + ExpectedCalls(calls[1..])
  }

  predicate PlainCall(j: Json, word: char -> bool, c: Call) {
    Nameable(c.name) && Trimmed(c.name) && Clean(j, word, c.arguments) && Free(ArgumentText(c.arguments), CLOSE)
  }

  // Tool calls come back in order, with their names and their arguments, keys sorted; only
  // arguments that are not a dictionary are lost, and read back as the empty one.
  lemma {:induction false} ToolCallsComeBack(j: Json, word: char -> bool, calls: seq<Call>)
    requires Faithful(j, word) && ReadsBack(j, word)
    requires forall i :: 0 <= i < |calls| ==> PlainCall(j, word, calls[i])
    ensures GetToolcall(j, word, FormatToolCalls(calls)) == ExpectedCalls(calls)
  {
    assert FindCalls("") == [];
    hide MatchCall, FormatCall, ParseArguments, Faithful, ReadsBack, Clean, Free, ArgumentText;
    if calls != [] {
      var c := calls[0];
      assert PlainCall(j, word, c);
      var rest := FormatToolCalls(calls[1..]);
      MatchFormatted(c, rest);
      ArgumentsReadBack(j, word, c.arguments);
      TrimmedStays(c.name);
      ToolCallsComeBack(j, word, calls[1..]);
      var found := MatchCall(FormatCall(c) + rest).value;
      assert FindCalls(FormatToolCalls(calls)) == [found] + FindCalls(rest);
      assert ([found] + FindCalls(rest))[1..] == FindCalls(rest);
    } else {
    }
  }

  // ------------------------------------------------------------- any other response

  // Text between the calls is passed over.
  lemma {:induction false} FindCallsSkipsText(t: string, s: string)
    requires '<' !in t
    ensures FindCalls(t + s) == FindCalls(s)
  {
    if t == "" {
      assert t + s == s;
    } else {
      var all := t + s;
      assert all[0] == t[0] && t[0] in t && all[1..] == t[1..] + s;
      assert OPEN[0] == '<';
      hide MatchCall;
      NoCallHere(all);
      FindCallsSkipsText(t[1..], s);
    }
  }

  lemma {:induction false} NoCallHere(s: string)
    requires s != "" && s[0] != '<'
    ensures MatchCall(s).None?
  {
    assert OPEN[0] == '<';
  }

  // Arguments that cannot be read, or are no dictionary, become the empty one.
  lemma {:induction false} UnreadableIsEmpty(j: Json, word: char -> bool, body: string)
    requires var v := j.loads(GemmaToJson(j, word, "{" + body + "}")); v.None? || !v.value.Dict?
    ensures ParseArguments(j, word, body) == Dict([])
  {
    hide GemmaToJson;
  }
}
