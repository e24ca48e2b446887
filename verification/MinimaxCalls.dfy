// The tool calls of swift/agent_template/minimax_m3.py: _format_tool_calls and get_toolcall
// without tool schemas, and when the calls come back.
module MinimaxCalls {
  import opened Options
  import opened MinimaxExact
  import opened MinimaxPieces
  import opened MinimaxRoundTrip
  import opened MinimaxXml
  import opened Searching

  datatype Call = Call(name: Doc, arguments: seq<Field>)

  const NEWLINE: Doc := [Chr('\n')]
  const TOOL_CALL: Doc := [Chr('t'), Chr('o'), Chr('o'), Chr('l'), Chr('_'), Chr('c'), Chr('a'), Chr('l'), Chr('l')]
  const INVOKE: Doc := [Chr('i'), Chr('n'), Chr('v'), Chr('o'), Chr('k'), Chr('e')]
  const NAME: Doc := [Chr('n'), Chr('a'), Chr('m'), Chr('e'), Chr('='), Chr('"')]
  const NAME_END: Doc := [Chr('"'), Chr('>')]
  const NULL: Doc := [Chr('n'), Chr('u'), Chr('l'), Chr('l')]

  // ------------------------------------------------------------------------ formatting

  // <invoke name="..."> after its token
  function InvokeTail(name: Doc): Doc {
    [Chr('<')] + (INVOKE + ([Chr(' ')] + (NAME + (name + NAME_END))))
  }

  function Invocation(j: Json, c: Call): Doc {
    [Ns] + InvokeTail(c.name) + FieldsToXml(j, c.arguments) + CloseTag(INVOKE)
  }

  function Invocations(j: Json, calls: seq<Call>): seq<Doc> {
    if calls == [] then [] else [Invocation(j, calls[0])] + Invocations(j, calls[1..])
  }

  // '\n'.join
  function JoinLines(docs: seq<Doc>): Doc {
    if docs == [] then [] else if |docs| == 1 then docs[0] else docs[0] + NEWLINE + JoinLines(docs[1..])
  }

  // _format_tool_calls
  function FormatToolCalls(j: Json, calls: seq<Call>): Doc {
    if calls == [] then []
    else OpenTag(TOOL_CALL) + (NEWLINE + JoinLines(Invocations(j, calls)) + NEWLINE) + CloseTag(TOOL_CALL)
  }

  // --------------------------------------------------------------------------- parsing

  function SpaceRun(d: Doc): (n: nat)
    ensures n <= |d|
  {
    if d == [] || !Blank(d[0]) then 0 else 1 + SpaceRun(d[1..])
  }

  function NameRun(d: Doc): (n: nat)
    ensures n <= |d|
  {
    if d == [] || d[0] == Chr('"') then 0 else 1 + NameRun(d[1..])
  }

  datatype Invoke = Invoke(name: Doc, params: Doc, rest: Doc)

  // From the name on: the lazy group ends at the first closing tag.
  function MatchName(d: Doc): (r: Option<Invoke>)
    ensures r.Some? ==> |r.value.rest| < |d|
  {
    var n := NameRun(d);
    if n == 0 || !(NAME_END <= d[n..]) then None
    else
      var params := d[n + |NAME_END|..];
      match Find(params, CloseTag(INVOKE))
      case None => None
      case Some(e) => Some(Invoke(d[..n], params[..e], params[e + |CloseTag(INVOKE)|..]))
  }

  // _INVOKE_RE at the start of d.
  function MatchInvoke(d: Doc): (r: Option<Invoke>)
    ensures r.Some? ==> |r.value.rest| < |d|
  {
    var head := [Ns, Chr('<')] + INVOKE;
    if !(head <= d) then None
    else
      var n := SpaceRun(d[|head|..]);
      var named := d[|head|..][n..];
      if n == 0 || !(NAME <= named) then None else MatchName(named[|NAME|..])
  }

  // _INVOKE_RE.findall
  function FindInvokes(d: Doc): seq<Invoke>
    decreases |d|
  {
    match MatchInvoke(d)
    case Some(f) => [f] + FindInvokes(f.rest)
    case None => if d == [] then [] else FindInvokes(d[1..])
  }

  // One argument without a schema (base.py:338-349).  What _parse_xml_value gives is always a
  // JSON value.
  function DecodeValue(j: Json, value: Doc): Value {
    var raw := Strip(value);
    var parsed := Parse(j, raw);
    if parsed.Null? then (if raw == NULL then Null else Str(value)) else parsed
  }

  // _decode_schema_args without a schema (base.py:317-350)
  function DecodeArgs(j: Json, pairs: seq<Pair>): seq<Field> {
    if pairs == [] then []
    else
      var n := |pairs| - 1;
      Assign(DecodeArgs(j, pairs[..n]), Field(Strip(pairs[n].key), DecodeValue(j, pairs[n].inner)))
  }

  // The name is stripped by Function.__post_init__ (protocol.py:405-409).
  function ReadInvokes(j: Json, found: seq<Invoke>): seq<Call> {
    if found == [] then []
    else [Call(Strip(found[0].name), DecodeArgs(j, IterKeyed(found[0].params)))] + ReadInvokes(j, found[1..])
  }

  function ReadBlocks(j: Json, blocks: seq<Doc>): seq<Call> {
    if blocks == [] then [] else ReadInvokes(j, FindInvokes(blocks[0])) + ReadBlocks(j, blocks[1..])
  }

  // get_toolcall, up to the fallback for responses without any call.
  function GetToolcall(j: Json, response: Doc): seq<Call> {
    ReadBlocks(j, IterTagged(response, TOOL_CALL))
  }

  // ----------------------------------------------------------------------- the domain

  // A key k is rendered somewhere in the value.
  predicate Uses(v: Value, k: Doc) {
    match v
    case Obj(fields) => UsesIn(fields, k)
    case Arr(items) => exists i :: 0 <= i < |items| && Uses(items[i], k)
    case _ => false
  }

  predicate UsesIn(fields: seq<Field>, k: Doc) {
    exists i :: 0 <= i < |fields| && !fields[i].value.Null? && (fields[i].key == k || Uses(fields[i].value, k))
  }

  // The key is rendered exactly when its closing tag is.
  lemma {:induction false} UsesIffClose(j: Json, v: Value, k: Doc)
    requires k != ITEM
    ensures Uses(v, k) <==> Close(k) in Pieces(j, v)
    decreases v, 1
  {
    match v {
      case Obj(fields) => UsesInIffClose(j, fields, k);
      case Arr(items) => UsesItemsIffClose(j, items, k);
      case _ =>
    }
  }

  lemma {:induction false} UsesInIffClose(j: Json, fields: seq<Field>, k: Doc)
    requires k != ITEM
    ensures UsesIn(fields, k) <==> Close(k) in FieldPieces(j, fields)
    decreases fields, 0
  {
    hide Uses;
    if fields != [] {
      var f, rest := fields[0], fields[1..];
      UsesInIffClose(j, rest, k);
      UsesIffClose(j, f.value, k);
      assert UsesIn(fields, k) <==> (!f.value.Null? && (f.key == k || Uses(f.value, k))) || UsesIn(rest, k) by {
        if UsesIn(rest, k) {
          var i :| 0 <= i < |rest| && !rest[i].value.Null? && (rest[i].key == k || Uses(rest[i].value, k));
          assert fields[i + 1] == rest[i];
        }
      }
      hide UsesIn;
      assert Close(k) in Enclosed(f.key, Pieces(j, f.value)) <==> f.key == k || Close(k) in Pieces(j, f.value);
    }
  }

  lemma {:induction false} UsesItemsIffClose(j: Json, items: seq<Value>, k: Doc)
    requires k != ITEM
    ensures (exists i :: 0 <= i < |items| && Uses(items[i], k)) <==> Close(k) in ItemPieces(j, items)
    decreases items, 0
  {
    hide Uses;
    if items != [] {
      var x, rest := items[0], items[1..];
      UsesIffClose(j, x, k);
      UsesItemsIffClose(j, rest, k);
      assert (exists i :: 0 <= i < |items| && Uses(items[i], k)) <==>
        Uses(x, k) || (exists i :: 0 <= i < |rest| && Uses(rest[i], k)) by {
        if i :| 0 <= i < |rest| && Uses(rest[i], k) {
          assert items[i + 1] == rest[i];
        }
      }
      assert Close(k) in Enclosed(ITEM, Pieces(j, x)) <==> Close(k) in Pieces(j, x);
    }
  }

  // A name the pattern captures, and arguments that are as in RoundTripExactly.
  predicate CallPlain(c: Call) {
    c.name != [] && Ns !in c.name && Chr('"') !in c.name && PlainFields(c.arguments)
  }

  // No tag of the arguments ends the call or the block.
  predicate CallOk(c: Call) {
    CallPlain(c) && !UsesIn(c.arguments, INVOKE) && !UsesIn(c.arguments, TOOL_CALL)
  }

  // ------------------------------------------------------------------ finding the block

  lemma {:induction false} TagsAreKeys()
    ensures KeyOk(INVOKE) && KeyOk(TOOL_CALL) && INVOKE != ITEM && TOOL_CALL != ITEM && INVOKE != TOOL_CALL
  {
    assert |INVOKE| == 6 && |TOOL_CALL| == 9 && |ITEM| == 4;
  }

  lemma {:induction false} FindOver(ps: seq<Piece>, rest: Doc, p: Piece)
    requires Ok(ps) && PieceOk(p) && !p.Text? && p !in ps
    ensures Find(Flat(ps) + rest, PieceDoc(p)) == Later(Find(rest, PieceDoc(p)), |Flat(ps)|)
  {
    hide Find, PieceDoc;
    if ps == [] {
      assert Flat(ps) + rest == rest;
      LaterTwice(Find(rest, PieceDoc(p)), 0, 0);
    } else {
      var more := Flat(ps[1..]);
      assert (PieceDoc(ps[0]) + more) + rest == PieceDoc(ps[0]) + (more + rest);
      FindHead(ps[0], more + rest, p);
      FindOver(ps[1..], rest, p);
      LaterTwice(Find(rest, PieceDoc(p)), |more|, |PieceDoc(ps[0])|);
    }
  }

  lemma {:induction false} FindInside(ps: seq<Piece>, rest: Doc, p: Piece)
    requires Ok(ps) && PieceOk(p) && !p.Text? && p in ps
    ensures var found := Find(Flat(ps) + rest, PieceDoc(p)); found.Some? && found.value < |Flat(ps)|
  {
    TagHead(p);
    hide Find, PieceDoc;
    var more := Flat(ps[1..]);
    assert (PieceDoc(ps[0]) + more) + rest == PieceDoc(ps[0]) + (more + rest);
    FindHead(ps[0], more + rest, p);
    if ps[0] != p {
      FindInside(ps[1..], rest, p);
    }
  }

  lemma {:induction false} ThirdSymbol(name: Doc, rest: Doc)
    ensures !(CloseTag(TOOL_CALL) <= [Ns] + InvokeTail(name) + rest)
    ensures Ns !in name ==> Ns !in InvokeTail(name)
    ensures CloseTag(TOOL_CALL)[0] == Ns
  {
    assert CloseTag(TOOL_CALL)[2] == Chr('/');
    assert ([Ns] + InvokeTail(name) + rest)[2] == Chr('i');
  }

  // Where the end of the block first comes, from a call on: after the call, unless the
  // arguments have such a tag.
  lemma {:induction false} BlockEndFrom(j: Json, c: Call, rest: Doc)
    requires Faithful(j) && CallPlain(c)
    ensures var (found, n) := (Find(Invocation(j, c) + rest, CloseTag(TOOL_CALL)), |Invocation(j, c)|);
      if UsesIn(c.arguments, TOOL_CALL) then found.Some? && found.value < n
      else found == Later(Find(rest, CloseTag(TOOL_CALL)), n)
  {
    hide Find, Flat, InvokeTail, UsesIn, Faithful, PlainFields, KeyOk, CloseTag, Ok, FieldsToXml, FieldPieces;
    var end := CloseTag(TOOL_CALL);
    var ps, tail := FieldPieces(j, c.arguments), InvokeTail(c.name);
    TagsAreKeys();
    FieldsToXmlIsFlat(j, c.arguments);
    FieldPiecesOk(j, c.arguments);
    UsesInIffClose(j, c.arguments, TOOL_CALL);
    ClosePiece(INVOKE);
    ClosePiece(TOOL_CALL);
    var after := CloseTag(INVOKE) + rest;
    assert Invocation(j, c) + rest == [Ns] + tail + (Flat(ps) + after);
    ThirdSymbol(c.name, Flat(ps) + after);
    FindMisses(Ns, tail, Flat(ps) + after, end);
    if UsesIn(c.arguments, TOOL_CALL) {
      FindInside(ps, after, Close(TOOL_CALL));
    } else {
      FindOver(ps, after, Close(TOOL_CALL));
      FindHead(Close(INVOKE), rest, Close(TOOL_CALL));
      LaterTwice(Find(rest, end), |CloseTag(INVOKE)|, |Flat(ps)|);
      LaterTwice(Find(rest, end), |CloseTag(INVOKE)| + |Flat(ps)|, 1 + |tail|);
    }
  }

  lemma {:induction false} ClosePiece(k: Doc)
    requires KeyOk(k)
    ensures PieceDoc(Close(k)) == CloseTag(k) && PieceOk(Close(k))
  {
  }

  // What the block holds: a line break, then the calls with a line break after each.
  function Content(j: Json, calls: seq<Call>): Doc {
    if calls == [] then NEWLINE else NEWLINE + (Invocation(j, calls[0]) + Content(j, calls[1..]))
  }

  lemma {:induction false} ContentIsJoined(j: Json, calls: seq<Call>)
    requires calls != []
    ensures Content(j, calls) == NEWLINE + JoinLines(Invocations(j, calls)) + NEWLINE
  {
    hide Invocation;
    var first, more := Invocation(j, calls[0]), Invocations(j, calls[1..]);
    assert Invocations(j, calls)[1..] == more;
    if |calls| == 1 {
      assert NEWLINE + (first + NEWLINE) == NEWLINE + first + NEWLINE;
    } else {
      ContentIsJoined(j, calls[1..]);
      var lines := JoinLines(more);
      assert NEWLINE + (first + (NEWLINE + lines + NEWLINE)) == NEWLINE + (first + NEWLINE + lines) + NEWLINE;
    }
  }

  lemma {:induction false} PastNewline(rest: Doc)
    ensures Find(NEWLINE + rest, CloseTag(TOOL_CALL)) == Later(Find(rest, CloseTag(TOOL_CALL)), |NEWLINE|)
    ensures |NEWLINE| == 1
  {
    hide Find;
    assert CloseTag(TOOL_CALL)[0] == Ns;
    FindSkips(NEWLINE, rest, CloseTag(TOOL_CALL));
  }

  // Some arguments have a tag that ends the block.
  predicate EndsBlock(calls: seq<Call>) {
    exists i :: 0 <= i < |calls| && UsesIn(calls[i].arguments, TOOL_CALL)
  }

  lemma {:induction false} EndsBlockCons(calls: seq<Call>)
    requires calls != []
    ensures EndsBlock(calls) <==> UsesIn(calls[0].arguments, TOOL_CALL) || EndsBlock(calls[1..])
  {
    hide UsesIn;
    if i :| 0 <= i < |calls| - 1 && UsesIn(calls[1..][i].arguments, TOOL_CALL) {
      assert calls[i + 1] == calls[1..][i];
    }
  }

  lemma {:induction false} BlockEnd(j: Json, calls: seq<Call>, rest: Doc)
    requires Faithful(j) && forall i :: 0 <= i < |calls| ==> CallPlain(calls[i])
    ensures var (found, n) := (Find(Content(j, calls) + rest, CloseTag(TOOL_CALL)), |Content(j, calls)|);
      if EndsBlock(calls) then found.Some? && found.value < n
      else found == Later(Find(rest, CloseTag(TOOL_CALL)), n)
  {
    hide Find, Invocation, Faithful, CallPlain, CloseTag, NEWLINE, EndsBlock, UsesIn;
    var end := CloseTag(TOOL_CALL);
    if calls == [] {
      PastNewline(rest);
      assert !EndsBlock(calls) by {
        NoCalls();
      }
    } else {
      var first, more := Invocation(j, calls[0]), Content(j, calls[1..]);
      assert Content(j, calls) + rest == NEWLINE + (first + (more + rest));
      EndsBlockCons(calls);
      PastNewline(first + (more + rest));
      BlockEndFrom(j, calls[0], more + rest);
      BlockEnd(j, calls[1..], rest);
      LaterTwice(Find(rest, end), |more|, |first|);
      LaterTwice(Find(rest, end), |more| + |first|, 1);
    }
  }

  lemma {:induction false} NoCalls()
    ensures !EndsBlock([])
  {
  }

  // The block is found whole exactly when no argument has a tag that ends it.
  lemma {:induction false} BlockExactly(j: Json, calls: seq<Call>)
    requires Faithful(j) && calls != [] && forall i :: 0 <= i < |calls| ==> CallPlain(calls[i])
    ensures IterTagged(FormatToolCalls(j, calls), TOOL_CALL) == [Content(j, calls)] <==> !EndsBlock(calls)
  {
    hide Find, IterTagged, OpenTag, CloseTag, Content, Faithful, CallPlain, Invocations, JoinLines, EndsBlock;
    var end, content := CloseTag(TOOL_CALL), Content(j, calls);
    ContentIsJoined(j, calls);
    var body := content + end;
    assert OpenTag(TOOL_CALL) + content + end == OpenTag(TOOL_CALL) + body;
    assert content + (end + []) == body && end + [] == end;
    BlockEnd(j, calls, end);
    FindHere(end, []);
    TaggedOpen(TOOL_CALL, body);
    if !EndsBlock(calls) {
      assert body[..|content|] == content && body[|content| + |end|..] == [];
      NothingTagged(TOOL_CALL);
    } else {
      assert |IterTagged(FormatToolCalls(j, calls), TOOL_CALL)[0]| < |content|;
    }
  }

  lemma {:induction false} NothingTagged(tag: Doc)
    ensures IterTagged([], tag) == []
  {
  }

  // ------------------------------------------------------------------ finding the calls

  lemma {:induction false} NameRunIs(name: Doc, rest: Doc)
    requires Chr('"') !in name && rest != [] && rest[0] == Chr('"')
    ensures NameRun(name + rest) == |name|
  {
    if name == [] {
      assert name + rest == rest;
    } else {
      assert (name + rest)[1..] == name[1..] + rest && (name + rest)[0] == name[0];
      NameRunIs(name[1..], rest);
    }
  }

  lemma {:induction false} NameMatches(name: Doc, text: Doc)
    requires name != [] && Chr('"') !in name
    ensures MatchName(name + (NAME_END + text)) ==
      match Find(text, CloseTag(INVOKE))
      case None => None
      case Some(e) => Some(Invoke(name, text[..e], text[e + |CloseTag(INVOKE)|..]))
  {
    hide Find, CloseTag;
    var d := name + (NAME_END + text);
    NameRunIs(name, NAME_END + text);
    assert d[..|name|] == name && d[|name|..] == NAME_END + text;
    assert d[|name| + |NAME_END|..] == text;
  }

  lemma {:induction false} OneSpace(rest: Doc)
    requires rest != [] && rest[0] == Chr('n')
    ensures SpaceRun([Chr(' ')] + rest) == 1
  {
    var d := [Chr(' ')] + rest;
    assert d[1..] == rest;
    assert !Blank(rest[0]);
    assert SpaceRun(rest) == 0;
  }

  lemma {:induction false} InvokeMatches(name: Doc, text: Doc)
    ensures MatchInvoke([Ns] + InvokeTail(name) + text) == MatchName(name + (NAME_END + text))
  {
    hide MatchName, SpaceRun;
    var head, named := [Ns, Chr('<')] + INVOKE, NAME + (name + (NAME_END + text));
    var d := [Ns] + InvokeTail(name) + text;
    assert d == head + ([Chr(' ')] + named);
    assert d[|head|..] == [Chr(' ')] + named;
    OneSpace(named);
    assert ([Chr(' ')] + named)[1..] == named;
    assert named[|NAME|..] == name + (NAME_END + text);
  }

  // A call is found whole exactly when its arguments have no tag that ends it.
  lemma {:induction false} CallExactly(j: Json, c: Call, rest: Doc)
    requires Faithful(j) && CallPlain(c)
    ensures MatchInvoke(Invocation(j, c) + rest) == Some(Invoke(c.name, Flat(FieldPieces(j, c.arguments)), rest))
      <==> !UsesIn(c.arguments, INVOKE)
  {
    hide Find, Flat, InvokeTail, UsesIn, Faithful, PlainFields, KeyOk, CloseTag, Ok, FieldsToXml, FieldPieces;
    hide MatchInvoke, MatchName, NAME_END;
    var ps, tail := FieldPieces(j, c.arguments), InvokeTail(c.name);
    TagsAreKeys();
    FieldsToXmlIsFlat(j, c.arguments);
    FieldPiecesOk(j, c.arguments);
    UsesInIffClose(j, c.arguments, INVOKE);
    ClosePiece(INVOKE);
    var after := CloseTag(INVOKE) + rest;
    assert Invocation(j, c) + rest == [Ns] + tail + (Flat(ps) + after);
    InvokeMatches(c.name, Flat(ps) + after);
    if UsesIn(c.arguments, INVOKE) {
      FindInside(ps, after, Close(INVOKE));
    } else {
      FindOver(ps, after, Close(INVOKE));
      FindHere(CloseTag(INVOKE), rest);
    }
    NameMatches(c.name, Flat(ps) + after);
    CutWhole(Flat(ps), CloseTag(INVOKE), rest);
  }

  lemma {:induction false} CutWhole(params: Doc, end: Doc, rest: Doc)
    ensures var d := params + (end + rest); d[..|params|] == params && d[|params| + |end|..] == rest
  {
  }

  lemma {:induction false} NoInvoke(rest: Doc)
    ensures FindInvokes(NEWLINE + rest) == FindInvokes(rest)
    ensures FindInvokes([]) == []
  {
    var d := NEWLINE + rest;
    assert d[1..] == rest;
    assert d[0] != ([Ns, Chr('<')] + INVOKE)[0];
  }

  lemma {:induction false} FindInvokesStep(d: Doc, f: Invoke)
    requires MatchInvoke(d) == Some(f)
    ensures FindInvokes(d) == [f] + FindInvokes(f.rest)
  {
    hide MatchInvoke;
  }

  // -------------------------------------------------------------- reading the arguments

  // What the arguments come back as, None left out.
  function Decoded(j: Json, fields: seq<Field>): seq<Field> {
    if fields == [] then []
    else
      var f := fields[0];
      (if f.value.Null? then [] else [Field(f.key, DecodeValue(j, ToXml(j, f.value)))]) + Decoded(j, fields[1..])
  }

  lemma {:induction false} KeyStripped(k: Doc)
    requires KeyOk(k)
    ensures Strip(k) == k
  {
    assert KeyChar(k[0]) && KeyChar(k[|k| - 1]);
    StripFacts(k);
  }

  function DecodePair(j: Json, p: Pair): Field {
    Field(p.key, DecodeValue(j, p.inner))
  }

  lemma {:induction false} ArgsOfPairs(j: Json, pairs: seq<Pair>)
    requires DistinctPairs(pairs) && forall i :: 0 <= i < |pairs| ==> KeyOk(pairs[i].key)
    ensures var fields := DecodeArgs(j, pairs);
      |fields| == |pairs| && forall i :: 0 <= i < |pairs| ==> fields[i] == DecodePair(j, pairs[i])
  {
    hide DecodeValue, KeyOk, Strip;
    if pairs != [] {
      var n := |pairs| - 1;
      ArgsOfPairs(j, pairs[..n]);
      KeyStripped(pairs[n].key);
      AssignNew(DecodeArgs(j, pairs[..n]), DecodePair(j, pairs[n]));
    }
  }

  lemma {:induction false} DecodedPairs(j: Json, fields: seq<Field>)
    ensures var (pairs, d) := (PairsOf(j, fields), Decoded(j, fields));
      |d| == |pairs| && forall i :: 0 <= i < |pairs| ==> d[i] == DecodePair(j, pairs[i])
  {
    hide DecodeValue, ToXml;
    if fields != [] {
      DecodedPairs(j, fields[1..]);
    }
  }

  lemma {:induction false} PairKeysOk(j: Json, fields: seq<Field>)
    requires PlainFields(fields)
    ensures var pairs := PairsOf(j, fields); DistinctPairs(pairs) && forall i :: 0 <= i < |pairs| ==> KeyOk(pairs[i].key)
  {
    hide KeyOk, Plain, PairsOf;
    PairKeys(j, fields);
    var pairs := PairsOf(j, fields);
    forall i | 0 <= i < |pairs| ensures KeyOk(pairs[i].key) {
      var k :| 0 <= k < |fields| && pairs[i].key == fields[k].key;
      assert KeyOk(fields[k].key);
    }
  }

  lemma {:induction false} ArgumentsAre(j: Json, fields: seq<Field>)
    requires Faithful(j) && PlainFields(fields)
    ensures DecodeArgs(j, IterKeyed(Flat(FieldPieces(j, fields)))) == Decoded(j, fields)
  {
    hide *;
    var pairs := PairsOf(j, fields);
    KeyedFields(j, fields);
    PairKeysOk(j, fields);
    ArgsOfPairs(j, pairs);
    DecodedPairs(j, fields);
    assert DecodeArgs(j, pairs) == Decoded(j, fields);
  }

  lemma {:induction false} ParseStripped(j: Json, d: Doc)
    ensures Parse(j, Strip(d)) == Parse(j, d)
  {
    StripFacts(d);
    hide Strip, IterTagged, IterKeyed;
  }

  // json.loads gives None for the text null only.
  ghost predicate OneNull(j: Json) {
    forall d :: j.loads(d) == Some(Null) ==> d == NULL
  }

  lemma {:induction false} NullText(j: Json, d: Doc)
    requires OneNull(j) && Parse(j, d).Null?
    ensures Strip(d) == NULL
  {
    hide Strip, IterTagged, IterKeyed;
  }

  lemma {:induction false} ValueComesBack(j: Json, v: Value)
    requires Faithful(j) && OneNull(j) && Plain(v) && !v.Null?
    ensures DecodeValue(j, ToXml(j, v)) == v <==> RoundTrips(j, v)
  {
    hide Parse, Strip, Faithful, OneNull, Plain, RoundTrips, ToXml;
    var d := ToXml(j, v);
    ParseStripped(j, d);
    RoundTripExactly(j, v);
    if Parse(j, d).Null? {
      NullText(j, d);
    }
  }

  // No argument is None, and every value comes back.
  predicate ArgsReturn(j: Json, fields: seq<Field>) {
    forall i :: 0 <= i < |fields| ==> RoundTrips(j, fields[i].value)
  }

  lemma {:induction false} DecodedSame(j: Json, fields: seq<Field>)
    requires Faithful(j) && OneNull(j) && PlainFields(fields)
    ensures |Decoded(j, fields)| <= |fields|
    ensures Decoded(j, fields) == fields <==> ArgsReturn(j, fields)
  {
    hide Faithful, OneNull, DecodeValue, ToXml, KeyOk;
    if fields != [] {
      var f, rest := fields[0], fields[1..];
      DecodedSame(j, rest);
      assert Plain(f.value);
      hide Plain;
      assert ArgsReturn(j, fields) <==> RoundTrips(j, f.value) && ArgsReturn(j, rest) by {
        assert forall i :: 0 <= i < |rest| ==> rest[i] == fields[i + 1];
      }
      hide ArgsReturn;
      assert fields == [f] + rest;
      if f.value.Null? {
        assert |Decoded(j, fields)| < |fields|;
      } else {
        ValueComesBack(j, f.value);
        var d := Decoded(j, fields);
        assert d[0] == Field(f.key, DecodeValue(j, ToXml(j, f.value))) && d[1..] == Decoded(j, rest);
      }
    }
  }

  // -------------------------------------------------------------------- the theorem

  // What a formatted call is read as.
  function Returned(j: Json, c: Call): Call {
    Call(Strip(c.name), Decoded(j, c.arguments))
  }

  lemma {:induction false} ReturnedSame(j: Json, c: Call)
    requires Faithful(j) && OneNull(j) && CallOk(c)
    ensures Returned(j, c) == c <==> Trimmed(c.name) && ArgsReturn(j, c.arguments)
  {
    hide Strip, Trimmed, Decoded, ArgsReturn, Faithful, OneNull, PlainFields, UsesIn;
    StripFacts(c.name);
    DecodedSame(j, c.arguments);
  }

  lemma {:induction false} ContentReads(j: Json, calls: seq<Call>)
    requires Faithful(j) && forall i :: 0 <= i < |calls| ==> CallOk(calls[i])
    ensures var read := ReadInvokes(j, FindInvokes(Content(j, calls)));
      |read| == |calls| && forall i :: 0 <= i < |calls| ==> read[i] == Returned(j, calls[i])
  {
    hide FindInvokes, Faithful, CallOk, Returned, NEWLINE;
    if calls == [] {
      NoInvoke([]);
      assert NEWLINE + [] == NEWLINE;
    } else {
      var c := calls[0];
      FirstReads(j, c, Content(j, calls[1..]));
      ContentReads(j, calls[1..]);
    }
  }

  lemma {:induction false} FirstReads(j: Json, c: Call, rest: Doc)
    requires Faithful(j) && CallOk(c)
    ensures ReadInvokes(j, FindInvokes(NEWLINE + (Invocation(j, c) + rest))) ==
      [Returned(j, c)] + ReadInvokes(j, FindInvokes(rest))
  {
    hide FindInvokes, Invocation, Faithful, Strip, DecodeArgs, Decoded, IterKeyed, PlainFields, UsesIn, NEWLINE, Flat, FieldPieces;
    NoInvoke(Invocation(j, c) + rest);
    CallExactly(j, c, rest);
    var f := Invoke(c.name, Flat(FieldPieces(j, c.arguments)), rest);
    FindInvokesStep(Invocation(j, c) + rest, f);
    var more := FindInvokes(rest);
    assert ([f] + more)[0] == f && ([f] + more)[1..] == more;
    ArgumentsOf(j, c);
  }

  lemma {:induction false} ArgumentsOf(j: Json, c: Call)
    requires Faithful(j) && CallOk(c)
    ensures DecodeArgs(j, IterKeyed(Flat(FieldPieces(j, c.arguments)))) == Decoded(j, c.arguments)
  {
    hide Faithful, Decoded, DecodeArgs, IterKeyed, PlainFields, UsesIn, Flat, FieldPieces;
    ArgumentsAre(j, c.arguments);
  }

  // Formatted calls, read back without schemas, are as many and in the same order.  They are
  // the same calls if and only if the names are trimmed and every argument value comes back
  // from its own rendering.
  lemma {:induction false} ToolCallsComeBack(j: Json, calls: seq<Call>)
    requires Faithful(j) && OneNull(j) && forall i :: 0 <= i < |calls| ==> CallOk(calls[i])
    ensures |GetToolcall(j, FormatToolCalls(j, calls))| == |calls|
    ensures GetToolcall(j, FormatToolCalls(j, calls)) == calls <==>
      forall i :: 0 <= i < |calls| ==> Trimmed(calls[i].name) && ArgsReturn(j, calls[i].arguments)
  {
    hide Faithful, OneNull, CallOk, CallPlain, EndsBlock, ArgsReturn, Trimmed;
    hide FormatToolCalls, IterTagged, FindInvokes, Content, ReadInvokes, Returned;
    if calls == [] {
      NothingFormatted(j);
      NothingTagged(TOOL_CALL);
    } else {
      AllPlain(calls);
      BlockExactly(j, calls);
      var read := ReadInvokes(j, FindInvokes(Content(j, calls)));
      ContentReads(j, calls);
      OneBlock(j, Content(j, calls));
      forall i | 0 <= i < |calls|
        ensures read[i] == calls[i] <==> Trimmed(calls[i].name) && ArgsReturn(j, calls[i].arguments) {
        ReturnedSame(j, calls[i]);
      }
    }
  }

  lemma {:induction false} AllPlain(calls: seq<Call>)
    requires forall i :: 0 <= i < |calls| ==> CallOk(calls[i])
    ensures !EndsBlock(calls) && forall i :: 0 <= i < |calls| ==> CallPlain(calls[i])
  {
    hide CallPlain, UsesIn;
  }

  lemma {:induction false} OneBlock(j: Json, block: Doc)
    ensures ReadBlocks(j, [block]) == ReadInvokes(j, FindInvokes(block))
  {
    hide ReadInvokes, FindInvokes;
    assert [block][1..] == [];
    assert ReadInvokes(j, FindInvokes(block)) + [] == ReadInvokes(j, FindInvokes(block));
  }

  lemma {:induction false} NothingFormatted(j: Json)
    ensures FormatToolCalls(j, []) == []
  {
  }

  // ------------------------------------------------------------------------------ loops

  lemma {:induction false} FieldsSnoc(j: Json, fields: seq<Field>, f: Field)
    ensures FieldsToXml(j, fields + [f]) ==
      FieldsToXml(j, fields) + if f.value.Null? then [] else OpenTag(f.key) + ToXml(j, f.value) + CloseTag(f.key)
  {
    hide ToXml, OpenTag, CloseTag;
    if fields == [] {
      assert fields + [f] == [f] && [f][1..] == [];
    } else {
      assert (fields + [f])[1..] == fields[1..] + [f];
      FieldsSnoc(j, fields[1..], f);
    }
  }

  lemma {:induction false} InvocationsSnoc(j: Json, calls: seq<Call>, c: Call)
    ensures Invocations(j, calls + [c]) == Invocations(j, calls) + [Invocation(j, c)]
  {
    hide Invocation;
    if calls == [] {
      assert calls + [c] == [c] && [c][1..] == [];
    } else {
      assert (calls + [c])[1..] == calls[1..] + [c];
      InvocationsSnoc(j, calls[1..], c);
    }
  }

  // _format_tool_calls
  method FormatCalls(j: Json, calls: seq<Call>) returns (text: Doc)
    ensures text == FormatToolCalls(j, calls)
  {
    hide InvokeTail, OpenTag, CloseTag, ToXml, FieldsToXml, JoinLines;
    var invocations := [];
    for i := 0 to |calls|
      invariant invocations == Invocations(j, calls[..i])
    {
      var params := FormatArguments(j, calls[i].arguments);
      assert calls[..i + 1] == calls[..i] + [calls[i]];
      InvocationsSnoc(j, calls[..i], calls[i]);
      invocations := invocations + [[Ns] + InvokeTail(calls[i].name) + params + CloseTag(INVOKE)];
    }
    assert calls[..|calls|] == calls;
    if |calls| == 0 {
      return [];
    }
    text := OpenTag(TOOL_CALL) + (NEWLINE + JoinLines(invocations) + NEWLINE) + CloseTag(TOOL_CALL);
  }

  method FormatArguments(j: Json, arguments: seq<Field>) returns (text: Doc)
    ensures text == FieldsToXml(j, arguments)
  {
    hide OpenTag, CloseTag, ToXml;
    text := [];
    for i := 0 to |arguments|
      invariant text == FieldsToXml(j, arguments[..i])
    {
      var f := arguments[i];
      assert arguments[..i + 1] == arguments[..i] + [f];
      FieldsSnoc(j, arguments[..i], f);
      if f.value.Null? {
        continue;
      }
      text := text + (OpenTag(f.key) + ToXml(j, f.value) + CloseTag(f.key));
    }
    assert arguments[..|arguments|] == arguments;
  }

  // _decode_schema_args without a schema
  method DecodeSchemaArgs(j: Json, pairs: seq<Pair>) returns (args: seq<Field>)
    ensures args == DecodeArgs(j, pairs)
  {
    hide Parse, Strip, Assign;
    args := [];
    for i := 0 to |pairs|
      invariant args == DecodeArgs(j, pairs[..i])
    {
      assert pairs[..i + 1][..i] == pairs[..i];
      var raw := Strip(pairs[i].inner);
      var parsed := Parse(j, raw);
      if parsed.Null? && raw != NULL {
        parsed := Str(pairs[i].inner);
      }
      args := Assign(args, Field(Strip(pairs[i].key), parsed));
    }
    assert pairs[..|pairs|] == pairs;
  }

  lemma {:induction false} ReadInvokesSnoc(j: Json, found: seq<Invoke>, f: Invoke)
    ensures ReadInvokes(j, found + [f]) ==
      ReadInvokes(j, found) + [Call(Strip(f.name), DecodeArgs(j, IterKeyed(f.params)))]
  {
    hide Strip, DecodeArgs, IterKeyed;
    if found == [] {
      assert found + [f] == [f] && [f][1..] == [];
    } else {
      assert (found + [f])[1..] == found[1..] + [f];
      ReadInvokesSnoc(j, found[1..], f);
    }
  }

  lemma {:induction false} ReadBlocksSnoc(j: Json, blocks: seq<Doc>, block: Doc)
    ensures ReadBlocks(j, blocks + [block]) == ReadBlocks(j, blocks) + ReadInvokes(j, FindInvokes(block))
  {
    hide ReadInvokes, FindInvokes;
    if blocks == [] {
      assert blocks + [block] == [block];
      OneBlock(j, block);
    } else {
      assert (blocks + [block])[1..] == blocks[1..] + [block];
      ReadBlocksSnoc(j, blocks[1..], block);
    }
  }

  // get_toolcall
  method ReadToolcalls(j: Json, response: Doc) returns (functions: seq<Call>)
    ensures functions == GetToolcall(j, response)
  {
    hide Strip, DecodeArgs, IterKeyed, IterTagged, FindInvokes, ReadInvokes;
    functions := [];
    var blocks := IterTagged(response, TOOL_CALL);
    for i := 0 to |blocks|
      invariant functions == ReadBlocks(j, blocks[..i])
    {
      var found := FindInvokes(blocks[i]);
      ghost var before := functions;
      NoneRead(j);
      for k := 0 to |found|
        invariant functions == before + ReadInvokes(j, found[..k])
      {
        assert found[..k + 1] == found[..k] + [found[k]];
        ReadInvokesSnoc(j, found[..k], found[k]);
        var arguments := DecodeSchemaArgs(j, IterKeyed(found[k].params));
        functions := functions + [Call(Strip(found[k].name), arguments)];
      }
      assert found[..|found|] == found;
      assert blocks[..i + 1] == blocks[..i] + [blocks[i]];
      ReadBlocksSnoc(j, blocks[..i], blocks[i]);
    }
    assert blocks[..|blocks|] == blocks;
  }

  lemma {:induction false} NoneRead(j: Json)
    ensures ReadInvokes(j, []) == []
  {
  }
}
