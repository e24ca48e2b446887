// The exact round-trip theorem for the namespace-XML codec.
module MinimaxExact {
  import opened Options
  import opened MinimaxXml
  import opened Searching
  import opened MinimaxPieces
  import opened MinimaxRoundTrip

  // ------------------------------------------------------- the ends of a rendering

  lemma {:induction false} FieldEnds(j: Json, fields: seq<Field>)
    ensures var ps := FieldPieces(j, fields);
      && (ps != [] ==> ps[0].Open? && ps[|ps| - 1].Close?)
      && (fields != [] && !fields[0].value.Null? ==> ps != [] && ps[0] == Open(fields[0].key))
      && (fields != [] && !fields[|fields| - 1].value.Null? ==>
            ps != [] && ps[|ps| - 1] == Close(fields[|fields| - 1].key))
  {
    hide Pieces;
    if fields != [] {
      FieldEnds(j, fields[1..]);
      var f := fields[0];
      var head := if f.value.Null? then [] else Enclosed(f.key, Pieces(j, f.value));
      assert FieldPieces(j, fields) == head + FieldPieces(j, fields[1..]);
      if |fields| == 1 {
        assert fields[1..] == [];
      }
    }
  }

  lemma {:induction false} ItemEnds(j: Json, items: seq<Value>)
    requires items != []
    ensures var ps := ItemPieces(j, items); ps != [] && ps[0] == Open(ITEM) && ps[|ps| - 1] == Close(ITEM)
  {
    hide Pieces;
    if |items| > 1 {
      ItemEnds(j, items[1..]);
    } else {
      assert items[1..] == [];
    }
  }

  lemma {:induction false} ContainerStripped(ps: seq<Piece>)
    requires ps != [] && ps[0].Open? && !ps[|ps| - 1].Text?
    ensures Strip(Flat(ps)) == Flat(ps) && Flat(ps) != []
  {
    hide Flat, PieceDoc, Strip;
    StartsWithTag(ps, |ps|);
    assert ps[..|ps|] == ps;
    assert ps == ps[..|ps| - 1] + [ps[|ps| - 1]];
    FlatSnoc(ps[..|ps| - 1], ps[|ps| - 1]);
    TagEnds(ps[|ps| - 1]);
    TagStripped(Flat(ps));
  }

  // Which branch _parse_xml_value takes on a text that starts with an opening tag.
  lemma {:induction false} FirstTagDecides(ps: seq<Piece>)
    requires Ok(ps) && ps != [] && ps[0].Open?
    ensures OpenTag(ITEM) <= Flat(ps) <==> ps[0] == Open(ITEM)
    ensures [Ns, Chr('<')] <= Flat(ps)
  {
    ItemIsAKey();
    if OpenTag(ITEM) <= Flat(ps) {
      TagPrefix(Open(ITEM), ps[0], Flat(ps[1..]));
    }
  }

  // A text without a closing item tag yields no items.
  lemma {:induction false} NoItems(ps: seq<Piece>)
    requires Ok(ps) && ps != [] && ps[0] == Open(ITEM) && Close(ITEM) !in ps
    ensures IterTagged(Flat(ps), ITEM) == []
  {
    hide Find, PieceOk;
    ItemIsAKey();
    FindHead(Open(ITEM), Flat(ps[1..]), Open(ITEM));
    FindPiece(ps[1..], Close(ITEM));
    assert Flat(ps)[0 + |OpenTag(ITEM)|..] == Flat(ps[1..]);
  }

  lemma {:induction false} ParseItemFirst(j: Json, c: Doc)
    requires c != [] && Strip(c) == c && OpenTag(ITEM) <= c
    ensures Parse(j, c) == Arr(ParseItems(j, |c|, IterTagged(c, ITEM)))
  {
  }

  // ---------------------------------------------------------------- whole mappings

  lemma {:induction false} MappingRoundTrips(j: Json, fields: seq<Field>)
    requires Faithful(j) && PlainFields(fields)
    ensures Parse(j, Flat(FieldPieces(j, fields))) == Obj(fields) <==>
      fields != [] && fields[0].key != ITEM
      && forall i :: 0 <= i < |fields| ==> Parse(j, ToXml(j, fields[i].value)) == fields[i].value
  {
    hide Faithful, PlainFields, Flat, Parse, ToXml, IterKeyed, FieldPieces, PieceDoc, OpenTag, Strip, Ok, Find, KeyOk;
    var ps := FieldPieces(j, fields);
    FieldPiecesOk(j, fields);
    FieldEnds(j, fields);
    NullIsLost(j);
    if ps == [] {
      EmptyStrip();
    } else {
      ContainerStripped(ps);
      FirstTagDecides(ps);
      if ps[0] == Open(ITEM) {
        ParseItemFirst(j, Flat(ps));
      } else {
        KeyedFields(j, fields);
        MappingRoundTrip(j, Flat(ps), fields);
      }
    }
  }

  // ------------------------------------------------------------------ cut mappings

  // What the pairs of a cut mapping must look like to be as many as its entries: only the
  // last entry is cut.  `missing` pieces are missing.
  ghost predicate LastIsCut(j: Json, fields: seq<Field>, missing: int, pairs: seq<Pair>) {
    && fields != [] && |pairs| == |fields|
    && (forall i :: 0 <= i < |fields| - 1 ==> !HasItemTag(fields[i].value) && fields[i].key != ITEM)
    && var f, pair := fields[|fields| - 1], pairs[|fields| - 1];
    && pair.key == f.key && CutValue(j, f, missing, pair.inner)
  }

  // The cut entry: nothing after its opening tag, or a text that its own tag closes too early.
  ghost predicate CutValue(j: Json, f: Field, missing: int, inner: Doc) {
    var b := Pieces(j, f.value);
    || (inner == [] && missing == |b| + 1)
    || (f.key != ITEM && exists m: nat :: CutInside(b, m, f.key, inner))
  }

  predicate CutInside(b: seq<Piece>, m: nat, k: Doc, inner: Doc) {
    m < |b| && b[m] == Close(k) && Close(ITEM) !in b[..m] && inner == Flat(b[..m])
  }

  lemma {:induction false} StaysCut(ps: seq<Piece>, n: nat, t: Doc, name: Doc)
    requires n <= |ps| && Stays(ps, name, 0)
    ensures Stays(Cut(ps, n, t), name, 0)
  {
    assert ps == ps[..n] + ps[n..];
    StaysAppend(ps[..n], ps[n..], name, 0);
    StaysAppend(ps[..n], TextPiece(t), name, 0);
  }

  lemma {:induction false} CutEndsClosing(all: seq<Piece>, n: nat, t: Doc, k: Doc)
    requires n <= |all| && Close(ITEM) !in Cut(all, n, t)
    requires var b := Cut(all, n, t); b != [] && b[|b| - 1] == Close(k)
    ensures var b := Cut(all, n, t); n > 0 && k != ITEM && CutInside(all, n - 1, k, Flat(b[..|b| - 1]))
  {
    hide Flat;
    var b := Cut(all, n, t);
    assert t == [];
    assert b == all[..n];
    assert b[..|b| - 1] == all[..n - 1];
  }

  lemma {:induction false} CutOneField(j: Json, f: Field, n: nat, t: Doc)
    requires Faithful(j) && KeyOk(f.key) && Plain(f.value) && CutOf(Pieces(j, f.value), n, t)
    requires Close(ITEM) !in Cut(Pieces(j, f.value), n, t)
    ensures var b := Cut(Pieces(j, f.value), n, t); var pairs := IterKeyed(Flat([Open(f.key)] + b));
      pairs == [] || (|pairs| == 1 && pairs[0].key == f.key
        && CutValue(j, f, |Pieces(j, f.value)| + 1 - n, pairs[0].inner))
  {
    hide Faithful, KeyOk, Flat, IterKeyed, Ok, Stays, Plain, Pieces, Level, CutInside;
    var all := Pieces(j, f.value);
    var b := Cut(all, n, t);
    PiecesOk(j, f.value);
    PiecesBalanced(j, f.value, f.key);
    StaysCut(all, n, t, f.key);
    CutOk(all, n, t);
    KeyedCutField(f.key, b);
    if b == [] {
      assert n == 0;
    } else if b[|b| - 1] == Close(f.key) {
      CutEndsClosing(all, n, t, f.key);
    }
  }

  predicate HasKey(fields: seq<Field>, key: Doc) {
    exists k :: 0 <= k < |fields| && fields[k].key == key
  }

  // What cutting a mapping leaves of its pairs.
  ghost predicate CutPairs(j: Json, fields: seq<Field>, missing: int, pairs: seq<Pair>) {
    && |pairs| <= |fields| && DistinctPairs(pairs)
    && (forall i :: 0 <= i < |pairs| ==> HasKey(fields, pairs[i].key))
    && (|pairs| == |fields| ==> LastIsCut(j, fields, missing, pairs))
  }

  lemma {:induction false} CutPairsNull(j: Json, fields: seq<Field>, missing: int, pairs: seq<Pair>)
    requires fields != [] && CutPairs(j, fields[1..], missing, pairs)
    ensures CutPairs(j, fields, missing, pairs)
  {
    hide LastIsCut;
    forall i | 0 <= i < |pairs| ensures HasKey(fields, pairs[i].key) {
      KeyInTail(fields, pairs[i].key);
    }
  }

  lemma {:induction false} KeyInTail(fields: seq<Field>, key: Doc)
    requires fields != [] && HasKey(fields[1..], key)
    ensures HasKey(fields, key)
    ensures PlainFields(fields) ==> fields[0].key != key
  {
    hide KeyOk, Plain;
    var k :| 0 <= k < |fields[1..]| && fields[1..][k].key == key;
    assert fields[k + 1].key == key;
  }

  lemma {:induction false} CutPairsMore(j: Json, fields: seq<Field>, missing: int, inner: Doc, pairs: seq<Pair>)
    requires fields != [] && PlainFields(fields) && CutPairs(j, fields[1..], missing, pairs)
    requires fields[0].key != ITEM && !HasItemTag(fields[0].value)
    ensures CutPairs(j, fields, missing, [Pair(fields[0].key, inner)] + pairs)
  {
    hide CutValue, HasItemTag, KeyOk, Plain;
    var rest := fields[1..];
    assert forall k :: 0 <= k < |rest| ==> rest[k] == fields[k + 1];
    forall i | 0 <= i < |pairs| ensures HasKey(fields, pairs[i].key) && pairs[i].key != fields[0].key {
      KeyInTail(fields, pairs[i].key);
    }
    assert HasKey(fields, fields[0].key);
  }

  lemma {:induction false} CutPastEntry(k: Doc, b: seq<Piece>, tail: seq<Piece>, n: nat, t: Doc)
    requires CutOf(Enclosed(k, b) + tail, n, t) && n >= |b| + 2
    ensures CutOf(tail, n - |b| - 2, t)
    ensures Cut(Enclosed(k, b) + tail, n, t) == Enclosed(k, b) + Cut(tail, n - |b| - 2, t)
  {
    var all, n' := Enclosed(k, b) + tail, n - |b| - 2;
    assert all[..n] == Enclosed(k, b) + tail[..n'];
    assert t != [] ==> all[n] == tail[n'];
  }

  lemma {:induction false} NoItemInside(k: Doc, b: seq<Piece>, c: seq<Piece>)
    requires Close(ITEM) !in Enclosed(k, b) + c
    ensures k != ITEM && Close(ITEM) !in b && Close(ITEM) !in c
  {
    assert Close(k) in Enclosed(k, b);
    assert forall p :: p in b ==> p in Enclosed(k, b);
  }

  lemma {:induction false} FirstEntry(j: Json, fields: seq<Field>)
    requires fields != [] && !fields[0].value.Null?
    ensures FieldPieces(j, fields) ==
      Enclosed(fields[0].key, Pieces(j, fields[0].value)) + FieldPieces(j, fields[1..])
  {
    hide Pieces, Enclosed;
  }

  // All of the first entry is left.
  lemma {:induction false} CutLater(j: Json, fields: seq<Field>, n: nat, t: Doc)
    requires Faithful(j) && PlainFields(fields) && fields != [] && !fields[0].value.Null?
    requires CutOf(FieldPieces(j, fields), n, t) && n >= |Pieces(j, fields[0].value)| + 2
    requires Close(ITEM) !in Cut(FieldPieces(j, fields), n, t)
    ensures var f := fields[0]; var b, tail := Pieces(j, f.value), FieldPieces(j, fields[1..]); var n' := n - |b| - 2;
      && CutOf(tail, n', t) && Close(ITEM) !in Cut(tail, n', t)
      && |FieldPieces(j, fields)| - n == |tail| - n'
      && f.key != ITEM && !HasItemTag(f.value)
      && IterKeyed(Flat(Cut(FieldPieces(j, fields), n, t))) == [Pair(f.key, Flat(b))] + IterKeyed(Flat(Cut(tail, n', t)))
  {
    hide Faithful, KeyOk, Flat, IterKeyed, Ok, Stays, Plain, Pieces, Level, HasItemTag, FieldPieces, Cut, CutOf;
    var f, rest := fields[0], fields[1..];
    var b, tail := Pieces(j, f.value), FieldPieces(j, rest);
    var n' := n - |b| - 2;
    FirstEntry(j, fields);
    CutPastEntry(f.key, b, tail, n, t);
    NoItemInside(f.key, b, Cut(tail, n', t));
    ItemTagIffClose(j, f.value);
    PiecesOk(j, f.value);
    FieldPiecesOk(j, rest);
    CutOk(tail, n', t);
    PiecesBalanced(j, f.value, f.key);
    KeyedField(f.key, b, Cut(tail, n', t));
  }

  // The first entry itself is cut.
  lemma {:induction false} CutHere(j: Json, fields: seq<Field>, n: nat, t: Doc)
    requires Faithful(j) && PlainFields(fields) && fields != [] && !fields[0].value.Null?
    requires CutOf(FieldPieces(j, fields), n, t) && n < |Pieces(j, fields[0].value)| + 2
    requires Close(ITEM) !in Cut(FieldPieces(j, fields), n, t)
    ensures CutPairs(j, fields, |FieldPieces(j, fields)| - n, IterKeyed(Flat(Cut(FieldPieces(j, fields), n, t))))
  {
    hide Faithful, KeyOk, Flat, IterKeyed, Ok, Stays, Plain, Pieces, Level, HasItemTag, CutValue;
    var f, rest := fields[0], fields[1..];
    var b, tail := Pieces(j, f.value), FieldPieces(j, rest);
    FirstEntry(j, fields);
    assert rest == [] ==> tail == [];
    hide FieldPieces;
    if n == 0 {
      NothingKeyed();
    } else {
      CutInEntry(f.key, b, tail, n, t);
      hide Cut, CutOf;
      CutOneField(j, f, n - 1, t);
    }
  }

  lemma {:induction false} CutInEntry(k: Doc, b: seq<Piece>, tail: seq<Piece>, n: nat, t: Doc)
    requires CutOf(Enclosed(k, b) + tail, n, t) && 0 < n < |b| + 2
    ensures CutOf(b, n - 1, t) && Cut(Enclosed(k, b) + tail, n, t) == [Open(k)] + Cut(b, n - 1, t)
  {
    var all := Enclosed(k, b) + tail;
    assert all[..n] == [Open(k)] + b[..n - 1];
    assert n - 1 < |b| ==> all[n] == b[n - 1];
    assert n - 1 == |b| ==> all[n] == Close(k);
  }

  lemma {:induction false} CutFields(j: Json, fields: seq<Field>, n: nat, t: Doc)
    requires Faithful(j) && PlainFields(fields)
    requires CutOf(FieldPieces(j, fields), n, t) && n < |FieldPieces(j, fields)|
    requires Close(ITEM) !in Cut(FieldPieces(j, fields), n, t)
    ensures CutPairs(j, fields, |FieldPieces(j, fields)| - n, IterKeyed(Flat(Cut(FieldPieces(j, fields), n, t))))
  {
    hide Faithful, KeyOk, Flat, IterKeyed, Plain, Pieces, HasItemTag, CutPairs, Cut, CutOf, ToXml;
    var f := fields[0];
    if f.value.Null? {
      assert FieldPieces(j, fields) == FieldPieces(j, fields[1..]);
      CutFields(j, fields[1..], n, t);
      CutPairsNull(j, fields, |FieldPieces(j, fields)| - n, IterKeyed(Flat(Cut(FieldPieces(j, fields), n, t))));
    } else if n >= |Pieces(j, f.value)| + 2 {
      var n' := n - |Pieces(j, f.value)| - 2;
      CutLater(j, fields, n, t);
      CutFields(j, fields[1..], n', t);
      CutPairsMore(j, fields, |FieldPieces(j, fields)| - n, Flat(Pieces(j, f.value)),
        IterKeyed(Flat(Cut(FieldPieces(j, fields[1..]), n', t))));
    } else {
      CutHere(j, fields, n, t);
    }
  }

  // ------------------------------------------------- a list item cut at a nested item tag

  lemma {:induction false} EndsWithItemTag(j: Json, v: Value)
    requires EndsInEmptyItem(v)
    ensures Pieces(j, v) != [] && Pieces(j, v)[|Pieces(j, v)| - 1] == Close(ITEM)
    ensures HasItemTag(v)
  {
    var n := |v.fields| - 1;
    assert v.fields[n].key == ITEM && !v.fields[n].value.Null?;
    hide EndsInEmptyItem;
    FieldEnds(j, v.fields);
  }

  lemma {:induction false} ContainerEnds(j: Json, v: Value)
    requires HasItemTag(v)
    ensures (v.Obj? || v.Arr?) && Pieces(j, v) != [] && Pieces(j, v)[0].Open?
    ensures v.Arr? ==> Pieces(j, v)[0] == Open(ITEM)
  {
    if v.Arr? {
      ItemEnds(j, v.items);
    } else {
      ItemTagIffClose(j, v);
      FieldEnds(j, v.fields);
    }
  }

  lemma {:induction false} ParseStripped(j: Json, d: Doc)
    ensures Parse(j, d) == Parse(j, Strip(d))
  {
    StripFacts(d);
    hide Strip;
  }

  lemma {:induction false} CutIsSmaller(ps: seq<Piece>, n: nat, t: Doc, n': nat, t': Doc)
    requires n' <= n <= |ps| && Close(ITEM) !in Cut(ps, n, t)
    ensures Close(ITEM) !in Cut(ps, n', t')
  {
    assert forall p :: p in ps[..n'] ==> p in ps[..n];
  }

  // A rendering that stops short, before any closing item tag, of a value that has one,
  // parses to that value only if all that is missing is the end of a last "item": "".
  lemma {:induction false} CutParse(j: Json, v: Value, n: nat, t: Doc)
    requires Faithful(j) && Plain(v) && HasItemTag(v)
    requires CutOf(Pieces(j, v), n, t) && n < |Pieces(j, v)|
    requires Close(ITEM) !in Cut(Pieces(j, v), n, t)
    ensures Parse(j, Flat(Cut(Pieces(j, v), n, t))) == v ==> EndsInEmptyItem(v) && n == |Pieces(j, v)| - 1
    decreases v, 0, 1
  {
    hide Faithful, Flat, Strip, Parse, IterTagged, IterKeyed, HasItemTag, Ok, Cut, CutOf, OpenTag, PieceDoc, KeyOk;
    var ps := Pieces(j, v);
    PiecesOk(j, v);
    ContainerEnds(j, v);
    var n', t' := StripCut(ps, n, t);
    CutIsSmaller(ps, n, t, n', t');
    CutOk(ps, n', t');
    var cut := Cut(ps, n', t');
    var c := Flat(cut);
    ParseStripped(j, Flat(Cut(ps, n, t)));
    StripFacts(Flat(Cut(ps, n, t)));
    CutStart(ps, n', t');
    if n' == 0 {
      EmptyStrip();
      NullIsLost(j);
    } else {
      FirstTagDecides(cut);
      if ps[0] == Open(ITEM) {
        NoItems(cut);
        ParseItemFirst(j, c);
        assert v != Arr([]);
      } else {
        CutMapping(j, v, n', t');
      }
    }
  }

  lemma {:induction false} CutStart(ps: seq<Piece>, n: nat, t: Doc)
    requires Ok(ps) && ps != [] && ps[0].Open? && CutOf(ps, n, t)
    ensures n == 0 ==> Cut(ps, n, t) == []
    ensures n > 0 ==> Cut(ps, n, t) != [] && Cut(ps, n, t)[0] == ps[0] && Flat(Cut(ps, n, t)) != []
  {
    if n > 0 {
      assert PieceDoc(Cut(ps, n, t)[0]) != [];
    }
  }

  lemma {:induction false} CutMapping(j: Json, v: Value, n: nat, t: Doc)
    requires Faithful(j) && Plain(v) && HasItemTag(v) && v.Obj?
    requires CutOf(FieldPieces(j, v.fields), n, t) && n < |FieldPieces(j, v.fields)|
    requires Close(ITEM) !in Cut(FieldPieces(j, v.fields), n, t)
    requires MappingText(Flat(Cut(FieldPieces(j, v.fields), n, t)))
    ensures Parse(j, Flat(Cut(FieldPieces(j, v.fields), n, t))) == v ==>
      EndsInEmptyItem(v) && n == |FieldPieces(j, v.fields)| - 1
    decreases v, 0, 0
  {
    hide Faithful, Flat, Parse, IterKeyed, HasItemTag, Cut, CutOf, KeyOk, MappingText, CutValue, FieldPieces, EndsInEmptyItem, PlainFields;
    var fields := v.fields;
    var c := Flat(Cut(FieldPieces(j, fields), n, t));
    CutFields(j, fields, n, t);
    ParseMapping(j, c);
    if Parse(j, c) == v {
      var pairs, last := IterKeyed(c), |fields| - 1;
      CutLast(j, fields, |FieldPieces(j, fields)| - n, pairs[last].inner);
    }
  }

  lemma {:induction false} CutLast(j: Json, fields: seq<Field>, missing: int, inner: Doc)
    requires Faithful(j) && PlainFields(fields) && fields != [] && HasItemTag(Obj(fields))
    requires forall i :: 0 <= i < |fields| - 1 ==> !HasItemTag(fields[i].value) && fields[i].key != ITEM
    requires CutValue(j, fields[|fields| - 1], missing, inner)
    requires Parse(j, inner) == fields[|fields| - 1].value
    ensures EndsInEmptyItem(Obj(fields)) && missing == 1
    decreases fields, 0
  {
    hide Faithful, Flat, Parse, KeyOk, Pieces, Plain;
    var f := fields[|fields| - 1];
    assert fields[|fields| - 1].key == ITEM || HasItemTag(fields[|fields| - 1].value);
    if exists m: nat :: f.key != ITEM && CutInside(Pieces(j, f.value), m, f.key, inner) {
      var m: nat :| f.key != ITEM && CutInside(Pieces(j, f.value), m, f.key, inner);
      hide HasItemTag;
      CutInsideFails(j, f, m, inner);
    } else {
      NullIsLost(j);
      assert f.value == Str([]);
      EmptyPieces(j);
    }
  }

  lemma {:induction false} EmptyPieces(j: Json)
    ensures Pieces(j, Str([])) == []
  {
  }

  lemma {:induction false} CutInsideFails(j: Json, f: Field, m: nat, inner: Doc)
    requires Faithful(j) && Plain(f.value) && HasItemTag(f.value) && f.key != ITEM
    requires CutInside(Pieces(j, f.value), m, f.key, inner)
    ensures Parse(j, inner) != f.value
    decreases f.value, 1
  {
    hide Faithful, Flat, Parse, Pieces, HasItemTag, Plain, EndsInEmptyItem;
    var b := Pieces(j, f.value);
    assert Cut(b, m, []) == b[..m];
    CutParse(j, f.value, m, []);
    if Parse(j, inner) == f.value {
      EndsWithItemTag(j, f.value);
    }
  }

  // ---------------------------------------------------------------- lists of items

  lemma {:induction false} TaggedOpen(tag: Doc, body: Doc)
    ensures IterTagged(OpenTag(tag) + body, tag) ==
      match Find(body, CloseTag(tag))
      case None => []
      case Some(end) => [body[..end]] + IterTagged(body[end + |CloseTag(tag)|..], tag)
  {
    hide OpenTag, CloseTag, Find;
    var d := OpenTag(tag) + body;
    FindHere(OpenTag(tag), body);
    assert d[0 + |OpenTag(tag)|..] == body;
  }

  // The lazy match takes everything up to the first closing item tag.
  lemma {:induction false} TaggedItem(b: seq<Piece>, after: seq<Piece>)
    requires Ok(b) && Close(ITEM) !in b
    ensures IterTagged(Flat([Open(ITEM)] + (b + ([Close(ITEM)] + after))), ITEM) == [Flat(b)] + IterTagged(Flat(after), ITEM)
  {
    hide Find, IterTagged, Flat, OpenTag, CloseTag, Ok;
    ItemIsAKey();
    var rest := [Close(ITEM)] + after;
    FlatCons(Open(ITEM), b + rest);
    TaggedOpen(ITEM, Flat(b + rest));
    FindFirst(b, Close(ITEM), after);
    FlatAppend(b, rest);
    FlatCons(Close(ITEM), after);
    var body := Flat(b) + (CloseTag(ITEM) + Flat(after));
    assert body[..|Flat(b)|] == Flat(b);
    assert body[|Flat(b)| + |CloseTag(ITEM)|..] == Flat(after);
  }

  lemma {:induction false} TaggedShift(tag: Doc, q: Doc, rest: Doc)
    requires Find(q + rest, OpenTag(tag)) == Later(Find(rest, OpenTag(tag)), |q|)
    ensures IterTagged(q + rest, tag) == IterTagged(rest, tag)
  {
    hide Find, OpenTag, CloseTag;
    if Find(rest, OpenTag(tag)).Some? {
      var i := Find(rest, OpenTag(tag)).value;
      assert (q + rest)[|q| + i + |OpenTag(tag)|..] == rest[i + |OpenTag(tag)|..];
    }
  }

  lemma {:induction false} TaggedSkipsClose(after: seq<Piece>)
    ensures IterTagged(Flat([Close(ITEM)] + after), ITEM) == IterTagged(Flat(after), ITEM)
  {
    hide Find, IterTagged, Flat;
    ItemIsAKey();
    FlatCons(Close(ITEM), after);
    FindHead(Close(ITEM), Flat(after), Open(ITEM));
    TaggedShift(ITEM, CloseTag(ITEM), Flat(after));
  }

  lemma {:induction false} EmptyItemKeyed(j: Json, fields: seq<Field>)
    requires Faithful(j) && PlainFields(fields)
    requires fields != [] && fields[|fields| - 1] == Field(ITEM, Str([]))
    ensures var ps := FieldPieces(j, fields);
      ps != [] && IterKeyed(Flat(ps[..|ps| - 1])) == PairsOf(j, fields)
  {
    hide Faithful, KeyOk, Flat, IterKeyed, Ok, Stays, Plain, Level, ToXml, Pieces;
    var ps, f, rest := FieldPieces(j, fields), fields[0], fields[1..];
    var b := Pieces(j, f.value);
    if |fields| == 1 {
      EmptyPieces(j);
      assert rest == [];
      assert ps == [Open(ITEM), Close(ITEM)];
      assert ps[..1] == [Open(ITEM)] + [];
      EmptyItemPair(j);
    } else {
      EmptyItemKeyed(j, rest);
      var tail := FieldPieces(j, rest);
      if f.value.Null? {
        assert ps == tail;
      } else {
        assert ps == Enclosed(f.key, b) + tail;
        hide FieldPieces, PairsOf;
        assert ps[..|ps| - 1] == Enclosed(f.key, b) + tail[..|tail| - 1];
        PiecesOk(j, f.value);
        FieldPiecesOk(j, rest);
        PrefixOk(tail, |tail| - 1);
        PiecesBalanced(j, f.value, f.key);
        ToXmlIsFlat(j, f.value);
        KeyedField(f.key, b, tail[..|tail| - 1]);
        assert PairsOf(j, fields) == [Pair(fields[0].key, ToXml(j, fields[0].value))] + PairsOf(j, fields[1..]);
      }
    }
  }

  lemma {:induction false} PrefixOk(ps: seq<Piece>, n: nat)
    requires Ok(ps) && n <= |ps|
    ensures Ok(ps[..n])
  {
  }

  lemma {:induction false} EmptyItemPair(j: Json)
    ensures IterKeyed(Flat([Open(ITEM)] + [])) == PairsOf(j, [Field(ITEM, Str([]))])
  {
    ItemIsAKey();
    FlatCons(Open(ITEM), []);
    NothingKeyed();
    KeyedUnfold(ITEM, []);
    hide IterKeyed, OpenTag, CloseTag, Flat;
    assert [Field(ITEM, Str([]))][1..] == [];
  }

  // Losing the last closing tag of a mapping that ends in "item": "" changes nothing.
  lemma {:induction false} EmptyItemSame(j: Json, v: Value)
    requires Faithful(j) && Plain(v) && EndsInEmptyItem(v)
    ensures var ps := Pieces(j, v);
      ps != [] && (Parse(j, Flat(ps[..|ps| - 1])) == v <==> Parse(j, Flat(ps)) == v)
  {
    hide Faithful, PlainFields, Flat, Parse, ToXml, IterKeyed, FieldPieces, PieceDoc, OpenTag, Strip, Ok, Find, KeyOk, HasItemTag;
    var fields, ps := v.fields, FieldPieces(j, v.fields);
    EmptyItemEnd(j, fields);
    var cut := ps[..|ps| - 1];
    FieldPiecesOk(j, fields);
    PrefixOk(ps, |ps| - 1);
    FieldEnds(j, fields);
    ContainerStripped(ps);
    ContainerStripped(cut);
    FirstTagDecides(ps);
    FirstTagDecides(cut);
    if ps[0] == Open(ITEM) {
      ParseItemFirst(j, Flat(ps));
      ParseItemFirst(j, Flat(cut));
    } else {
      KeyedFields(j, fields);
      EmptyItemKeyed(j, fields);
      MappingRoundTrip(j, Flat(ps), fields);
      MappingRoundTrip(j, Flat(cut), fields);
    }
  }

  lemma {:induction false} EmptyItemEnd(j: Json, fields: seq<Field>)
    requires fields != [] && fields[|fields| - 1] == Field(ITEM, Str([]))
    ensures var ps := FieldPieces(j, fields); |ps| >= 2 && ps[|ps| - 2] == Open(ITEM)
  {
    hide Pieces;
    if |fields| == 1 {
      EmptyPieces(j);
      assert fields[1..] == [];
    } else {
      EmptyItemEnd(j, fields[1..]);
    }
  }

  function FirstIndex(ps: seq<Piece>, p: Piece): (i: nat)
    requires p in ps
    ensures i < |ps| && ps[i] == p && p !in ps[..i]
  {
    if ps[0] == p then 0 else 1 + FirstIndex(ps[1..], p)
  }

  predicate ItemsSame(j: Json, items: seq<Value>, inners: seq<Doc>) {
    |inners| == |items| && forall i :: 0 <= i < |items| ==> Parse(j, inners[i]) == items[i]
  }

  predicate ItemComesBack(j: Json, x: Value) {
    Parse(j, ToXml(j, x)) == x && (!HasItemTag(x) || EndsInEmptyItem(x))
  }

  lemma {:induction false} FirstItem(j: Json, x: Value, after: seq<Piece>)
    requires Faithful(j) && Plain(x)
    ensures var inners := IterTagged(Flat(Enclosed(ITEM, Pieces(j, x)) + after), ITEM);
      && inners != []
      && (Parse(j, inners[0]) == x <==> ItemComesBack(j, x))
      && (ItemComesBack(j, x) ==> inners[1..] == IterTagged(Flat(after), ITEM))
  {
    hide Faithful, Flat, Parse, ToXml, IterTagged, Pieces, HasItemTag, EndsInEmptyItem, Ok, Plain;
    var b := Pieces(j, x);
    ToXmlIsFlat(j, x);
    PiecesOk(j, x);
    ItemTagIffClose(j, x);
    EnclosedThen(ITEM, b, after);
    hide Enclosed;
    if Close(ITEM) !in b {
      TaggedItem(b, after);
    } else {
      var n := FirstIndex(b, Close(ITEM));
      var rest := b[n + 1..] + ([Close(ITEM)] + after);
      assert b + ([Close(ITEM)] + after) == b[..n] + ([Close(ITEM)] + rest);
      PrefixOk(b, n);
      TaggedItem(b[..n], rest);
      assert Cut(b, n, []) == b[..n];
      CutParse(j, x, n, []);
      if EndsInEmptyItem(x) {
        EmptyItemSame(j, x);
        EmptyItemFirst(j, x, n);
        assert rest == [Close(ITEM)] + after;
        TaggedSkipsClose(after);
      }
    }
  }

  // The only closing item tag of such a mapping is its last piece.
  lemma {:induction false} EmptyItemFirst(j: Json, x: Value, n: nat)
    requires Plain(x) && EndsInEmptyItem(x)
    requires n < |Pieces(j, x)| && Pieces(j, x)[n] == Close(ITEM)
    ensures n == |Pieces(j, x)| - 1
  {
    EmptyItemOnly(j, x.fields, n);
  }

  lemma {:induction false} EmptyItemOnly(j: Json, fields: seq<Field>, n: nat)
    requires PlainFields(fields) && EndsInEmptyItem(Obj(fields))
    requires n < |FieldPieces(j, fields)| && FieldPieces(j, fields)[n] == Close(ITEM)
    ensures n == |FieldPieces(j, fields)| - 1
  {
    hide HasItemTag, KeyOk, Plain, Pieces;
    var f, rest := fields[0], fields[1..];
    var b, tail := Pieces(j, f.value), FieldPieces(j, rest);
    if |fields| == 1 {
      EmptyPieces(j);
      assert rest == [] && tail == [];
    } else {
      assert EndsInEmptyItem(Obj(rest)) by {
        assert forall i :: 0 <= i < |rest| - 1 ==> rest[i] == fields[i + 1];
      }
      ItemTagIffClose(j, f.value);
      var head := if f.value.Null? then [] else Enclosed(f.key, b);
      assert FieldPieces(j, fields) == head + tail;
      assert Close(ITEM) !in head;
      EmptyItemOnly(j, rest, n - |head|);
    }
  }

  lemma {:induction false} ItemsComeBack(j: Json, items: seq<Value>)
    requires Faithful(j) && forall i :: 0 <= i < |items| ==> Plain(items[i])
    ensures ItemsSame(j, items, IterTagged(Flat(ItemPieces(j, items)), ITEM)) <==>
      forall i :: 0 <= i < |items| ==> ItemComesBack(j, items[i])
  {
    hide Faithful, Flat, Parse, ToXml, IterTagged, Pieces, HasItemTag, EndsInEmptyItem, Plain, Enclosed, ItemComesBack;
    if items == [] {
      NoItemText();
    } else {
      var x, rest := items[0], items[1..];
      var inners := IterTagged(Flat(ItemPieces(j, items)), ITEM);
      FirstItem(j, x, ItemPieces(j, rest));
      ItemsComeBack(j, rest);
      hide ItemPieces;
      assert ItemsSame(j, items, inners) <==> Parse(j, inners[0]) == x && ItemsSame(j, rest, inners[1..]);
      assert (forall i :: 0 <= i < |items| ==> ItemComesBack(j, items[i])) <==>
        ItemComesBack(j, x) && (forall i :: 0 <= i < |rest| ==> ItemComesBack(j, rest[i]));
    }
  }

  lemma {:induction false} NoItemText()
    ensures IterTagged(Flat([]), ITEM) == []
  {
  }

  // ---------------------------------------------------------------- the theorem

  lemma {:induction false} TextRoundTrip(j: Json, s: Doc)
    requires Faithful(j) && Ns !in s
    ensures Parse(j, s) == Str(s) <==> s == [] || (Trimmed(s) && j.loads(s).None?)
  {
    StripFacts(s);
    hide Strip, Trimmed, IterTagged, IterKeyed;
  }

  lemma {:induction false} PrimRoundTrip(j: Json, p: Scalar)
    requires Faithful(j)
    ensures Parse(j, j.text(p)) == Prim(p)
  {
    StripFacts(j.text(p));
    hide Strip, Trimmed, IterTagged, IterKeyed;
  }

  lemma {:induction false} ListParse(j: Json, items: seq<Value>)
    requires Faithful(j) && items != [] && forall i :: 0 <= i < |items| ==> Plain(items[i])
    ensures Parse(j, Flat(ItemPieces(j, items))) == Arr(items) <==>
      ItemsSame(j, items, IterTagged(Flat(ItemPieces(j, items)), ITEM))
  {
    hide Faithful, Flat, IterTagged, Strip, ItemPieces, Plain, OpenTag, Ok, Parse;
    var ps := ItemPieces(j, items);
    ItemPiecesOk(j, items);
    ItemEnds(j, items);
    ContainerStripped(ps);
    FirstTagDecides(ps);
    ParseItemFirst(j, Flat(ps));
    hide ItemPieces;
    assert Parse(j, Flat(ps)) == Arr(ParseItems(j, |Flat(ps)|, IterTagged(Flat(ps), ITEM)));
  }

  // For every value whose strings do not contain the token and whose keys the tag pattern
  // matches: parsing its rendering gives it back exactly when RoundTrips says so.
  lemma {:induction false} RoundTripExactly(j: Json, v: Value)
    requires Faithful(j) && Plain(v)
    ensures Parse(j, ToXml(j, v)) == v <==> RoundTrips(j, v)
    decreases v
  {
    hide Faithful, Flat, Parse, HasItemTag, EndsInEmptyItem, ItemsSame, IterTagged;
    NullIsLost(j);
    ToXmlIsFlat(j, v);
    match v {
      case Null =>
      case Str(s) => TextRoundTrip(j, s);
      case Prim(p) => PrimRoundTrip(j, p);
      case Obj(fields) =>
        MappingRoundTrips(j, fields);
        forall i | 0 <= i < |fields|
          ensures Parse(j, ToXml(j, fields[i].value)) == fields[i].value <==> RoundTrips(j, fields[i].value) {
          RoundTripExactly(j, fields[i].value);
        }
      case Arr(items) =>
        forall i | 0 <= i < |items|
          ensures Parse(j, ToXml(j, items[i])) == items[i] <==> RoundTrips(j, items[i]) {
          RoundTripExactly(j, items[i]);
        }
        if items != [] {
          ListParse(j, items);
          ItemsComeBack(j, items);
        } else {
          assert ToXml(j, Arr([])) == [];
        }
    }
  }

  // A list in a list: its element is cut at the inner closing tag, and [["a"]] comes back as
  // [[]].
  lemma {:induction false} NestedListIsCut(j: Json)
    requires Faithful(j)
    ensures var list := Arr([Arr([Str([Chr('a')])])]);
      Parse(j, ToXml(j, list)) == Arr([Arr([])])
  {
    var a, list := Text([Chr('a')]), Arr([Arr([Str([Chr('a')])])]);
    var cut, rest := [Open(ITEM), a], [Close(ITEM)];
    var all := [Open(ITEM), Open(ITEM), a, Close(ITEM), Close(ITEM)];
    ItemIsAKey();
    ToXmlIsFlat(j, list);
    NestedPieces(j);
    hide Faithful, Flat, Parse, ToXml, IterTagged, Pieces, KeyOk, Strip, OpenTag;
    ContainerStripped(all);
    ListText(j, all);
    CutText();
    ListText(j, cut);
    NoItems(cut);
    TaggedItem(cut, rest);
    assert [Open(ITEM)] + (cut + ([Close(ITEM)] + rest)) == all;
    TaggedSkipsClose([]);
    NoItemText();
    assert rest + [] == rest;
  }

  lemma {:induction false} ListText(j: Json, ps: seq<Piece>)
    requires Ok(ps) && ps != [] && ps[0] == Open(ITEM) && Flat(ps) != [] && Strip(Flat(ps)) == Flat(ps)
    ensures var (inners, v) := (IterTagged(Flat(ps), ITEM), Parse(j, Flat(ps)));
      && v.Arr? && |v.items| == |inners|
      && forall i :: 0 <= i < |inners| ==> v.items[i] == Parse(j, inners[i])
  {
    hide Flat, Strip, Parse, IterTagged, OpenTag;
    FirstTagDecides(ps);
    ParseItemFirst(j, Flat(ps));
  }

  lemma {:induction false} CutText()
    ensures var d := Flat([Open(ITEM), Text([Chr('a')])]); d != [] && Strip(d) == d
  {
    hide Flat, Strip;
    var text := Text([Chr('a')]);
    FlatCons(Open(ITEM), [text]);
    FlatCons(text, []);
    assert [Open(ITEM)] + [text] == [Open(ITEM), text] && [text] + [] == [text];
    EmptyStrip();
    TagStripped(Flat([Open(ITEM), text]));
  }

  lemma {:induction false} NestedPieces(j: Json)
    ensures Pieces(j, Arr([Arr([Str([Chr('a')])])])) ==
      [Open(ITEM), Open(ITEM), Text([Chr('a')]), Close(ITEM), Close(ITEM)]
  {
    var a, none: seq<Value> := Str([Chr('a')]), [];
    assert [a][1..] == none && [Arr([a])][1..] == none;
    assert ItemPieces(j, none) == [];
    assert ItemPieces(j, [a]) == Enclosed(ITEM, [Text([Chr('a')])]) + [];
    assert ItemPieces(j, [Arr([a])]) == Enclosed(ITEM, ItemPieces(j, [a])) + [];
  }
}
