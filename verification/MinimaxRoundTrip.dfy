// When does _parse_xml_value give back what _to_xml rendered?  Exactly for the values that
// RoundTrips describes.
module MinimaxRoundTrip {
  import opened Options
  import opened Sequences
  import opened MinimaxXml
  import opened Searching
  import opened MinimaxPieces

  // Some nested tag of the rendering is named item.
  predicate HasItemTag(v: Value) {
    match v
    case Arr(items) => items != []
    case Obj(fields) => exists i :: 0 <= i < |fields| && !fields[i].value.Null? && (fields[i].key == ITEM || HasItemTag(fields[i].value))
    case _ => false
  }

  // The one shape with such a tag that survives inside a list: a mapping whose last entry is
  // "item": "" and that has no item tag elsewhere.
  predicate EndsInEmptyItem(v: Value) {
    && v.Obj? && v.fields != []
    && v.fields[|v.fields| - 1] == Field(ITEM, Str([]))
    && forall i :: 0 <= i < |v.fields| - 1 ==> !HasItemTag(v.fields[i].value)
  }

  // No None; no empty mapping or list; no mapping that starts with the key item; strings
  // trimmed and not JSON texts; in a list, no value with an item tag inside.
  predicate RoundTrips(j: Json, v: Value)
    decreases v
  {
    match v
    case Null => false
    case Str(s) => s == [] || (Trimmed(s) && j.loads(s).None?)
    case Prim(_) => true
    case Obj(fields) =>
      fields != [] && fields[0].key != ITEM && forall i :: 0 <= i < |fields| ==> RoundTrips(j, fields[i].value)
    case Arr(items) =>
      items != [] && forall i :: 0 <= i < |items| ==>
        RoundTrips(j, items[i]) && (!HasItemTag(items[i]) || EndsInEmptyItem(items[i]))
  }

  // ----------------------------------------------------------------- item tags

  predicate FieldsHaveItemTag(fields: seq<Field>) {
    exists i :: 0 <= i < |fields| && !fields[i].value.Null? && (fields[i].key == ITEM || HasItemTag(fields[i].value))
  }

  lemma {:induction false} ItemTagIffClose(j: Json, v: Value)
    ensures HasItemTag(v) <==> Close(ITEM) in Pieces(j, v)
    decreases v, 1
  {
    match v {
      case Obj(fields) => FieldsItemTagIffClose(j, fields);
      case Arr(items) =>
        if items != [] {
          assert Close(ITEM) in Enclosed(ITEM, Pieces(j, items[0]));
        }
      case _ =>
    }
  }

  lemma {:induction false} FieldsItemTagIffClose(j: Json, fields: seq<Field>)
    ensures FieldsHaveItemTag(fields) <==> Close(ITEM) in FieldPieces(j, fields)
    decreases fields, 0
  {
    if fields != [] {
      var f, rest := fields[0], fields[1..];
      ItemTagIffClose(j, f.value);
      FieldsItemTagIffClose(j, rest);
      assert forall p :: p in Enclosed(f.key, Pieces(j, f.value)) <==> p == Open(f.key) || p in Pieces(j, f.value) || p == Close(f.key);
      assert FieldsHaveItemTag(fields) <==>
        (!f.value.Null? && (f.key == ITEM || HasItemTag(f.value))) || FieldsHaveItemTag(rest) by {
        if FieldsHaveItemTag(rest) {
          var i :| 0 <= i < |rest| && !rest[i].value.Null? && (rest[i].key == ITEM || HasItemTag(rest[i].value));
          assert fields[i + 1] == rest[i];
        }
      }
      hide HasItemTag, FieldsHaveItemTag;
    }
  }

  // ------------------------------------------------------------ finding a field's end

  lemma {:induction false} KeyRunOf(k: Doc, rest: Doc)
    requires forall i :: 0 <= i < |k| ==> KeyChar(k[i])
    requires rest != [] && rest[0] == Chr('>')
    ensures KeyRun(k + rest) == |k|
  {
    if k == [] {
      assert k + rest == rest;
    } else {
      assert (k + rest)[1..] == k[1..] + rest;
      KeyRunOf(k[1..], rest);
    }
  }

  lemma {:induction false} OpeningTagIsFound(k: Doc, rest: Doc)
    requires KeyOk(k)
    ensures OpeningKey(OpenTag(k) + rest) == Some(k)
    ensures SearchOpen(OpenTag(k) + rest) == Some(0)
  {
    var d := OpenTag(k) + rest;
    KeyRunOf(k, [Chr('>')] + rest);
    assert d[2..] == k + ([Chr('>')] + rest);
    assert d[2..|k| + 2] == k;
  }

  lemma {:induction false} KeyedAtOpening(d: Doc, k: Doc)
    requires SearchOpen(d) == Some(0) && OpeningKey(d) == Some(k)
    ensures IterKeyed(d) ==
      match ScanClose(d[|OpenTag(k)|..], k, 1)
      case None => []
      case Some(scan) =>
        [Pair(k, Upto(d[|OpenTag(k)|..], scan - |CloseTag(k)|))] + IterKeyed(d[|OpenTag(k)|..][scan..])
  {
    hide SearchOpen, OpeningKey, ScanClose, Upto, OpenTag, CloseTag;
    assert d[0..] == d;
  }

  lemma {:induction false} KeyedUnfold(k: Doc, rest: Doc)
    requires KeyOk(k)
    ensures IterKeyed(OpenTag(k) + rest) ==
      match ScanClose(rest, k, 1)
      case None => []
      case Some(scan) => [Pair(k, Upto(rest, scan - |CloseTag(k)|))] + IterKeyed(rest[scan..])
  {
    hide SearchOpen, OpeningKey, ScanClose, Upto, CloseTag, IterKeyed, KeyOk;
    var d := OpenTag(k) + rest;
    OpeningTagIsFound(k, rest);
    KeyedAtOpening(d, k);
    assert d[|OpenTag(k)|..] == rest;
  }

  // From the depth loop's answer to the pair it yields.
  lemma {:induction false} KeyedComplete(k: Doc, inner: Doc, tail: Doc)
    requires KeyOk(k) && ScanClose(inner + CloseTag(k) + tail, k, 1) == Some(|inner| + |CloseTag(k)|)
    ensures IterKeyed(OpenTag(k) + (inner + CloseTag(k) + tail)) == [Pair(k, inner)] + IterKeyed(tail)
  {
    hide ScanClose, CloseTag, IterKeyed, KeyOk, OpenTag;
    var rest := inner + CloseTag(k) + tail;
    KeyedUnfold(k, rest);
    assert rest[..|inner|] == inner && rest[|inner| + |CloseTag(k)|..] == tail;
  }

  lemma {:induction false} ScanComplete(k: Doc, inner: seq<Piece>, tail: seq<Piece>)
    requires KeyOk(k) && Ok(inner) && Ok(tail)
    requires Level(inner, k) == 0 && Stays(inner, k, 0)
    ensures Flat(inner + ([Close(k)] + tail)) == Flat(inner) + CloseTag(k) + Flat(tail)
    ensures ScanClose(Flat(inner + ([Close(k)] + tail)), k, 1) == Some(|Flat(inner)| + |CloseTag(k)|)
  {
    hide Walk, Level, Stays, Flat, KeyOk, Ok, OpenTag, CloseTag, ScanClose;
    var after := [Close(k)] + tail;
    WalkCloses(k, tail);
    OkAppend(inner, after);
    ScanIsWalk(inner + after, k, 1);
    WalkThrough(inner, after, k, 1);
    FlatAppend(inner, after);
    FlatCons(Close(k), tail);
    Associate(Flat(inner), CloseTag(k), Flat(tail));
  }

  lemma {:induction false} WalkCloses(k: Doc, tail: seq<Piece>)
    requires KeyOk(k) && Ok(tail)
    ensures Walk([Close(k)] + tail, k, 1) == Some(|CloseTag(k)|)
    ensures Ok([Close(k)] + tail)
  {
    hide KeyOk;
    var after := [Close(k)] + tail;
    assert after[0] == Close(k) && after[1..] == tail;
  }

  // A complete field: the depth count finds its own closing tag, however the name nests.
  lemma {:induction false} KeyedField(k: Doc, inner: seq<Piece>, tail: seq<Piece>)
    requires KeyOk(k) && Ok(inner) && Ok(tail)
    requires Level(inner, k) == 0 && Stays(inner, k, 0)
    ensures IterKeyed(Flat(Enclosed(k, inner) + tail)) == [Pair(k, Flat(inner))] + IterKeyed(Flat(tail))
  {
    hide Walk, Level, Stays, Flat, KeyOk, Ok, OpenTag, CloseTag, IterKeyed, Enclosed, ScanClose;
    EnclosedThen(k, inner, tail);
    FlatCons(Open(k), inner + ([Close(k)] + tail));
    ScanComplete(k, inner, tail);
    KeyedComplete(k, Flat(inner), Flat(tail));
  }

  // An opening tag whose field is cut off: nothing, or, at the very end of the text, one
  // pair without the closing tag that the text ends in.
  lemma {:induction false} KeyedCutField(k: Doc, b: seq<Piece>)
    requires KeyOk(k) && Ok(b) && Stays(b, k, 0)
    ensures var pairs := IterKeyed(Flat([Open(k)] + b));
      || pairs == []
      || (b == [] && pairs == [Pair(k, [])])
      || (b != [] && b[|b| - 1] == Close(k) && pairs == [Pair(k, Flat(b[..|b| - 1]))])
  {
    hide Walk, Level, Stays, Flat, KeyOk, Ok, OpenTag, CloseTag, IterKeyed, ScanClose;
    FlatCons(Open(k), b);
    KeyedUnfold(k, Flat(b));
    ScanIsWalk(b, k, 1);
    WalkUnclosed(b, k, 1);
    NothingKeyed();
    assert Flat(b)[|Flat(b)|..] == [];
    if b != [] && b[|b| - 1] == Close(k) {
      var n := |b| - 1;
      assert b == b[..n] + [Close(k)];
      FlatAppend(b[..n], [Close(k)]);
      assert [Close(k)] + [] == [Close(k)];
      FlatCons(Close(k), []);
      assert Flat(b) == Flat(b[..n]) + CloseTag(k);
      assert Upto(Flat(b), |Flat(b)| - |CloseTag(k)|) == Flat(b[..n]);
    }
  }

  lemma {:induction false} NothingKeyed()
    ensures IterKeyed([]) == [] && Flat([]) == []
  {
  }

  // The pairs _iter_keyed yields for a mapping: its entries other than None.
  function PairsOf(j: Json, fields: seq<Field>): seq<Pair> {
    if fields == [] then []
    else
      (if fields[0].value.Null? then [] else [Pair(fields[0].key, ToXml(j, fields[0].value))]) + PairsOf(j, fields[1..])
  }

  lemma {:induction false} KeyedFields(j: Json, fields: seq<Field>)
    requires Faithful(j) && PlainFields(fields)
    ensures IterKeyed(Flat(FieldPieces(j, fields))) == PairsOf(j, fields)
  {
    hide Faithful, KeyOk, IterKeyed, Level, Stays, Flat, Enclosed, Ok, Plain, ToXml, Pieces;
    if fields == [] {
      NothingKeyed();
    } else {
      var f, rest := fields[0], fields[1..];
      KeyedFields(j, rest);
      if f.value.Null? {
        assert [] + FieldPieces(j, rest) == FieldPieces(j, rest);
      } else {
        PiecesOk(j, f.value);
        FieldPiecesOk(j, rest);
        PiecesBalanced(j, f.value, f.key);
        ToXmlIsFlat(j, f.value);
        KeyedField(f.key, Pieces(j, f.value), FieldPieces(j, rest));
      }
    }
  }

  // --------------------------------------------------------------------- mappings

  lemma {:induction false} AssignNew(fields: seq<Field>, f: Field)
    requires forall i :: 0 <= i < |fields| ==> fields[i].key != f.key
    ensures Assign(fields, f) == fields + [f]
  {
    if fields != [] {
      AssignNew(fields[1..], f);
    }
  }

  predicate DistinctPairs(pairs: seq<Pair>) {
    forall i, k :: 0 <= i < k < |pairs| ==> pairs[i].key != pairs[k].key
  }

  lemma {:induction false} FieldsOfPairs(j: Json, bound: nat, pairs: seq<Pair>)
    requires forall i :: 0 <= i < |pairs| ==> |pairs[i].inner| < bound
    requires DistinctPairs(pairs)
    ensures var fields := ParseFields(j, bound, pairs);
      |fields| == |pairs| && forall i :: 0 <= i < |pairs| ==> fields[i] == Field(pairs[i].key, Parse(j, pairs[i].inner))
  {
    hide Parse;
    if pairs != [] {
      var n := |pairs| - 1;
      FieldsOfPairs(j, bound, pairs[..n]);
      AssignNew(ParseFields(j, bound, pairs[..n]), Field(pairs[n].key, Parse(j, pairs[n].inner)));
    }
  }

  lemma {:induction false} PairKeys(j: Json, fields: seq<Field>)
    requires PlainFields(fields)
    ensures |PairsOf(j, fields)| <= |fields| && DistinctPairs(PairsOf(j, fields))
    ensures forall i :: 0 <= i < |PairsOf(j, fields)| ==>
      exists k :: 0 <= k < |fields| && PairsOf(j, fields)[i].key == fields[k].key
    ensures |PairsOf(j, fields)| == |fields| ==> forall i :: 0 <= i < |fields| ==>
      !fields[i].value.Null? && PairsOf(j, fields)[i] == Pair(fields[i].key, ToXml(j, fields[i].value))
    ensures (forall i :: 0 <= i < |fields| ==> !fields[i].value.Null?) ==> |PairsOf(j, fields)| == |fields|
  {
    hide ToXml, KeyOk, Plain;
    if fields != [] {
      PairKeys(j, fields[1..]);
      assert forall k :: 0 <= k < |fields| - 1 ==> fields[1..][k] == fields[k + 1];
    }
  }

  // A text that _parse_xml_value takes for a mapping.
  predicate MappingText(c: Doc) {
    c != [] && Strip(c) == c && [Ns, Chr('<')] <= c && !(OpenTag(ITEM) <= c)
  }

  lemma {:induction false} ParseMapping(j: Json, c: Doc)
    requires Faithful(j) && MappingText(c) && DistinctPairs(IterKeyed(c))
    ensures var pairs, v := IterKeyed(c), Parse(j, c);
      && (v.Obj? <==> pairs != [])
      && (v.Obj? ==> |v.fields| == |pairs|)
      && (v.Obj? ==> forall i :: 0 <= i < |pairs| ==> v.fields[i] == Field(pairs[i].key, Parse(j, pairs[i].inner)))
  {
    FieldsOfPairs(j, |c|, IterKeyed(c));
    assert c[0] == Ns;
    hide Strip, IterKeyed, OpenTag, IterTagged, ParseFields;
  }

  lemma {:induction false} MappingComesBack(j: Json, c: Doc, fields: seq<Field>)
    requires Faithful(j) && PlainFields(fields) && MappingText(c) && IterKeyed(c) == PairsOf(j, fields)
    requires fields != [] && forall i :: 0 <= i < |fields| ==> Parse(j, ToXml(j, fields[i].value)) == fields[i].value
    ensures Parse(j, c) == Obj(fields)
  {
    hide *;
    forall i | 0 <= i < |fields| ensures !fields[i].value.Null? {
      NotNull(j, fields[i].value);
    }
    PairKeys(j, fields);
    ParseMapping(j, c);
    var pairs, v := PairsOf(j, fields), Parse(j, c);
    forall i | 0 <= i < |fields| ensures v.fields[i] == fields[i] {
      assert pairs[i] == Pair(fields[i].key, ToXml(j, fields[i].value));
    }
    assert v.fields == fields;
  }

  lemma {:induction false} NotNull(j: Json, v: Value)
    requires Parse(j, ToXml(j, v)) == v
    ensures !v.Null?
  {
    hide Parse;
    NullIsLost(j);
  }

  lemma {:induction false} ValuesComeBack(j: Json, c: Doc, fields: seq<Field>, i: nat)
    requires Faithful(j) && PlainFields(fields) && MappingText(c) && IterKeyed(c) == PairsOf(j, fields)
    requires Parse(j, c) == Obj(fields) && i < |fields|
    ensures Parse(j, ToXml(j, fields[i].value)) == fields[i].value
  {
    PairKeys(j, fields);
    ParseMapping(j, c);
    hide *;
    var pairs := PairsOf(j, fields);
    assert pairs[i] == Pair(fields[i].key, ToXml(j, fields[i].value));
    assert fields[i] == Field(pairs[i].key, Parse(j, pairs[i].inner));
  }

  // A mapping text whose pairs are those of `fields` parses to them exactly when every value
  // comes back from its own rendering.
  lemma {:induction false} MappingRoundTrip(j: Json, c: Doc, fields: seq<Field>)
    requires Faithful(j) && PlainFields(fields) && MappingText(c) && IterKeyed(c) == PairsOf(j, fields)
    ensures Parse(j, c) == Obj(fields) <==>
      fields != [] && forall i :: 0 <= i < |fields| ==> Parse(j, ToXml(j, fields[i].value)) == fields[i].value
  {
    if Parse(j, c) == Obj(fields) {
      PairKeys(j, fields);
      ParseMapping(j, c);
      hide *;
      forall i | 0 <= i < |fields| ensures Parse(j, ToXml(j, fields[i].value)) == fields[i].value {
        ValuesComeBack(j, c, fields, i);
      }
    } else {
      hide *;
      if fields != [] && forall i :: 0 <= i < |fields| ==> Parse(j, ToXml(j, fields[i].value)) == fields[i].value {
        MappingComesBack(j, c, fields);
      }
    }
  }

  lemma {:induction false} NullIsLost(j: Json)
    ensures Parse(j, []) == Str([]) && ToXml(j, Null) == []
  {
  }

  // ------------------------------------------------------------------- stripping

  lemma {:induction false} StripFacts(d: Doc)
    ensures Strip(Strip(d)) == Strip(d)
    ensures Trimmed(d) <==> Strip(d) == d
    ensures Ns !in d ==> Ns !in Strip(d)
    decreases |d|
  {
    if d != [] {
      if Blank(d[0]) {
        StripFacts(d[1..]);
      } else if Blank(d[|d| - 1]) {
        StripFacts(d[..|d| - 1]);
      }
    }
  }

  predicate Blanks(d: Doc) {
    forall i :: 0 <= i < |d| ==> Blank(d[i])
  }

  // What is left is what stands between the blanks at both ends.
  lemma {:induction false} StripOf(a: Doc, m: Doc, b: Doc)
    requires Blanks(a) && Blanks(b) && Trimmed(m)
    ensures Strip(a + m + b) == m
    decreases |a| + |b|
  {
    var d := a + m + b;
    if a != [] {
      assert d[0] == a[0] && d[1..] == a[1..] + m + b;
      StripOf(a[1..], m, b);
    } else if b != [] {
      assert d[|d| - 1] == b[|b| - 1] && d[..|d| - 1] == a + m + b[..|b| - 1];
      if m == [] {
        assert d[0] == b[0] && d[1..] == a + m + b[1..];
        StripOf(a, m, b[1..]);
      } else {
        assert d[0] == m[0];
        StripOf(a, m, b[..|b| - 1]);
      }
    } else {
      assert d == m;
    }
  }

  lemma {:induction false} FlatText(ps: seq<Piece>, t: Doc)
    ensures Flat(ps + TextPiece(t)) == Flat(ps) + t
  {
    FlatAppend(ps, TextPiece(t));
    if t != [] {
      assert TextPiece(t)[1..] == [];
    }
  }

  lemma {:induction false} FlatSnoc(ps: seq<Piece>, p: Piece)
    ensures Flat(ps + [p]) == Flat(ps) + PieceDoc(p)
  {
    FlatAppend(ps, [p]);
    assert [p][1..] == [];
  }

  // The first n pieces, and the start of a text that comes next.
  predicate CutOf(ps: seq<Piece>, n: nat, t: Doc) {
    n <= |ps| && (t != [] ==> n < |ps| && ps[n].Text? && t <= ps[n].d)
  }

  function Cut(ps: seq<Piece>, n: nat, t: Doc): seq<Piece>
    requires n <= |ps|
  {
    ps[..n] + TextPiece(t)
  }

  lemma {:induction false} CutOk(ps: seq<Piece>, n: nat, t: Doc)
    requires Ok(ps) && CutOf(ps, n, t)
    ensures Ok(Cut(ps, n, t))
  {
    if t != [] {
      assert PieceOk(ps[n]);
      assert Ns !in t;
    }
  }

  lemma {:induction false} StripLast(d: Doc, t: Doc)
    requires d != [] && d[0] == Ns && t != []
    ensures Blank(t[|t| - 1]) ==> Strip(d + t) == Strip(d + t[..|t| - 1])
    ensures !Blank(t[|t| - 1]) ==> Strip(d + t) == d + t
  {
    assert (d + t)[..|d + t| - 1] == d + t[..|t| - 1];
  }

  lemma {:induction false} TagEnds(p: Piece)
    requires !p.Text?
    ensures PieceDoc(p) != [] && PieceDoc(p)[0] == Ns && !Blank(PieceDoc(p)[|PieceDoc(p)| - 1])
  {
  }

  // Stripping a cut rendering cuts it a little earlier.
  lemma {:induction false} StripCut(ps: seq<Piece>, n: nat, t: Doc) returns (n': nat, t': Doc)
    requires Ok(ps) && ps != [] && ps[0].Open? && CutOf(ps, n, t)
    ensures CutOf(ps, n', t') && n' <= n
    ensures Strip(Flat(Cut(ps, n, t))) == Flat(Cut(ps, n', t'))
    decreases n, |t|
  {
    hide PieceDoc, Flat, Strip, Ok;
    n', t' := n, t;
    FlatText(ps[..n], t);
    if n == 0 {
      EmptyStrip();
      assert Cut(ps, n, t) == [];
      return;
    }
    StartsWithTag(ps, n);
    if t != [] {
      StripLast(Flat(ps[..n]), t);
      if Blank(t[|t| - 1]) {
        FlatText(ps[..n], t[..|t| - 1]);
        n', t' := StripCut(ps, n, t[..|t| - 1]);
      }
    } else {
      assert ps[..n] == ps[..n - 1] + [ps[n - 1]];
      if ps[n - 1].Text? {
        TextIsNotEmpty(ps, n - 1);
        assert Cut(ps, n - 1, ps[n - 1].d) == ps[..n] == Cut(ps, n, t);
        n', t' := StripCut(ps, n - 1, ps[n - 1].d);
      } else {
        FlatSnoc(ps[..n - 1], ps[n - 1]);
        TagEnds(ps[n - 1]);
        TagStripped(Flat(ps[..n]));
        assert ps[..n] + TextPiece([]) == ps[..n];
      }
    }
  }

  lemma {:induction false} EmptyStrip()
    ensures Strip([]) == [] && Flat([]) == []
  {
  }

  lemma {:induction false} TextIsNotEmpty(ps: seq<Piece>, i: nat)
    requires Ok(ps) && i < |ps| && ps[i].Text?
    ensures ps[i].d != []
  {
    assert PieceOk(ps[i]);
  }

  lemma {:induction false} TagStripped(d: Doc)
    requires d != [] && d[0] == Ns && !Blank(d[|d| - 1])
    ensures Strip(d) == d
  {
  }

  lemma {:induction false} StartsWithTag(ps: seq<Piece>, n: nat)
    requires 0 < n <= |ps| && ps[0].Open?
    ensures OpenTag(ps[0].key) <= Flat(ps[..n])
    ensures Flat(ps[..n]) != [] && Flat(ps[..n])[0] == Ns
  {
    assert ps[..n][0] == ps[0];
  }
}
