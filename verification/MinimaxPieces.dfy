// Rendered values as sequences of pieces (tags and texts), and what the parser's searches
// find in them.
module MinimaxPieces {
  import opened Options
  import opened Sequences
  import opened MinimaxXml
  import opened Searching

  datatype Piece = Open(key: Doc) | Close(key: Doc) | Text(d: Doc)

  function PieceDoc(p: Piece): Doc {
    match p
    case Open(k) => OpenTag(k)
    case Close(k) => CloseTag(k)
    case Text(d) => d
  }

  function Flat(ps: seq<Piece>): Doc {
    if ps == [] then [] else PieceDoc(ps[0]) + Flat(ps[1..])
  }

  predicate KeyOk(k: Doc) {
    k != [] && forall i :: 0 <= i < |k| ==> KeyChar(k[i])
  }

  predicate PieceOk(p: Piece) {
    match p
    case Open(k) => KeyOk(k)
    case Close(k) => KeyOk(k)
    case Text(d) => d != [] && Ns !in d
  }

  predicate Ok(ps: seq<Piece>) {
    forall i :: 0 <= i < |ps| ==> PieceOk(ps[i])
  }

  function TextPiece(d: Doc): seq<Piece> {
    if d == [] then [] else [Text(d)]
  }

  function Pieces(j: Json, v: Value): seq<Piece>
    decreases v, 1
  {
    match v
    case Null => []
    case Obj(fields) => FieldPieces(j, fields)
    case Arr(items) => ItemPieces(j, items)
    case Prim(p) => TextPiece(j.text(p))
    case Str(s) => TextPiece(s)
  }

  function Enclosed(k: Doc, inner: seq<Piece>): seq<Piece> {
    [Open(k)] + inner + [Close(k)]
  }

  function FieldPieces(j: Json, fields: seq<Field>): seq<Piece>
    decreases fields, 0
  {
    if fields == [] then []
    else
      var f := fields[0];
      (if f.value.Null? then [] else Enclosed(f.key, Pieces(j, f.value))) + FieldPieces(j, fields[1..])
  }

  function ItemPieces(j: Json, items: seq<Value>): seq<Piece>
    decreases items, 0
  {
    if items == [] then [] else Enclosed(ITEM, Pieces(j, items[0])) + ItemPieces(j, items[1..])
  }

  // Values whose strings do not contain the token and whose keys the tag pattern can match.
  predicate Plain(v: Value)
    decreases v, 1
  {
    match v
    case Str(s) => Ns !in s
    case Obj(fields) => PlainFields(fields)
    case Arr(items) => forall i :: 0 <= i < |items| ==> Plain(items[i])
    case _ => true
  }

  predicate PlainFields(fields: seq<Field>)
    decreases fields, 0
  {
    && (forall i :: 0 <= i < |fields| ==> KeyOk(fields[i].key) && Plain(fields[i].value))
    && (forall i, k :: 0 <= i < k < |fields| ==> fields[i].key != fields[k].key)
  }

  lemma {:induction false} FlatAppend(a: seq<Piece>, b: seq<Piece>)
    ensures Flat(a + b) == Flat(a) + Flat(b)
  {
    hide PieceDoc;
    if a == [] {
      assert a + b == b;
    } else {
      FlatAppend(a[1..], b);
      assert (a + b)[1..] == a[1..] + b;
      Associate(PieceDoc(a[0]), Flat(a[1..]), Flat(b));
    }
  }

  lemma {:induction false} FlatCons(p: Piece, ps: seq<Piece>)
    ensures Flat([p] + ps) == PieceDoc(p) + Flat(ps)
  {
    hide PieceDoc;
    assert ([p] + ps)[1..] == ps;
  }

  lemma {:induction false} EnclosedThen(k: Doc, inner: seq<Piece>, tail: seq<Piece>)
    ensures Enclosed(k, inner) + tail == [Open(k)] + (inner + ([Close(k)] + tail))
  {
  }

  lemma {:induction false} FlatEnclosed(k: Doc, inner: seq<Piece>, tail: seq<Piece>)
    ensures Flat(Enclosed(k, inner) + tail) == OpenTag(k) + Flat(inner) + CloseTag(k) + Flat(tail)
  {
    hide OpenTag, CloseTag;
    var rest := [Close(k)] + tail;
    EnclosedThen(k, inner, tail);
    FlatCons(Open(k), inner + rest);
    FlatAppend(inner, rest);
    FlatCons(Close(k), tail);
    hide Flat, Enclosed;
    Associate(OpenTag(k) + Flat(inner), CloseTag(k), Flat(tail));
    Associate(OpenTag(k), Flat(inner), CloseTag(k) + Flat(tail));
  }

  lemma {:induction false} ToXmlIsFlat(j: Json, v: Value)
    ensures ToXml(j, v) == Flat(Pieces(j, v))
    decreases v, 1
  {
    match v {
      case Obj(fields) => FieldsToXmlIsFlat(j, fields);
      case Arr(items) => ItemsToXmlIsFlat(j, items);
      case _ =>
    }
  }

  lemma {:induction false} FieldsToXmlIsFlat(j: Json, fields: seq<Field>)
    ensures FieldsToXml(j, fields) == Flat(FieldPieces(j, fields))
    decreases fields, 0
  {
    hide OpenTag, CloseTag, PieceDoc, Enclosed;
    if fields != [] {
      var f := fields[0];
      ToXmlIsFlat(j, f.value);
      FieldsToXmlIsFlat(j, fields[1..]);
      FlatEnclosed(f.key, Pieces(j, f.value), FieldPieces(j, fields[1..]));
      assert [] + FieldPieces(j, fields[1..]) == FieldPieces(j, fields[1..]);
    }
  }

  lemma {:induction false} ItemsToXmlIsFlat(j: Json, items: seq<Value>)
    ensures ItemsToXml(j, items) == Flat(ItemPieces(j, items))
    decreases items, 0
  {
    hide OpenTag, CloseTag, PieceDoc, Enclosed;
    if items != [] {
      ToXmlIsFlat(j, items[0]);
      ItemsToXmlIsFlat(j, items[1..]);
      FlatEnclosed(ITEM, Pieces(j, items[0]), ItemPieces(j, items[1..]));
    }
  }

  lemma {:induction false} PiecesOk(j: Json, v: Value)
    requires Faithful(j) && Plain(v)
    ensures Ok(Pieces(j, v))
    decreases v, 1
  {
    match v {
      case Obj(fields) => FieldPiecesOk(j, fields);
      case Arr(items) => ItemPiecesOk(j, items);
      case _ =>
    }
  }

  lemma {:induction false} OkAppend(a: seq<Piece>, b: seq<Piece>)
    requires Ok(a) && Ok(b)
    ensures Ok(a + b)
  {
    hide PieceOk;
  }

  lemma {:induction false} OkEnclosed(k: Doc, inner: seq<Piece>)
    requires KeyOk(k) && Ok(inner)
    ensures Ok(Enclosed(k, inner))
  {
    hide KeyOk;
  }

  lemma {:induction false} FieldPiecesOk(j: Json, fields: seq<Field>)
    requires Faithful(j) && PlainFields(fields)
    ensures Ok(FieldPieces(j, fields))
    decreases fields, 0
  {
    if fields != [] {
      hide Faithful, KeyOk, Ok, Enclosed;
      var f, rest := fields[0], FieldPieces(j, fields[1..]);
      PiecesOk(j, f.value);
      FieldPiecesOk(j, fields[1..]);
      OkEnclosed(f.key, Pieces(j, f.value));
      OkAppend(Enclosed(f.key, Pieces(j, f.value)), rest);
      assert [] + rest == rest;
    }
  }

  lemma {:induction false} ItemIsAKey()
    ensures KeyOk(ITEM)
  {
  }

  lemma {:induction false} ItemPiecesOk(j: Json, items: seq<Value>)
    requires Faithful(j) && forall i :: 0 <= i < |items| ==> Plain(items[i])
    ensures Ok(ItemPieces(j, items))
    decreases items, 0
  {
    if items == [] {
      assert Ok([]);
    } else {
      hide Faithful, Plain, Ok, Enclosed, Pieces;
      ItemIsAKey();
      hide KeyOk;
      PiecesOk(j, items[0]);
      ItemPiecesOk(j, items[1..]);
      OkEnclosed(ITEM, Pieces(j, items[0]));
      OkAppend(Enclosed(ITEM, Pieces(j, items[0])), ItemPieces(j, items[1..]));
    }
  }

  // --------------------------------------------------------------------------- Find

  function Head(open: bool): Doc {
    if open then [Ns, Chr('<')] else [Ns, Chr('<'), Chr('/')]
  }

  lemma {:induction false} TagSplits(p: Piece, rest: Doc)
    requires !p.Text?
    ensures PieceDoc(p) + rest == Head(p.Open?) + (p.key + ([Chr('>')] + rest))
    ensures |p.key| > 0 ==> (PieceDoc(p) + rest)[2] == if p.Open? then p.key[0] else Chr('/')
  {
  }

  lemma {:induction false} DropHead(h: Doc, x: Doc, y: Doc)
    requires h + x <= h + y
    ensures x <= y
  {
    assert (h + x)[|h|..] == x && (h + y)[|h|..] == y;
  }

  lemma {:induction false} SameKey(k: Doc, l: Doc, rest: Doc)
    requires (forall i :: 0 <= i < |k| ==> KeyChar(k[i])) && (forall i :: 0 <= i < |l| ==> KeyChar(l[i]))
    requires k + [Chr('>')] <= l + ([Chr('>')] + rest)
    ensures k == l
    decreases |k|
  {
    var a, b := k + [Chr('>')], l + ([Chr('>')] + rest);
    assert a[0] == b[0];
    if k != [] && l != [] {
      assert a[1..] == k[1..] + [Chr('>')] && b[1..] == l[1..] + ([Chr('>')] + rest);
      SameKey(k[1..], l[1..], rest);
      assert k == [k[0]] + k[1..] && l == [l[0]] + l[1..];
    }
  }

  // Distinct tags are not prefixes of one another, whatever follows.
  lemma {:induction false} TagPrefix(p: Piece, q: Piece, rest: Doc)
    requires PieceOk(p) && PieceOk(q) && !p.Text? && !q.Text?
    requires PieceDoc(p) <= PieceDoc(q) + rest
    ensures p == q
  {
    TagSplits(p, []);
    TagSplits(q, rest);
    assert KeyChar(p.key[0]) && KeyChar(q.key[0]);
    var a, b := PieceDoc(p) + [], PieceDoc(q) + rest;
    assert a == PieceDoc(p);
    hide PieceDoc;
    assert a[2] == b[2];
    assert [Chr('>')] + [] == [Chr('>')];
    DropHead(Head(p.Open?), p.key + [Chr('>')], q.key + ([Chr('>')] + rest));
    SameKey(p.key, q.key, rest);
  }

  lemma {:induction false} TagHead(p: Piece)
    requires PieceOk(p) && !p.Text?
    ensures PieceDoc(p) != [] && PieceDoc(p)[0] == Ns && Ns !in PieceDoc(p)[1..]
  {
    assert forall i :: 0 <= i < |p.key| ==> p.key[i].Chr?;
  }

  lemma {:induction false} FindMisses(h: Sym, t: Doc, d: Doc, m: Doc)
    requires m != [] && m[0] == Ns && Ns !in t && !(m <= [h] + t + d)
    ensures Find([h] + t + d, m) == Later(Find(d, m), 1 + |t|)
  {
    hide Find;
    var s := [h] + t + d;
    assert s[1..] == t + d;
    FindStep(s, m);
    FindSkips(t, d, m);
    LaterTwice(Find(d, m), |t|, 1);
  }

  lemma {:induction false} FindHead(q: Piece, rest: Doc, p: Piece)
    requires PieceOk(p) && PieceOk(q) && !p.Text?
    ensures Find(PieceDoc(q) + rest, PieceDoc(p)) ==
      if p == q then Some(0) else Later(Find(rest, PieceDoc(p)), |PieceDoc(q)|)
  {
    hide Find;
    var m, d := PieceDoc(p), PieceDoc(q);
    TagHead(p);
    if q.Text? {
      FindSkips(d, rest, m);
    } else {
      hide PieceDoc, PieceOk;
      TagHead(q);
      FindHere(d, rest);
      if m <= d + rest {
        TagPrefix(p, q, rest);
      } else {
        assert d == [d[0]] + d[1..];
        FindMisses(d[0], d[1..], rest, m);
        assert d <= d + rest;
      }
    }
  }

  lemma {:induction false} FindPiece(ps: seq<Piece>, p: Piece)
    requires Ok(ps) && PieceOk(p) && !p.Text?
    ensures Find(Flat(ps), PieceDoc(p)).Some? <==> p in ps
  {
    if ps != [] {
      FindHead(ps[0], Flat(ps[1..]), p);
      FindPiece(ps[1..], p);
    }
  }

  // The first occurrence of a tag, when it is known.
  lemma {:induction false} FindFirst(before: seq<Piece>, p: Piece, after: seq<Piece>)
    requires Ok(before) && PieceOk(p) && !p.Text? && p !in before
    ensures Find(Flat(before + ([p] + after)), PieceDoc(p)) == Some(|Flat(before)|)
  {
    hide PieceDoc, Find, KeyOk;
    var all := before + ([p] + after);
    if before == [] {
      FindHead(p, Flat(after), p);
      assert all == [p] + after;
    } else {
      assert all[0] == before[0] && all[1..] == before[1..] + ([p] + after);
      FindHead(before[0], Flat(all[1..]), p);
      FindFirst(before[1..], p, after);
    }
  }

  // -------------------------------------------------------------- the depth loop

  function Delta(p: Piece, name: Doc): int {
    if p == Open(name) then 1 else if p == Close(name) then -1 else 0
  }

  function Level(ps: seq<Piece>, name: Doc): int {
    if ps == [] then 0 else Delta(ps[0], name) + Level(ps[1..], name)
  }

  // The level, starting from `base`, never falls below zero.
  predicate Stays(ps: seq<Piece>, name: Doc, base: int) {
    base >= 0 && (ps == [] || Stays(ps[1..], name, base + Delta(ps[0], name)))
  }

  lemma {:induction false} StaysAppend(a: seq<Piece>, b: seq<Piece>, name: Doc, base: int)
    ensures Stays(a + b, name, base) <==> Stays(a, name, base) && Stays(b, name, base + Level(a, name))
    ensures Level(a + b, name) == Level(a, name) + Level(b, name)
  {
    if a == [] {
      assert a + b == b;
    } else {
      assert (a + b)[1..] == a[1..] + b;
      StaysAppend(a[1..], b, name, base + Delta(a[0], name));
    }
  }

  lemma {:induction false} StaysHigher(ps: seq<Piece>, name: Doc, base: int, more: nat)
    requires Stays(ps, name, base)
    ensures Stays(ps, name, base + more)
  {
    if ps != [] {
      StaysHigher(ps[1..], name, base + Delta(ps[0], name), more);
    }
  }

  lemma {:induction false} EnclosedBalanced(k: Doc, inner: seq<Piece>, name: Doc)
    requires Level(inner, name) == 0 && Stays(inner, name, 0)
    ensures Level(Enclosed(k, inner), name) == 0 && Stays(Enclosed(k, inner), name, 0)
  {
    StaysAppend([Open(k)], inner, name, 0);
    StaysAppend([Open(k)] + inner, [Close(k)], name, 0);
    if k == name {
      StaysHigher(inner, name, 0, 1);
    }
  }

  lemma {:induction false} PiecesBalanced(j: Json, v: Value, name: Doc)
    ensures Level(Pieces(j, v), name) == 0 && Stays(Pieces(j, v), name, 0)
    decreases v, 1
  {
    match v {
      case Obj(fields) => FieldPiecesBalanced(j, fields, name);
      case Arr(items) => ItemPiecesBalanced(j, items, name);
      case _ =>
    }
  }

  lemma {:induction false} FieldPiecesBalanced(j: Json, fields: seq<Field>, name: Doc)
    ensures Level(FieldPieces(j, fields), name) == 0 && Stays(FieldPieces(j, fields), name, 0)
    decreases fields, 0
  {
    if fields != [] {
      var f := fields[0];
      PiecesBalanced(j, f.value, name);
      EnclosedBalanced(f.key, Pieces(j, f.value), name);
      FieldPiecesBalanced(j, fields[1..], name);
      StaysAppend(if f.value.Null? then [] else Enclosed(f.key, Pieces(j, f.value)), FieldPieces(j, fields[1..]), name, 0);
    }
  }

  lemma {:induction false} ItemPiecesBalanced(j: Json, items: seq<Value>, name: Doc)
    ensures Level(ItemPieces(j, items), name) == 0 && Stays(ItemPieces(j, items), name, 0)
    decreases items, 0
  {
    if items != [] {
      PiecesBalanced(j, items[0], name);
      EnclosedBalanced(ITEM, Pieces(j, items[0]), name);
      ItemPiecesBalanced(j, items[1..], name);
      StaysAppend(Enclosed(ITEM, Pieces(j, items[0])), ItemPieces(j, items[1..]), name, 0);
    }
  }

  // The depth loop, one piece at a time.
  function Walk(ps: seq<Piece>, name: Doc, depth: nat): Option<nat> {
    if depth == 0 || ps == [] then Some(0)
    else if Close(name) !in ps then None
    else Later(Walk(ps[1..], name, depth + Delta(ps[0], name)), |PieceDoc(ps[0])|)
  }

  // Both tags are found n symbols later: so is the next turn.
  lemma {:induction false} TurnLater(a: Doc, rest: Doc, n: nat, name: Doc, depth: nat)
    requires depth > 0 && Find(rest, CloseTag(name)).Some?
    requires Find(a, CloseTag(name)) == Later(Find(rest, CloseTag(name)), n)
    requires Find(a, OpenTag(name)) == Later(Find(rest, OpenTag(name)), n)
    ensures var t := NextTurn(rest, name, depth); t.Move? && NextTurn(a, name, depth) == Move(n + t.step, t.depth)
  {
    hide Find, OpenTag, CloseTag;
  }

  lemma {:induction false} TurnHere(rest: Doc, name: Doc, depth: nat)
    requires depth > 0 && Find(rest, CloseTag(name)).Some?
    ensures Find(rest, CloseTag(name)) == Some(0) ==> NextTurn(rest, name, depth) == Move(|CloseTag(name)|, depth - 1)
    ensures Find(rest, OpenTag(name)) == Some(0) && Find(rest, CloseTag(name)).value > 0 ==>
      NextTurn(rest, name, depth) == Move(|OpenTag(name)|, depth + 1)
  {
    hide Find, OpenTag, CloseTag;
  }

  // Which way the next turn goes, from the first piece.
  lemma {:induction false} TurnOnPiece(q: Piece, rest: Doc, name: Doc, depth: nat)
    requires PieceOk(q) && KeyOk(name) && depth > 0
    requires Find(PieceDoc(q) + rest, CloseTag(name)).Some?
    ensures q == Open(name) || q == Close(name) ==>
      NextTurn(PieceDoc(q) + rest, name, depth) == Move(|PieceDoc(q)|, depth + Delta(q, name))
    ensures q != Open(name) && q != Close(name) ==>
      && NextTurn(rest, name, depth).Move?
      && NextTurn(PieceDoc(q) + rest, name, depth)
         == Move(|PieceDoc(q)| + NextTurn(rest, name, depth).step, NextTurn(rest, name, depth).depth)
  {
    assert PieceOk(Open(name)) && PieceOk(Close(name));
    hide PieceDoc, PieceOk, KeyOk, Find, NextTurn, OpenTag, CloseTag;
    assert PieceDoc(Open(name)) == OpenTag(name) != [] && PieceDoc(Close(name)) == CloseTag(name) != [];
    FindHead(q, rest, Close(name));
    FindHead(q, rest, Open(name));
    TurnHere(PieceDoc(q) + rest, name, depth);
    if q != Open(name) && q != Close(name) {
      TurnLater(PieceDoc(q) + rest, rest, |PieceDoc(q)|, name, depth);
    }
  }

  lemma {:induction false} ScanSkips(q: Doc, rest: Doc, name: Doc, depth: nat)
    requires depth > 0 && rest != [] && NextTurn(rest, name, depth).Move?
    requires var t := NextTurn(rest, name, depth); NextTurn(q + rest, name, depth) == Move(|q| + t.step, t.depth)
    ensures ScanClose(q + rest, name, depth) == Later(ScanClose(rest, name, depth), |q|)
  {
    hide NextTurn, ScanClose, Find;
    var t := NextTurn(rest, name, depth);
    ScanUnfold(rest, name, depth, t.step, t.depth);
    ScanUnfold(q + rest, name, depth, |q| + t.step, t.depth);
    assert (q + rest)[|q| + t.step..] == rest[t.step..];
  }

  lemma {:induction false} ScanUnfold(d: Doc, name: Doc, depth: nat, step: nat, depth': nat)
    requires depth > 0 && d != [] && NextTurn(d, name, depth) == Move(step, depth')
    ensures step <= |d| && ScanClose(d, name, depth) == Later(ScanClose(d[step..], name, depth'), step)
  {
    hide NextTurn;
  }

  lemma {:induction false} ScanOne(q: Doc, rest: Doc, name: Doc, depth: nat, depth': nat)
    requires depth > 0 && q != [] && NextTurn(q + rest, name, depth) == Move(|q|, depth')
    ensures ScanClose(q + rest, name, depth) == Later(ScanClose(rest, name, depth'), |q|)
  {
    hide NextTurn;
    assert (q + rest)[|q|..] == rest;
  }

  lemma {:induction false} ScanIsWalk(ps: seq<Piece>, name: Doc, depth: nat)
    requires Ok(ps) && KeyOk(name)
    ensures ScanClose(Flat(ps), name, depth) == Walk(ps, name, depth)
  {
    if depth > 0 && ps != [] {
      var q, rest := ps[0], Flat(ps[1..]);
      FindPiece(ps, Close(name));
      assert PieceDoc(Close(name)) == CloseTag(name);
      assert PieceDoc(q) != [];
      hide KeyOk, PieceDoc, OpenTag, CloseTag, Find;
      if Close(name) in ps {
        TurnOnPiece(q, rest, name, depth);
        ScanIsWalk(ps[1..], name, depth + Delta(q, name));
        hide ScanClose, NextTurn;
        if q == Open(name) || q == Close(name) {
          ScanOne(PieceDoc(q), rest, name, depth, depth + Delta(q, name));
        } else {
          ScanSkips(PieceDoc(q), rest, name, depth);
        }
      }
    }
  }

  lemma {:induction false} WalkStep(ps: seq<Piece>, name: Doc, depth: nat)
    requires depth > 0 && ps != [] && Close(name) in ps && depth + Delta(ps[0], name) >= 0
    ensures Walk(ps, name, depth) == Later(Walk(ps[1..], name, depth + Delta(ps[0], name)), |PieceDoc(ps[0])|)
    ensures |Flat(ps)| == |PieceDoc(ps[0])| + |Flat(ps[1..])|
  {
    hide PieceDoc;
  }

  lemma {:induction false} WalkEdges(ps: seq<Piece>, name: Doc, depth: nat)
    ensures Walk([], name, depth) == Some(0) && Flat([]) == [] && Level([], name) == 0
    ensures depth > 0 && ps != [] && Close(name) !in ps ==> Walk(ps, name, depth) == None
  {
    hide PieceDoc;
  }

  lemma {:induction false} StaysStep(ps: seq<Piece>, name: Doc, base: int)
    requires Stays(ps, name, base) && ps != []
    ensures base + Delta(ps[0], name) >= 0 && Stays(ps[1..], name, base + Delta(ps[0], name))
    ensures Level(ps, name) == Delta(ps[0], name) + Level(ps[1..], name)
  {
  }

  // Walking over balanced pieces leaves the depth as it was.
  lemma {:induction false} WalkThrough(ps: seq<Piece>, rest: seq<Piece>, name: Doc, depth: nat)
    requires depth > 0 && Close(name) in rest && Stays(ps, name, depth - 1)
    ensures depth + Level(ps, name) > 0
    ensures Walk(ps + rest, name, depth) == Later(Walk(rest, name, depth + Level(ps, name)), |Flat(ps)|)
  {
    hide *;
    if ps == [] {
      WalkNone(ps, rest, name, depth);
    } else {
      StaysStep(ps, name, depth - 1);
      WalkThrough(ps[1..], rest, name, depth + Delta(ps[0], name));
      WalkMore(ps, rest, name, depth, depth + Delta(ps[0], name), depth + Level(ps, name));
    }
  }

  lemma {:induction false} WalkNone(ps: seq<Piece>, rest: seq<Piece>, name: Doc, depth: nat)
    requires ps == []
    ensures Level(ps, name) == 0 && Walk(ps + rest, name, depth) == Later(Walk(rest, name, depth), |Flat(ps)|)
  {
    hide Walk;
    assert ps + rest == rest;
  }

  lemma {:induction false} WalkMore(ps: seq<Piece>, rest: seq<Piece>, name: Doc, depth: nat, next: nat, end: nat)
    requires depth > 0 && ps != [] && Close(name) in rest && next == depth + Delta(ps[0], name)
    requires Walk(ps[1..] + rest, name, next) == Later(Walk(rest, name, end), |Flat(ps[1..])|)
    ensures Walk(ps + rest, name, depth) == Later(Walk(rest, name, end), |Flat(ps)|)
  {
    hide *;
    assert var all := ps + rest; all[0] == ps[0] && all[1..] == ps[1..] + rest && Close(name) in all;
    WalkStep(ps + rest, name, depth);
    FlatStep(ps);
    LaterTwice(Walk(rest, name, end), |Flat(ps[1..])|, |PieceDoc(ps[0])|);
  }

  lemma {:induction false} FlatStep(ps: seq<Piece>)
    requires ps != []
    ensures |Flat(ps)| == |PieceDoc(ps[0])| + |Flat(ps[1..])|
  {
    hide PieceDoc;
  }

  // Pieces that never close what is open: the loop gives up, or stops at the very end, and
  // then only right after a closing tag of that name.
  lemma {:induction false} WalkUnclosed(ps: seq<Piece>, name: Doc, depth: nat)
    requires depth > 0 && Stays(ps, name, depth - 1)
    ensures var w := Walk(ps, name, depth);
      w.None? || (w == Some(|Flat(ps)|) && (ps == [] || ps[|ps| - 1] == Close(name)))
  {
    hide Walk, Flat, PieceDoc, Stays, Delta;
    WalkEdges(ps, name, depth);
    if ps != [] && Close(name) in ps {
      var rest, depth' := ps[1..], depth + Delta(ps[0], name);
      assert if |ps| == 1 then ps[0] == Close(name) else ps[1..][|ps| - 2] == ps[|ps| - 1];
      StaysStep(ps, name, depth - 1);
      WalkUnclosed(rest, name, depth');
      WalkStep(ps, name, depth);
    }
  }
}
