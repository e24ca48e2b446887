// The namespace-XML codec of swift/agent_template/minimax_m3.py: _to_xml and the parser
// _parse_xml_value with its helpers _iter_tagged and _iter_keyed.
//
// NS_TOKEN is one symbol here; every other symbol is a character.  A regular-expression
// class such as [^/!?\s>] does not match the token.
module MinimaxXml {
  import opened Options
  import opened Searching
  import Substrings

  datatype Sym = Ns | Chr(c: char)

  type Doc = seq<Sym>

  // A number is known by an integer: its value, or an identity where it is not whole.
  datatype Scalar = Bool(b: bool) | Number(x: int)

  datatype Value =
    | Null
    | Str(s: Doc)
    | Prim(p: Scalar)
    | Obj(fields: seq<Field>)
    | Arr(items: seq<Value>)

  datatype Field = Field(key: Doc, value: Value)

  // json.dumps / str of a scalar, and json.loads (None where it raises).
  datatype Json = Json(text: Scalar -> Doc, loads: Doc -> Option<Value>)

  // What the codec relies on (RFC 8259): scalars survive their text, which is neither empty
  // nor padded; no JSON text starts with the token, whose first character is a closing
  // bracket; a string is shorter than its quoted form.
  ghost predicate Faithful(j: Json) {
    && (forall p :: j.text(p) != [] && Ns !in j.text(p) && Trimmed(j.text(p)))
    && (forall p :: j.loads(j.text(p)) == Some(Prim(p)))
    && (forall d :: d != [] && d[0] == Ns ==> j.loads(d) == None)
    && (forall d, s :: j.loads(d) == Some(Str(s)) ==> |s| < |d|)
  }

  predicate Blank(s: Sym) {
    s.Chr? && Substrings.IsSpace(s.c)
  }

  function Strip(d: Doc): (r: Doc)
    ensures |r| <= |d|
    decreases |d|
  {
    if d == [] then d
    else if Blank(d[0]) then Strip(d[1..])
    else if Blank(d[|d| - 1]) then Strip(d[..|d| - 1])
    else d
  }

  predicate Trimmed(d: Doc) {
    d == [] || (!Blank(d[0]) && !Blank(d[|d| - 1]))
  }

  const ITEM: Doc := [Chr('i'), Chr('t'), Chr('e'), Chr('m')]

  function OpenTag(k: Doc): Doc {
    [Ns, Chr('<')] + k + [Chr('>')]
  }

  function CloseTag(k: Doc): Doc {
    [Ns, Chr('<'), Chr('/')] + k + [Chr('>')]
  }

  // ----------------------------------------------------------------------- rendering

  // _to_xml (lines 17-41)
  function ToXml(j: Json, v: Value): Doc
    decreases v, 1
  {
    match v
    case Null => []
    case Obj(fields) => FieldsToXml(j, fields)
    case Arr(items) => ItemsToXml(j, items)
    case Prim(p) => j.text(p)
    case Str(s) => s
  }

  function FieldsToXml(j: Json, fields: seq<Field>): Doc
    decreases fields, 0
  {
    if fields == [] then []
    else
      var f := fields[0];
      (if f.value.Null? then [] else OpenTag(f.key) + ToXml(j, f.value) + CloseTag(f.key))
      + FieldsToXml(j, fields[1..])
  }

  function ItemsToXml(j: Json, items: seq<Value>): Doc
    decreases items, 0
  {
    if items == [] then []
    else OpenTag(ITEM) + ToXml(j, items[0]) + CloseTag(ITEM) + ItemsToXml(j, items[1..])
  }

  // ------------------------------------------------------------------------- parsing

  predicate KeyChar(s: Sym) {
    s.Chr? && s.c !in {'/', '!', '?', '>'} && !Substrings.IsSpace(s.c)
  }

  // The length of the longest run of key characters that d starts with.
  function KeyRun(d: Doc): (n: nat)
    ensures n <= |d| && forall i :: 0 <= i < n ==> KeyChar(d[i])
  {
    if d == [] || !KeyChar(d[0]) then 0 else 1 + KeyRun(d[1..])
  }

  // open_pat.match at the start of d: the key, if d starts with an opening tag.
  function OpeningKey(d: Doc): (r: Option<Doc>)
    ensures r.Some? ==> OpenTag(r.value) <= d
  {
    if |d| < 2 || d[0] != Ns || d[1] != Chr('<') then None
    else
      var n := KeyRun(d[2..]);
      if n == 0 || n + 2 >= |d| || d[n + 2] != Chr('>') then None else Some(d[2..n + 2])
  }

  // open_pat.search: where the first opening tag starts.
  function SearchOpen(d: Doc): (r: Option<nat>)
    ensures r.Some? ==> r.value < |d| && OpeningKey(d[r.value..]).Some?
    decreases |d|
  {
    if d == [] then None
    else if OpeningKey(d).Some? then Some(0)
    else match SearchOpen(d[1..])
      case None => None
      case Some(i) => Some(i + 1)
  }

  // One turn of the depth loop of _iter_keyed (lines 107-116): how far it moves.
  datatype Turn = GiveUp | Move(step: nat, depth: nat)

  function NextTurn(rest: Doc, name: Doc, depth: nat): (t: Turn)
    requires depth > 0
    ensures t.Move? ==> 0 < t.step <= |rest|
  {
    var close, open := Find(rest, CloseTag(name)), Find(rest, OpenTag(name));
    if close.None? then GiveUp
    else if open.Some? && open.value < close.value then Move(open.value + |OpenTag(name)|, depth + 1)
    else Move(close.value + |CloseTag(name)|, depth - 1)
  }

  // The whole loop (lines 103-116) on what is left to scan: how far it gets, or None when it
  // gives up.  It also stops, whatever the depth, at the end of the text.
  function ScanClose(rest: Doc, name: Doc, depth: nat): (r: Option<nat>)
    ensures r.Some? ==> r.value <= |rest|
    decreases |rest|
  {
    if depth == 0 || rest == [] then Some(0)
    else
      match NextTurn(rest, name, depth)
      case GiveUp => None
      case Move(step, depth') => Later(ScanClose(rest[step..], name, depth'), step)
  }

  datatype Pair = Pair(key: Doc, inner: Doc)

  // A Python slice d[..n] with n possibly negative or too small.
  function Upto(d: Doc, n: int): Doc {
    if n <= 0 then [] else if n <= |d| then d[..n] else d
  }

  // _iter_keyed (lines 91-119) from the cursor on.
  function IterKeyed(d: Doc): (r: seq<Pair>)
    ensures forall i :: 0 <= i < |r| ==> |r[i].inner| < |d|
    decreases |d|
  {
    match SearchOpen(d)
    case None => []
    case Some(start) =>
      var name := OpeningKey(d[start..]).value;
      var body := d[start + |OpenTag(name)|..];
      match ScanClose(body, name, 1)
      case None => []
      case Some(scan) => [Pair(name, Upto(body, scan - |CloseTag(name)|))] + IterKeyed(body[scan..])
  }

  // _iter_tagged (lines 85-88): the lazy regular expression takes the first closing tag.  The
  // same pattern finds the tool-call blocks of a response.
  function IterTagged(d: Doc, tag: Doc): (r: seq<Doc>)
    ensures forall i :: 0 <= i < |r| ==> |r[i]| < |d|
    decreases |d|
  {
    match Find(d, OpenTag(tag))
    case None => []
    case Some(start) =>
      var body := d[start + |OpenTag(tag)|..];
      match Find(body, CloseTag(tag))
      case None => []
      case Some(end) => [body[..end]] + IterTagged(body[end + |CloseTag(tag)|..], tag)
  }

  // result[key] = value
  function Assign(fields: seq<Field>, f: Field): seq<Field> {
    if fields == [] then [f]
    else if fields[0].key == f.key then [f] + fields[1..]
    else [fields[0]] + Assign(fields[1..], f)
  }

  // _parse_xml_value (lines 52-82)
  function Parse(j: Json, content: Doc): Value
    decreases |content|, 1, 0
  {
    var c := Strip(content);
    if c == [] then Str([])
    else if OpenTag(ITEM) <= c then Arr(ParseItems(j, |c|, IterTagged(c, ITEM)))
    else
      var fields := if [Ns, Chr('<')] <= c then ParseFields(j, |c|, IterKeyed(c)) else [];
      if fields != [] then Obj(fields)
      else match j.loads(c)
        case Some(v) => v
        case None => Str(c)
  }

  function ParseItems(j: Json, bound: nat, inners: seq<Doc>): (r: seq<Value>)
    requires forall i :: 0 <= i < |inners| ==> |inners[i]| < bound
    ensures |r| == |inners|
    ensures forall i :: 0 <= i < |r| ==> r[i] == Parse(j, inners[i])
    decreases bound, 0, |inners|
  {
    if inners == [] then [] else [Parse(j, inners[0])] + ParseItems(j, bound, inners[1..])
  }

  function ParseFields(j: Json, bound: nat, pairs: seq<Pair>): seq<Field>
    requires forall i :: 0 <= i < |pairs| ==> |pairs[i].inner| < bound
    decreases bound, 0, |pairs|
  {
    if pairs == [] then []
    else
      var n := |pairs| - 1;
      Assign(ParseFields(j, bound, pairs[..n]), Field(pairs[n].key, Parse(j, pairs[n].inner)))
  }
}
