// JSON codecs that meet what the tool-call theorems ask of one, so that those theorems speak
// about something.
module JsonCodecs {
  import opened Decimals
  import opened Options
  import K = KimiK3
  import KR = KimiRoundTrip
  import M = MinimaxXml
  import MC = MinimaxCalls

  // ------------------------------------------------------------------------ MiniMax-M3

  function Lifted(s: string): (d: M.Doc)
    ensures |d| == |s| && forall i :: 0 <= i < |s| ==> d[i] == M.Chr(s[i])
  {
    seq(|s|, i requires 0 <= i < |s| => M.Chr(s[i]))
  }

  function Chars(d: M.Doc): (s: string)
    requires M.Ns !in d
    ensures |s| == |d|
  {
    seq(|d|, i requires 0 <= i < |d| => assert d[i] in d; d[i].c)
  }

  lemma {:induction false} CharsOfLifted(s: string)
    ensures M.Ns !in Lifted(s) && Chars(Lifted(s)) == s
  {
  }

  function ScalarText(p: M.Scalar): string {
    match p
    case Bool(b) => if b then "true" else "false"
    case Number(x) => IntText(x)
  }

  // Words, integers, and strings without escapes.
  function Loads(d: M.Doc): Option<M.Value> {
    if d == Lifted("null") then Some(M.Null)
    else if d == Lifted("true") then Some(M.Prim(M.Bool(true)))
    else if d == Lifted("false") then Some(M.Prim(M.Bool(false)))
    else if M.Ns !in d && IntLike(Chars(d)) then Some(M.Prim(M.Number(ReadInt(Chars(d)))))
    else if |d| >= 2 && d[0] == M.Chr('"') && d[|d| - 1] == M.Chr('"')
      && M.Chr('"') !in d[1..|d| - 1] && M.Chr('\\') !in d[1..|d| - 1] then Some(M.Str(d[1..|d| - 1]))
    else None
  }

  const DOCS := M.Json(p => Lifted(ScalarText(p)), Loads)

  lemma {:induction false} IntTextEnds(x: int)
    ensures var s := IntText(x);
      (s[0] == '-' || Digit(s[0])) && Digit(s[|s| - 1])
  {
    var n: nat := if x < 0 then -x else x;
    var d := Decimal(n);
    assert Digit(d[0]) && Digit(d[|d| - 1]);
  }

  lemma {:induction false} ScalarReadsBack(p: M.Scalar)
    ensures Loads(Lifted(ScalarText(p))) == Some(M.Prim(p))
  {
    var d := Lifted(ScalarText(p));
    CharsOfLifted(ScalarText(p));
    if p.Number? {
      IntReadsBack(p.x);
      IntTextEnds(p.x);
      assert d[0] != M.Chr('n') && d[0] != M.Chr('t') && d[0] != M.Chr('f');
    } else {
      assert d[0] == M.Chr('t') || d[0] == M.Chr('f');
      assert Lifted("null")[0] == M.Chr('n');
    }
  }

  lemma {:induction false} ScalarTrimmed(p: M.Scalar)
    ensures var d := Lifted(ScalarText(p)); d != [] && M.Ns !in d && M.Trimmed(d)
  {
    CharsOfLifted(ScalarText(p));
    if p.Number? {
      IntTextEnds(p.x);
    }
  }

  lemma {:induction false} DocsAreFaithful()
    ensures M.Faithful(DOCS) && MC.OneNull(DOCS)
  {
    hide Loads, ScalarText, Lifted;
    forall p | true
      ensures DOCS.text(p) != [] && M.Ns !in DOCS.text(p) && M.Trimmed(DOCS.text(p))
      ensures DOCS.loads(DOCS.text(p)) == Some(M.Prim(p)) {
      ScalarTrimmed(p);
      ScalarReadsBack(p);
    }
    forall d | d != [] && d[0] == M.Ns ensures DOCS.loads(d) == None {
      TokenIsNoJson(d);
    }
    forall d, s | DOCS.loads(d) == Some(M.Str(s)) ensures |s| < |d| {
      StringIsShorter(d, s);
    }
    forall d | DOCS.loads(d) == Some(M.Null) ensures d == MC.NULL {
      NullIsNull(d);
    }
  }

  lemma {:induction false} NullIsNull(d: M.Doc)
    requires Loads(d) == Some(M.Null)
    ensures d == MC.NULL
  {
  }

  lemma {:induction false} TokenIsNoJson(d: M.Doc)
    requires d != [] && d[0] == M.Ns
    ensures Loads(d) == None
  {
    assert Lifted("null")[0] != d[0] && Lifted("true")[0] != d[0] && Lifted("false")[0] != d[0];
  }

  lemma {:induction false} StringIsShorter(d: M.Doc, s: M.Doc)
    requires Loads(d) == Some(M.Str(s))
    ensures |s| < |d|
  {
  }

  // --------------------------------------------------------------------------- Kimi-K3

  function KindLetter(k: K.Kind): char {
    match k
    case Boolean => 'b'
    case Number => 'n'
    case Object => 'o'
    case Array => 'a'
  }

  function Dumps(v: K.Value): string {
    match v
    case Null => "null"
    case Str(s) => "\"" + s + "\""
    case Other(kind, id) => [KindLetter(kind)] + IntText(id)
  }

  function KindOf(c: char): K.Kind {
    if c == 'b' then K.Boolean else if c == 'n' then K.Number else if c == 'o' then K.Object else K.Array
  }

  function Parse(s: string): Option<K.Value> {
    if s != "" && s[0] in "bnoa" && IntLike(s[1..]) then Some(K.Other(KindOf(s[0]), ReadInt(s[1..]))) else None
  }

  lemma {:induction false} ValuesAreFaithful()
    ensures KR.Faithful(K.Json(Dumps, Parse))
  {
    forall v: K.Value | v.Other? ensures Parse(Dumps(v)) == Some(v) {
      IntReadsBack(v.id);
      assert Dumps(v)[1..] == IntText(v.id);
    }
  }
}
