// Compact JSON text determines the value, so a reader as the Gemma-4 theorems ask for exists.
module JsonText {
  import opened Decimals
  import opened Gemma4
  import opened Gemma4Calls
  import opened Gemma4Translation
  import opened Options
  import opened Substrings

  // Quotes and backslashes are escaped.
  function Escaped(s: string): string {
    if s == "" then ""
    else (if s[0] == '"' || s[0] == '\\' then "\\" + [s[0]] else [s[0]]) + Escaped(s[1..])
  }

  function QuotedText(s: string): string {
    "\"" + Escaped(s) + "\""
  }

  predicate WordChar(c: char) {
    KeyStart(c) || Digit(c)
  }

  const WRITER := Json(QuotedText, s => None, IntLike)

  // ------------------------------------------------------------------ one text, one value

  lemma {:induction false} EscapedStep(s: string, rest: string)
    requires s != ""
    ensures var t := Escaped(s) + ("\"" + rest);
      if s[0] == '"' || s[0] == '\\' then |t| > 1 && t[0] == '\\' && t[1] == s[0] && t[2..] == Escaped(s[1..]) + ("\"" + rest)
      else t != "" && t[0] == s[0] && t[1..] == Escaped(s[1..]) + ("\"" + rest)
  {
    var own := if s[0] == '"' || s[0] == '\\' then "\\" + [s[0]] else [s[0]];
    var more := Escaped(s[1..]) + ("\"" + rest);
    assert (own + Escaped(s[1..])) + ("\"" + rest) == own + more;
    assert (own + more)[|own|..] == more;
  }

  lemma {:induction false} EscapedEnd(rest: string)
    ensures var t := Escaped("") + ("\"" + rest); t != "" && t[0] == '"' && t[1..] == rest
  {
  }

  lemma {:induction false} StringUnique(s: string, t: string, a: string, b: string)
    requires Escaped(s) + ("\"" + a) == Escaped(t) + ("\"" + b)
    ensures s == t && a == b
    decreases |s|
  {
    hide Escaped;
    EscapedEnd(a);
    EscapedEnd(b);
    if s != "" {
      EscapedStep(s, a);
    }
    if t != "" {
      EscapedStep(t, b);
    }
    if s != "" && t != "" {
      assert s[0] == t[0];
      StringUnique(s[1..], t[1..], a, b);
      assert s == [s[0]] + s[1..] && t == [t[0]] + t[1..];
    }
  }

  lemma {:induction false} NumberUnique(s: string, t: string, a: string, b: string)
    requires (forall i :: 0 <= i < |s| ==> NumberChar(s[i])) && (forall i :: 0 <= i < |t| ==> NumberChar(t[i]))
    requires Ends(a) && Ends(b) && s + a == t + b
    ensures s == t && a == b
    decreases |s|
  {
    if s != "" {
      assert (s + a)[0] == s[0];
    }
    if t != "" {
      assert (t + b)[0] == t[0];
    }
    if s == "" || t == "" {
      assert "" + a == a && "" + b == b;
    } else {
      assert (s + a)[1..] == s[1..] + a && (t + b)[1..] == t[1..] + b;
      NumberUnique(s[1..], t[1..], a, b);
      assert s == [s[0]] + s[1..] && t == [t[0]] + t[1..];
    }
  }

  // What the text of a value starts with.
  predicate Starts(v: Value, c: char) {
    match v
    case Null => c == 'n'
    case Bool(b) => c == if b then 't' else 'f'
    case Num(_) => Digit(c) || c == '-'
    case Str(_) => c == '"'
    case Arr(_) => c == '['
    case Dict(_) => c == '{'
  }

  lemma {:induction false} FirstChar(v: Value, rest: string)
    requires Clean(WRITER, WordChar, v)
    ensures var t := Print(Compact(WRITER), v) + rest; t != "" && Starts(v, t[0])
  {
  }

  lemma {:induction false} ValueUnique(v: Value, w: Value, a: string, b: string)
    requires Clean(WRITER, WordChar, v) && Clean(WRITER, WordChar, w) && Ends(a) && Ends(b)
    requires Print(Compact(WRITER), v) + a == Print(Compact(WRITER), w) + b
    ensures v == w && a == b
    decreases v, 1
  {
    FirstChar(v, a);
    FirstChar(w, b);
    hide Escaped, Ends, PrintItems, PrintFields;
    match v
    case Null =>
      SamePrefix("null", a, b);
    case Bool(_) =>
      SamePrefix(Print(Compact(WRITER), v), a, b);
    case Num(s) =>
      NumbersOnly(s, w.text);
      NumberUnique(s, w.text, a, b);
    case Str(s) =>
      Peel("\"", Escaped(s), "\"", a);
      Peel("\"", Escaped(w.s), "\"", b);
      StringUnique(s, w.s, a, b);
    case Arr(items) =>
      var x, y := PrintItems(Compact(WRITER), items), PrintItems(Compact(WRITER), w.items);
      Peel("[", x, "]", a);
      Peel("[", y, "]", b);
      ItemsUnique(items, w.items, a, b);
    case Dict(fields) =>
      var x, y := PrintFields(Compact(WRITER), fields), PrintFields(Compact(WRITER), w.fields);
      Peel("{", x, "}", a);
      Peel("{", y, "}", b);
      FieldsUnique(fields, w.fields, a, b);
  }

  lemma {:induction false} SamePrefix(s: string, a: string, b: string)
    requires s + a == s + b
    ensures a == b
  {
    assert (s + a)[|s|..] == a && (s + b)[|s|..] == b;
  }

  lemma {:induction false} Peel(open: string, inner: string, close: string, rest: string)
    ensures (open + inner + close) + rest == open + (inner + (close + rest))
    ensures ((open + inner + close) + rest)[|open|..] == inner + (close + rest)
  {
  }

  lemma {:induction false} FourParts(a: string, b: string, c: string, d: string, rest: string)
    ensures (a + b + c + d) + rest == a + (b + (c + (d + rest)))
  {
    assert (c + d) + rest == c + (d + rest);
    assert (a + b + c + d) + rest == (a + b) + ((c + d) + rest);
  }

  lemma {:induction false} NumbersOnly(s: string, t: string)
    requires IntLike(s) && IntLike(t)
    ensures (forall i :: 0 <= i < |s| ==> NumberChar(s[i])) && (forall i :: 0 <= i < |t| ==> NumberChar(t[i]))
  {
    DigitsOnly(s);
    DigitsOnly(t);
  }

  lemma {:induction false} DigitsOnly(s: string)
    requires IntLike(s)
    ensures forall i :: 0 <= i < |s| ==> Digit(s[i]) || (i == 0 && s[i] == '-')
  {
    forall i | 0 < i < |s| ensures Digit(s[i]) {
      assert s[0] == '-' ==> s[1..][i - 1] == s[i];
    }
  }

  // What follows the first of some items, or of some entries.
  function ItemsTail(items: seq<Value>, rest: string): string
    requires items != []
  {
    if |items| == 1 then "]" + rest else "," + (PrintItems(Compact(WRITER), items[1..]) + ("]" + rest))
  }

  lemma {:induction false} ItemsText(items: seq<Value>, rest: string)
    requires items != []
    ensures PrintItems(Compact(WRITER), items) + ("]" + rest) == Print(Compact(WRITER), items[0]) + ItemsTail(items, rest)
    ensures Ends(ItemsTail(items, rest))
  {
    hide Print;
    var first := Print(Compact(WRITER), items[0]);
    if |items| == 1 {
      assert (first + "") + ("]" + rest) == first + ("]" + rest);
    } else {
      var more := PrintItems(Compact(WRITER), items[1..]);
      assert (first + ("," + more)) + ("]" + rest) == first + ("," + (more + ("]" + rest)));
    }
  }

  lemma {:induction false} ItemsUnique(xs: seq<Value>, ys: seq<Value>, a: string, b: string)
    requires CleanItems(WRITER, WordChar, xs) && CleanItems(WRITER, WordChar, ys)
    requires PrintItems(Compact(WRITER), xs) + ("]" + a) == PrintItems(Compact(WRITER), ys) + ("]" + b)
    ensures xs == ys && a == b
    decreases xs, 0
  {
    hide Print, Ends, Clean;
    assert xs == [] ==> PrintItems(Compact(WRITER), xs) + ("]" + a) == "]" + a;
    assert ys == [] ==> PrintItems(Compact(WRITER), ys) + ("]" + b) == "]" + b;
    if xs != [] {
      ItemsText(xs, a);
      FirstChar(xs[0], ItemsTail(xs, a));
    }
    if ys != [] {
      ItemsText(ys, b);
      FirstChar(ys[0], ItemsTail(ys, b));
    }
    if xs == [] || ys == [] {
      SamePrefix("]", a, b);
    } else {
      ValueUnique(xs[0], ys[0], ItemsTail(xs, a), ItemsTail(ys, b));
      assert ItemsTail(xs, a)[0] == ItemsTail(ys, b)[0];
      assert xs == [xs[0]] + xs[1..] && ys == [ys[0]] + ys[1..];
      if |xs| == 1 {
        SamePrefix("]", a, b);
      } else {
        var x, y := PrintItems(Compact(WRITER), xs[1..]) + ("]" + a), PrintItems(Compact(WRITER), ys[1..]) + ("]" + b);
        SamePrefix(",", x, y);
        ItemsUnique(xs[1..], ys[1..], a, b);
      }
    }
  }

  function FieldsTail(fields: seq<Pair<Value>>, rest: string): string
    requires fields != []
  {
    if |fields| == 1 then "}" + rest else "," + (PrintFields(Compact(WRITER), fields[1..]) + ("}" + rest))
  }

  function FieldRest(fields: seq<Pair<Value>>, rest: string): string
    requires fields != []
  {
    ":" + (Print(Compact(WRITER), fields[0].value) + FieldsTail(fields, rest))
  }

  lemma {:induction false} FieldsText(fields: seq<Pair<Value>>, rest: string)
    requires fields != []
    ensures PrintFields(Compact(WRITER), fields) + ("}" + rest) ==
      "\"" + (Escaped(fields[0].key) + ("\"" + FieldRest(fields, rest)))
    ensures Ends(FieldsTail(fields, rest))
  {
    hide Print, Escaped;
    var f := fields[0];
    var key, value := Escaped(f.key), Print(Compact(WRITER), f.value);
    var more := if |fields| == 1 then "" else "," + PrintFields(Compact(WRITER), fields[1..]);
    assert more + ("}" + rest) == FieldsTail(fields, rest);
    FourParts("\"" + key + "\"", ":", value, more, "}" + rest);
    Peel("\"", key, "\"", FieldRest(fields, rest));
  }

  lemma {:induction false} FieldsUnique(xs: seq<Pair<Value>>, ys: seq<Pair<Value>>, a: string, b: string)
    requires CleanFields(WRITER, WordChar, xs) && CleanFields(WRITER, WordChar, ys)
    requires PrintFields(Compact(WRITER), xs) + ("}" + a) == PrintFields(Compact(WRITER), ys) + ("}" + b)
    ensures xs == ys && a == b
    decreases xs, 1
  {
    hide Print, Ends, Clean, Escaped, Keys;
    assert xs == [] ==> PrintFields(Compact(WRITER), xs) + ("}" + a) == "}" + a;
    assert ys == [] ==> PrintFields(Compact(WRITER), ys) + ("}" + b) == "}" + b;
    if xs != [] {
      FieldsText(xs, a);
      assert (PrintFields(Compact(WRITER), xs) + ("}" + a))[0] == '"';
    }
    if ys != [] {
      FieldsText(ys, b);
      assert (PrintFields(Compact(WRITER), ys) + ("}" + b))[0] == '"';
    }
    hide PrintFields;
    if xs == [] || ys == [] {
      SamePrefix("}", a, b);
    } else {
      FirstFieldUnique(xs, ys, a, b);
      assert FieldsTail(xs, a)[0] == FieldsTail(ys, b)[0];
      assert xs == [xs[0]] + xs[1..] && ys == [ys[0]] + ys[1..];
      if |xs| == 1 {
        SamePrefix("}", a, b);
      } else {
        var x, y := PrintFields(Compact(WRITER), xs[1..]) + ("}" + a), PrintFields(Compact(WRITER), ys[1..]) + ("}" + b);
        SamePrefix(",", x, y);
        FieldsUnique(xs[1..], ys[1..], a, b);
      }
    }
  }

  lemma {:induction false} FirstFieldUnique(xs: seq<Pair<Value>>, ys: seq<Pair<Value>>, a: string, b: string)
    requires xs != [] && ys != [] && Clean(WRITER, WordChar, xs[0].value) && Clean(WRITER, WordChar, ys[0].value)
    requires Ends(FieldsTail(xs, a)) && Ends(FieldsTail(ys, b))
    requires "\"" + (Escaped(xs[0].key) + ("\"" + FieldRest(xs, a))) == "\"" + (Escaped(ys[0].key) + ("\"" + FieldRest(ys, b)))
    ensures xs[0] == ys[0] && FieldsTail(xs, a) == FieldsTail(ys, b)
    decreases xs, 0
  {
    hide Print, Ends, Clean, Escaped, FieldsTail;
    SamePrefix("\"", Escaped(xs[0].key) + ("\"" + FieldRest(xs, a)), Escaped(ys[0].key) + ("\"" + FieldRest(ys, b)));
    StringUnique(xs[0].key, ys[0].key, FieldRest(xs, a), FieldRest(ys, b));
    var x, y := Print(Compact(WRITER), xs[0].value), Print(Compact(WRITER), ys[0].value);
    SamePrefix(":", x + FieldsTail(xs, a), y + FieldsTail(ys, b));
    ValueUnique(xs[0].value, ys[0].value, FieldsTail(xs, a), FieldsTail(ys, b));
  }

  // Two values with the same compact text are the same.
  lemma {:induction false} TextDeterminesValue(v: Value, w: Value)
    requires Clean(WRITER, WordChar, v) && Clean(WRITER, WordChar, w)
    requires Print(Compact(WRITER), v) == Print(Compact(WRITER), w)
    ensures v == w
  {
    hide Print, Clean;
    var t := Print(Compact(WRITER), v);
    assert t + "" == t;
    ValueUnique(v, w, "", "");
  }

  // ---------------------------------------------------------------------------- the reader

  ghost function ReadText(s: string): Option<Value> {
    if exists v :: Clean(WRITER, WordChar, v) && Print(Compact(WRITER), v) == s then
      var v :| Clean(WRITER, WordChar, v) && Print(Compact(WRITER), v) == s;
      Some(v)
    else None
  }

  ghost function Codec(): Json {
    Json(QuotedText, ReadText, IntLike)
  }

  lemma {:induction false} CleanSame(v: Value)
    ensures Clean(Codec(), WordChar, v) <==> Clean(WRITER, WordChar, v)
    decreases v, 1
  {
    match v {
      case Arr(items) => CleanItemsSame(items);
      case Dict(fields) => CleanFieldsSame(fields);
      case _ =>
    }
  }

  lemma {:induction false} CleanItemsSame(items: seq<Value>)
    ensures CleanItems(Codec(), WordChar, items) <==> CleanItems(WRITER, WordChar, items)
    decreases items, 0
  {
    hide Clean;
    if items != [] {
      CleanSame(items[0]);
      CleanItemsSame(items[1..]);
    }
  }

  lemma {:induction false} CleanFieldsSame(fields: seq<Pair<Value>>)
    ensures CleanFields(Codec(), WordChar, fields) <==> CleanFields(WRITER, WordChar, fields)
    decreases fields, 0
  {
    hide Clean, Keys;
    if fields != [] {
      CleanSame(fields[0].value);
      CleanFieldsSame(fields[1..]);
    }
  }

  lemma {:induction false} PlainStays(k: string)
    requires forall i :: 0 <= i < |k| ==> k[i] != '"' && k[i] != '\\'
    ensures Escaped(k) == k
  {
    if k != "" {
      PlainStays(k[1..]);
      assert k == [k[0]] + k[1..];
    }
  }

  lemma {:induction false} CodecIsFaithful()
    ensures Faithful(Codec(), WordChar)
  {
    forall k | Identifier(WordChar, k) ensures Codec().dumps(k) == "\"" + k + "\"" {
      assert forall i :: 0 <= i < |k| ==> WordChar(k[i]) || k[i] == '-';
      PlainStays(k);
    }
    forall t | IntLike(t) ensures Gemma4Translation.NumberText(t) {
      DigitsOnly(t);
    }
  }

  // The compact text of every clean value is read back as that value.
  lemma {:induction false} CodecReadsBack()
    ensures Faithful(Codec(), WordChar) && ReadsBack(Codec(), WordChar)
  {
    CodecIsFaithful();
    hide Clean, Print, Faithful;
    forall v | Clean(Codec(), WordChar, v) ensures ReadText(Print(Compact(Codec()), v)) == Some(v) {
      CleanSame(v);
      assert Compact(Codec()) == Compact(WRITER);
      var s := Print(Compact(WRITER), v);
      var w :| Clean(WRITER, WordChar, w) && Print(Compact(WRITER), w) == s && ReadText(s) == Some(w);
      TextDeterminesValue(v, w);
    }
  }
}
