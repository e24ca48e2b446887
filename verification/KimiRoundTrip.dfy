// Formatted XTML tool calls are read back.
module KimiRoundTrip {
  import opened Decimals
  import opened KimiK3
  import opened Options
  import opened Searching
  import opened Sequences
  import opened Substrings

  // ------------------------------------------------------------------------ the markers

  // Where a closing text has its second marker, after which it cannot continue as b.
  lemma {:induction false} GuardedBySep(m: string, b: string, p: nat)
    requires 0 < p && p + 2 < |m| && 2 < |b|
    requires forall i :: 0 < i < |m| && i != p ==> m[i] != b[0]
    requires m[p + 2] != b[2]
    ensures Guarded(m, b)
  {
    forall i | 0 < i < |m| ensures Clash(m[i..], b) {
      if i == p {
        assert m[p..][2] == m[p + 2];
        ClashAt(m[p..], b, 2);
      } else {
        ClashAt(m[i..], b, 0);
      }
    }
  }

  // The quotes of m cannot start a TYPE.
  lemma {:induction false} GuardedByQuotes(m: string, p: nat, q: nat)
    requires 0 < p < q && q + 1 < |m| && m[p + 1] != ' ' && m[q + 1] != ' '
    requires forall i :: 0 < i < |m| && i != p && i != q ==> m[i] != '"'
    ensures Guarded(m, TYPE)
  {
    assert TYPE[0] == '"' && TYPE[1] == ' ';
    hide TYPE, Clash;
    forall i | 0 < i < |m| ensures Clash(m[i..], TYPE) {
      if i == p || i == q {
        assert m[i..][1] == m[i + 1];
        ClashAt(m[i..], TYPE, 1);
      } else {
        ClashAt(m[i..], TYPE, 0);
      }
    }
  }

  lemma {:induction false} MarkersGuarded()
    ensures Guarded(CALL_CLOSE, ARG_CLOSE) && Guarded(CALL_CLOSE, JSON_CLOSE) && Guarded(CALL_CLOSE, TYPE)
    ensures Guarded(JSON_OPEN, ARG_CLOSE) && Guarded(JSON_OPEN, TYPE)
    ensures Guarded(ARG_CLOSE, ARG_CLOSE) && Guarded(JSON_CLOSE, JSON_CLOSE)
  {
    hide Guarded, Clash;
    GuardedBySep(CALL_CLOSE, ARG_CLOSE, 13);
    GuardedBySep(CALL_CLOSE, JSON_CLOSE, 13);
    GuardedByQuotes(CALL_CLOSE, 17, 18);
    GuardedBySep(JSON_OPEN, ARG_CLOSE, 26);
    GuardedByQuotes(JSON_OPEN, 18, 25);
    GuardedBySep(ARG_CLOSE, ARG_CLOSE, 17);
    GuardedBySep(JSON_CLOSE, JSON_CLOSE, 13);
  }

  // A marker that is not the start of m is passed over.
  lemma {:induction false} SkipMarker(mark: string, rest: string, m: string)
    requires m != "" && Clash(m, mark) && m[0] !in mark[1..]
    ensures Find(mark + rest, m) == Later(Find(rest, m), |mark|)
  {
    hide Find;
    var s := mark + rest;
    ClashIsNoPrefix(m, mark, rest);
    assert s[1..] == mark[1..] + rest;
    FindStep(s, m);
    FindSkips(mark[1..], rest, m);
  }

  predicate OneMark(mark: string) {
    mark != "" && mark[0] == '<' && '<' !in mark[1..]
  }

  // Neither starts inside a formatted argument, nor reaches into one of its marks.
  ghost predicate Outer(m: string) {
    && m != "" && m[0] == '<'
    && Guarded(m, TYPE) && Guarded(m, ARG_CLOSE)
    && Clash(m, ARG_OPEN) && Clash(m, ARG_TAG) && Clash(m, SEP)
  }

  const ARG_TAG := "<|close|>argument"

  lemma {:induction false} IsOneMark(mark: string)
    requires mark != "" && mark[0] == '<' && forall i :: 0 < i < |mark| ==> mark[i] != '<'
    ensures OneMark(mark)
  {
  }

  lemma {:induction false} Marks()
    ensures OneMark(ARG_OPEN) && OneMark(ARG_TAG) && OneMark(SEP)
    ensures ARG_CLOSE == ARG_TAG + SEP && TYPE_END == "\"" + SEP
    ensures '<' !in TYPE && '<' !in "\""
  {
    hide OneMark;
    IsOneMark(ARG_OPEN);
    IsOneMark(ARG_TAG);
    IsOneMark(SEP);
  }

  lemma {:induction false} CloseIsOuter()
    ensures Outer(CALL_CLOSE)
  {
    hide Guarded, Clash;
    MarkersGuarded();
    ClashAt(CALL_CLOSE, ARG_OPEN, 2);
    ClashAt(CALL_CLOSE, ARG_TAG, 9);
    ClashAt(CALL_CLOSE, SEP, 2);
  }

  lemma {:induction false} JsonIsOuter()
    ensures Outer(JSON_OPEN)
  {
    hide Guarded, Clash;
    MarkersGuarded();
    ClashAt(JSON_OPEN, ARG_OPEN, 8);
    ClashAt(JSON_OPEN, ARG_TAG, 2);
    ClashAt(JSON_OPEN, SEP, 2);
  }

  lemma {:induction false} SkipMark(mark: string, rest: string, m: string)
    requires OneMark(mark) && m != "" && m[0] == '<' && Clash(m, mark)
    ensures Find(mark + rest, m) == Later(Find(rest, m), |mark|)
  {
    hide Find, Clash;
    SkipMarker(mark, rest, m);
  }

  // ------------------------------------------------------------------------ the domain

  // No opening or closing marker in a text.
  predicate Unmarked(s: string) {
    Free(s, "<|open|>") && Free(s, "<|close|>")
  }

  lemma {:induction false} FreeLonger(s: string, p: string, m: string)
    requires Free(s, p) && p <= m
    ensures Free(s, m)
  {
    if s != "" {
      FreeLonger(s[1..], p, m);
      assert m <= s ==> p <= s;
    }
  }

  lemma {:induction false} UnmarkedFacts(s: string)
    requires Unmarked(s)
    ensures Free(s, CALL_CLOSE) && Free(s, ARG_CLOSE) && Free(s, JSON_CLOSE) && Free(s, JSON_OPEN)
  {
    hide Free;
    FreeLonger(s, "<|close|>", CALL_CLOSE);
    FreeLonger(s, "<|close|>", ARG_CLOSE);
    FreeLonger(s, "<|close|>", JSON_CLOSE);
    FreeLonger(s, "<|open|>", JSON_OPEN);
  }

  // The key and the text of the value hold no marker.
  predicate PlainArg(j: Json, a: Arg) {
    Unmarked(Escape(a.key)) && Unmarked(XtmlValue(j, a.value))
  }

  lemma {:induction false} PlainArgFacts(j: Json, a: Arg)
    requires PlainArg(j, a)
    ensures Free(Escape(a.key), CALL_CLOSE) && Free(Escape(a.key), JSON_OPEN)
    ensures var v := XtmlValue(j, a.value); Free(v, CALL_CLOSE) && Free(v, JSON_OPEN) && Free(v, ARG_CLOSE)
  {
    hide Free, Escape, XtmlValue;
    UnmarkedFacts(Escape(a.key));
    UnmarkedFacts(XtmlValue(j, a.value));
  }

  predicate PlainArgs(j: Json, args: seq<Arg>) {
    args == [] || (PlainArg(j, args[0]) && args[0].key !in Names(args[1..]) && PlainArgs(j, args[1..]))
  }

  function Names(args: seq<Arg>): set<string> {
    if args == [] then {} else {args[0].key} + Names(args[1..])
  }

  // What json.dumps and _parse_json are asked for.
  ghost predicate Faithful(j: Json) {
    forall v: Value :: v.Other? ==> j.parse(j.dumps(v)) == Some(v)
  }

  ghost predicate DigitClass(digit: char -> bool) {
    (forall c :: '0' <= c <= '9' ==> digit(c)) && !digit('"')
  }

  // ------------------------------------------------------- passing over an argument

  function AfterKind(j: Json, a: Arg, rest: string): string {
    TYPE_END + (XtmlValue(j, a.value) + (ARG_CLOSE + rest))
  }

  function AfterKey(j: Json, a: Arg, rest: string): string {
    TYPE + (XtmlType(a.value) + AfterKind(j, a, rest))
  }

  lemma {:induction false} ArgThen(j: Json, a: Arg, rest: string)
    ensures ArgText(j, a) + rest == ARG_OPEN + (Escape(a.key) + AfterKey(j, a, rest))
    ensures |ArgText(j, a)| == |ARG_OPEN| + |Escape(a.key)| + |TYPE| + |XtmlType(a.value)| + |TYPE_END|
      + |XtmlValue(j, a.value)| + |ARG_CLOSE|
  {
    hide Escape;
    var v, t := XtmlValue(j, a.value), XtmlType(a.value);
    assert (v + ARG_CLOSE) + rest == v + (ARG_CLOSE + rest);
    assert (TYPE_END + (v + ARG_CLOSE)) + rest == TYPE_END + (v + (ARG_CLOSE + rest));
    assert (t + (TYPE_END + (v + ARG_CLOSE))) + rest == t + AfterKind(j, a, rest);
    assert (TYPE + (t + (TYPE_END + (v + ARG_CLOSE)))) + rest == AfterKey(j, a, rest);
    assert (Escape(a.key) + (TYPE + (t + (TYPE_END + (v + ARG_CLOSE))))) + rest == Escape(a.key) + AfterKey(j, a, rest);
  }

  lemma {:induction false} OuterFacts(m: string)
    requires Outer(m)
    ensures m != "" && m[0] == '<' && Guarded(m, TYPE) && Guarded(m, ARG_CLOSE)
    ensures Clash(m, ARG_OPEN) && Clash(m, ARG_TAG) && Clash(m, SEP)
  {
  }

  lemma {:induction false} PastArgClose(rest: string, m: string)
    requires Outer(m)
    ensures Find(ARG_CLOSE + rest, m) == Later(Find(rest, m), |ARG_CLOSE|)
  {
    hide *;
    OuterFacts(m);
    Marks();
    assert (ARG_TAG + SEP) + rest == ARG_TAG + (SEP + rest);
    SkipMark(ARG_TAG, SEP + rest, m);
    SkipMark(SEP, rest, m);
    LaterTwice(Find(rest, m), |SEP|, |ARG_TAG|);
  }

  lemma {:induction false} TypeIsPlain(v: Value)
    ensures '<' !in XtmlType(v) && '"' !in XtmlType(v)
  {
  }

  lemma {:induction false} PastValue(v: string, rest: string, m: string)
    requires Outer(m) && Free(v, m)
    ensures Find(TYPE_END + (v + (ARG_CLOSE + rest)), m) == Later(Find(rest, m), |TYPE_END| + |v| + |ARG_CLOSE|)
  {
    hide *;
    OuterFacts(m);
    Marks();
    PastArgClose(rest, m);
    FindPast(v, ARG_CLOSE, rest, m);
    LaterTwice(Find(rest, m), |ARG_CLOSE|, |v|);
    var tail := v + (ARG_CLOSE + rest);
    assert ("\"" + SEP) + tail == "\"" + (SEP + tail);
    SkipMark(SEP, tail, m);
    LaterTwice(Find(rest, m), |ARG_CLOSE| + |v|, |SEP|);
    FindSkips("\"", SEP + tail, m);
    LaterTwice(Find(rest, m), |ARG_CLOSE| + |v| + |SEP|, 1);
  }

  lemma {:induction false} KeyUnfold(j: Json, a: Arg, rest: string)
    ensures AfterKey(j, a, rest) == TYPE + (XtmlType(a.value) + AfterKind(j, a, rest))
    ensures AfterKind(j, a, rest) == TYPE_END + (XtmlValue(j, a.value) + (ARG_CLOSE + rest))
    ensures RawOf(j, a) == RawArg(Escape(a.key), XtmlType(a.value), XtmlValue(j, a.value))
  {
  }

  lemma {:induction false} PastKey(j: Json, a: Arg, rest: string, m: string)
    requires Outer(m) && Free(Escape(a.key), m) && Free(XtmlValue(j, a.value), m)
    ensures Find(Escape(a.key) + AfterKey(j, a, rest), m) == Later(Find(rest, m),
      |Escape(a.key)| + |TYPE| + |XtmlType(a.value)| + |TYPE_END| + |XtmlValue(j, a.value)| + |ARG_CLOSE|)
  {
    hide *;
    OuterFacts(m);
    Marks();
    KeyUnfold(j, a, rest);
    var v, t, k := XtmlValue(j, a.value), XtmlType(a.value), Escape(a.key);
    var n := |TYPE_END| + |v| + |ARG_CLOSE|;
    PastValue(v, rest, m);
    TypeIsPlain(a.value);
    FindSkips(t, AfterKind(j, a, rest), m);
    LaterTwice(Find(rest, m), n, |t|);
    FindSkips(TYPE, t + AfterKind(j, a, rest), m);
    LaterTwice(Find(rest, m), n + |t|, |TYPE|);
    FindPast(k, TYPE, t + AfterKind(j, a, rest), m);
    LaterTwice(Find(rest, m), n + |t| + |TYPE|, |k|);
  }

  lemma {:induction false} PastArg(j: Json, a: Arg, rest: string, m: string)
    requires Outer(m) && Free(Escape(a.key), m) && Free(XtmlValue(j, a.value), m)
    ensures Find(ArgText(j, a) + rest, m) == Later(Find(rest, m), |ArgText(j, a)|)
  {
    hide *;
    OuterFacts(m);
    Marks();
    ArgThen(j, a, rest);
    PastKey(j, a, rest, m);
    SkipMark(ARG_OPEN, Escape(a.key) + AfterKey(j, a, rest), m);
    LaterTwice(Find(rest, m), |ArgText(j, a)| - |ARG_OPEN|, |ARG_OPEN|);
  }

  lemma {:induction false} PastArgs(j: Json, args: seq<Arg>, rest: string, m: string)
    requires Outer(m) && (m == CALL_CLOSE || m == JSON_OPEN) && PlainArgs(j, args)
    ensures Find(ArgTexts(j, args) + rest, m) == Later(Find(rest, m), |ArgTexts(j, args)|)
  {
    hide Find, PlainArg, ArgText, Outer, CALL_CLOSE, JSON_OPEN;
    if args == [] {
      assert "" + rest == rest;
    } else {
      var more := ArgTexts(j, args[1..]);
      assert (ArgText(j, args[0]) + more) + rest == ArgText(j, args[0]) + (more + rest);
      PlainArgFacts(j, args[0]);
      PastArg(j, args[0], more + rest, m);
      PastArgs(j, args[1..], rest, m);
    }
  }

  // ------------------------------------------------------------- reading the arguments

  lemma {:induction false} UntilIs(a: string, m: string, rest: string)
    requires Find(a + (m + rest), m) == Some(|a|)
    ensures Until(a + (m + rest), m) == Some(Cut(a, rest))
  {
    hide Find;
    var s := a + (m + rest);
    assert s[..|a|] == a && s[|a| + |m|..] == rest;
  }

  lemma {:induction false} UntilHere(m: string, rest: string)
    requires m != ""
    ensures Find(m + rest, m) == Some(0) && Until(m + rest, m) == Some(Cut("", rest))
  {
    assert m <= m + rest;
    assert "" + (m + rest) == m + rest;
    UntilIs("", m, rest);
  }

  // A text without the first character of m ends where m first comes.
  lemma {:induction false} UntilPlain(a: string, m: string, rest: string)
    requires m != "" && m[0] !in a
    ensures Until(a + (m + rest), m) == Some(Cut(a, rest))
  {
    assert m <= m + rest && Find(m + rest, m) == Some(0);
    hide Find;
    FindSkips(a, m + rest, m);
    UntilIs(a, m, rest);
  }

  lemma {:induction false} UntilGuarded(a: string, m: string, rest: string)
    requires m != "" && Guarded(m, m) && Free(a, m)
    ensures Until(a + (m + rest), m) == Some(Cut(a, rest))
  {
    hide Find, Guarded;
    FindAfter(a, m, rest);
    UntilIs(a, m, rest);
  }

  lemma {:induction false} Quotes()
    ensures TYPE != "" && TYPE[0] == '"' && TYPE_END != "" && TYPE_END[0] == '"' && ARG_OPEN != "" && ARG_CLOSE != ""
    ensures CALL_OPEN != "" && JSON_OPEN != "" && JSON_CLOSE != "" && CALL_CLOSE != ""
  {
  }

  lemma {:induction false} NoQuoteInKey(k: string)
    ensures '"' !in Escape(k)
  {
    NoQuoteLeft(Replace(k, "&", "&amp;"));
  }

  function RawOf(j: Json, a: Arg): RawArg {
    RawArg(Escape(a.key), XtmlType(a.value), XtmlValue(j, a.value))
  }

  lemma {:induction false} FindArgsStep(s: string, t: string, k: Cut, kind: Cut, text: Cut)
    requires Until(s, ARG_OPEN) == Some(Cut("", t))
    requires Until(t, TYPE) == Some(k) && Until(k.rest, TYPE_END) == Some(kind) && Until(kind.rest, ARG_CLOSE) == Some(text)
    ensures FindArgs(s) == [RawArg(k.inner, kind.inner, text.inner)] + FindArgs(text.rest)
  {
    hide Until;
  }

  lemma {:induction false} FindArgsCons(j: Json, a: Arg, rest: string)
    requires Free(XtmlValue(j, a.value), ARG_CLOSE)
    ensures FindArgs(ArgText(j, a) + rest) == [RawOf(j, a)] + FindArgs(rest)
  {
    hide *;
    Quotes();
    ArgThen(j, a, rest);
    KeyUnfold(j, a, rest);
    UntilHere(ARG_OPEN, Escape(a.key) + AfterKey(j, a, rest));
    NoQuoteInKey(a.key);
    UntilPlain(Escape(a.key), TYPE, XtmlType(a.value) + AfterKind(j, a, rest));
    TypeIsPlain(a.value);
    UntilPlain(XtmlType(a.value), TYPE_END, XtmlValue(j, a.value) + (ARG_CLOSE + rest));
    MarkersGuarded();
    UntilGuarded(XtmlValue(j, a.value), ARG_CLOSE, rest);
    FindArgsStep(ArgText(j, a) + rest, Escape(a.key) + AfterKey(j, a, rest),
      Cut(Escape(a.key), XtmlType(a.value) + AfterKind(j, a, rest)),
      Cut(XtmlType(a.value), XtmlValue(j, a.value) + (ARG_CLOSE + rest)), Cut(XtmlValue(j, a.value), rest));
  }

  lemma {:induction false} NoArgs()
    ensures FindArgs("") == []
  {
    Quotes();
    hide ARG_OPEN;
  }

  lemma {:induction false} AssignNew(args: seq<Arg>, a: Arg)
    requires a.key !in Names(args)
    ensures Assign(args, a) == args + [a] && Names(args + [a]) == Names(args) + {a.key}
  {
    if args == [] {
      assert [] + [a] == [a] && [a][1..] == [];
    } else {
      AssignNew(args[1..], a);
      assert args + [a] == [args[0]] + (args[1..] + [a]);
      assert (args + [a])[1..] == args[1..] + [a];
    }
  }

  // A key that comes again keeps its place and takes the new value.
  lemma {:induction false} AssignAgain(args: seq<Arg>, a: Arg, i: nat)
    requires i < |args| && args[i].key == a.key && forall k :: 0 <= k < i ==> args[k].key != a.key
    ensures Assign(args, a) == args[i := a]
  {
    if i > 0 {
      AssignAgain(args[1..], a, i - 1);
      assert args == [args[0]] + args[1..];
    }
  }

  // A text that is no JSON stays a text, whatever type it is said to have; a null is one
  // whatever its text.
  lemma {:induction false} UnreadableStaysText(j: Json, a: RawArg)
    requires j.parse(a.text).None?
    ensures ReadValue(j, a) == if a.kind == "null" then Null else Str(a.text)
  {
  }

  lemma {:induction false} ValueComesBack(j: Json, a: Arg)
    requires Faithful(j)
    ensures Arg(Unescape(RawOf(j, a).key), ReadValue(j, RawOf(j, a))) == a
  {
    hide Escape, Unescape;
    UnescapeEscape(a.key);
  }

  lemma {:induction false} ReadArgsStep(j: Json, done: seq<Arg>, r: RawArg, raw: seq<RawArg>)
    ensures ReadArgs(j, done, [r] + raw) == ReadArgs(j, Assign(done, Arg(Unescape(r.key), ReadValue(j, r))), raw)
  {
    assert ([r] + raw)[1..] == raw;
  }

  lemma {:induction false} PlainArgsFacts(j: Json, args: seq<Arg>)
    requires PlainArgs(j, args) && args != []
    ensures PlainArg(j, args[0]) && PlainArgs(j, args[1..]) && args[0].key !in Names(args[1..])
    ensures Names(args) == {args[0].key} + Names(args[1..])
    ensures ArgTexts(j, args) == ArgText(j, args[0]) + ArgTexts(j, args[1..])
  {
    hide ArgText, PlainArg;
  }

  lemma {:induction false} NothingRead(j: Json, done: seq<Arg>)
    ensures ArgTexts(j, []) == "" && ReadArgs(j, done, []) == done
  {
  }

  // The arguments come back: keys, values and order.
  lemma {:induction false} ArgsComeBack(j: Json, done: seq<Arg>, args: seq<Arg>)
    requires Faithful(j) && PlainArgs(j, args) && Names(done) !! Names(args)
    ensures ReadArgs(j, done, FindArgs(ArgTexts(j, args))) == done + args
    decreases |args|
  {
    hide *;
    if args == [] {
      NoArgs();
      NothingRead(j, done);
      assert done + args == done;
    } else {
      var a := args[0];
      PlainArgsFacts(j, args);
      PlainArgFacts(j, a);
      FindArgsCons(j, a, ArgTexts(j, args[1..]));
      ValueComesBack(j, a);
      AssignNew(done, a);
      ReadArgsStep(j, done, RawOf(j, a), FindArgs(ArgTexts(j, args[1..])));
      ArgsComeBack(j, done + [a], args[1..]);
      assert (done + [a]) + args[1..] == done + args;
    }
  }

  // The word that tells the type of a value.
  predicate Typed(v: Value, word: string) {
    match v
    case Null => word == "null"
    case Str(_) => word == "string"
    case Other(kind, _) =>
      match kind
      case Boolean => word == "boolean"
      case Number => word == "number"
      case Object => word == "object"
      case Array => word == "array"
  }

  lemma {:induction false} WordOf(j: Json, a: Arg)
    ensures Typed(a.value, RawOf(j, a).kind) && Unescape(RawOf(j, a).key) == a.key
    ensures RawOf(j, a).text == if a.value.Str? then a.value.s else j.dumps(a.value)
  {
    hide Escape, Unescape;
    UnescapeEscape(a.key);
  }

  // What stands in the text for the arguments of a call, in order: the key, the word for the
  // type, and the string itself or the JSON text of any other value.
  lemma {:induction false} ArgsAsWritten(j: Json, args: seq<Arg>)
    requires PlainArgs(j, args)
    ensures var raw := FindArgs(Body(j, Named(args)));
      && |raw| == |args|
      && forall i :: 0 <= i < |args| ==>
           && Unescape(raw[i].key) == args[i].key
           && Typed(args[i].value, raw[i].kind)
           && raw[i].text == if args[i].value.Str? then args[i].value.s else j.dumps(args[i].value)
    decreases |args|
  {
    hide Unescape, FindArgs, PlainArgs, Typed, RawOf, ArgTexts;
    BodyOfNamed(j, args);
    if args == [] {
      NoArgs();
      NothingRead(j, []);
    } else {
      PlainArgsFacts(j, args);
      PlainArgFacts(j, args[0]);
      FindArgsCons(j, args[0], ArgTexts(j, args[1..]));
      WordOf(j, args[0]);
      BodyOfNamed(j, args[1..]);
      ArgsAsWritten(j, args[1..]);
    }
  }

  // The text of an argument, and of a raw block, word for word.
  lemma {:induction false} ArgSpelled(j: Json, a: Arg) returns (word: string)
    ensures Typed(a.value, word)
    ensures var text := if a.value.Str? then a.value.s else j.dumps(a.value);
      ArgText(j, a) == "<|open|>argument key=\"" + (Escape(a.key) + ("\" type=\"" + (word + ("\"<|sep|>" +
        (text + "<|close|>argument<|sep|>")))))
  {
    hide Escape;
    word := XtmlType(a.value);
  }

  lemma {:induction false} RawSpelled(j: Json, v: Value)
    ensures var text := if v.Str? then v.s else j.dumps(v);
      Body(j, Raw(v)) == "<|open|>json type=\"object\"<|sep|>" + (text + "<|close|>json<|sep|>")
  {
  }

  lemma {:induction false} BodyOfNamed(j: Json, args: seq<Arg>)
    ensures Body(j, Named(args)) == ArgTexts(j, args)
  {
  }

  // ---------------------------------------------------------------- reading a body

  const JSON_HEAD := "<|open|>json type=\"object\""
  const JSON_TAIL := "<|close|>json"

  lemma {:induction false} JsonMarks()
    ensures OneMark(JSON_HEAD) && OneMark(JSON_TAIL) && OneMark(SEP)
    ensures JSON_OPEN == JSON_HEAD + SEP && JSON_CLOSE == JSON_TAIL + SEP
    ensures Clash(CALL_CLOSE, JSON_HEAD) && Clash(CALL_CLOSE, JSON_TAIL)
  {
    hide OneMark, Clash;
    IsOneMark(JSON_HEAD);
    IsOneMark(JSON_TAIL);
    IsOneMark(SEP);
    ClashAt(CALL_CLOSE, JSON_HEAD, 2);
    ClashAt(CALL_CLOSE, JSON_TAIL, 9);
  }

  // What the codec can carry in a body.
  predicate PlainBody(j: Json, a: Arguments) {
    match a
    case Named(args) => PlainArgs(j, args)
    case Raw(v) => Unmarked(XtmlValue(j, v)) && ReadRaw(j, v)
  }

  // A bare value that is read as itself: no null, and a string only if it is trimmed and
  // neither JSON nor a Python literal.
  predicate ReadRaw(j: Json, v: Value) {
    match v
    case Null => false
    case Str(s) => j.parse(s) == None && Trimmed(s)
    case Other(_, _) => true
  }

  lemma {:induction false} PastRaw(v: string, rest: string)
    requires Free(v, CALL_CLOSE)
    ensures Find(JSON_OPEN + (v + (JSON_CLOSE + rest)), CALL_CLOSE) ==
      Later(Find(rest, CALL_CLOSE), |JSON_OPEN| + |v| + |JSON_CLOSE|)
  {
    hide *;
    CloseIsOuter();
    OuterFacts(CALL_CLOSE);
    MarkersGuarded();
    JsonMarks();
    var m := CALL_CLOSE;
    assert (JSON_TAIL + SEP) + rest == JSON_TAIL + (SEP + rest);
    SkipMark(SEP, rest, m);
    SkipMark(JSON_TAIL, SEP + rest, m);
    LaterTwice(Find(rest, m), |SEP|, |JSON_TAIL|);
    FindPast(v, JSON_CLOSE, rest, m);
    LaterTwice(Find(rest, m), |JSON_CLOSE|, |v|);
    var tail := v + (JSON_CLOSE + rest);
    assert (JSON_HEAD + SEP) + tail == JSON_HEAD + (SEP + tail);
    SkipMark(SEP, tail, m);
    LaterTwice(Find(rest, m), |JSON_CLOSE| + |v|, |SEP|);
    SkipMark(JSON_HEAD, SEP + tail, m);
    LaterTwice(Find(rest, m), |JSON_CLOSE| + |v| + |SEP|, |JSON_HEAD|);
  }

  lemma {:induction false} UnmarkedRaw(j: Json, v: Value)
    requires PlainBody(j, Raw(v))
    ensures Free(XtmlValue(j, v), CALL_CLOSE) && Free(XtmlValue(j, v), JSON_CLOSE)
  {
    hide Free, XtmlValue;
    UnmarkedFacts(XtmlValue(j, v));
  }

  // The body of a call ends at its own closing text.
  lemma {:induction false} BodyEnds(j: Json, a: Arguments, rest: string)
    requires PlainBody(j, a)
    ensures Until(Body(j, a) + (CALL_CLOSE + rest), CALL_CLOSE) == Some(Cut(Body(j, a), rest))
  {
    hide Find, PlainArgs, ArgTexts, XtmlValue, Outer, Unmarked, ReadRaw, CALL_CLOSE, JSON_OPEN, JSON_CLOSE, Until;
    var tail := CALL_CLOSE + rest;
    CloseIsOuter();
    Quotes();
    UntilHere(CALL_CLOSE, rest);
    match a {
      case Named(args) =>
        PastArgs(j, args, tail, CALL_CLOSE);
      case Raw(v) =>
        UnmarkedRaw(j, v);
        var x := XtmlValue(j, v);
        assert (JSON_OPEN + (x + JSON_CLOSE)) + tail == JSON_OPEN + (x + (JSON_CLOSE + tail));
        PastRaw(x, tail);
    }
    UntilIs(Body(j, a), CALL_CLOSE, rest);
  }

  // Named arguments hold no raw block, and a raw block is found whole.
  lemma {:induction false} BodyKind(j: Json, a: Arguments)
    requires PlainBody(j, a)
    ensures FindJson(Body(j, a)) == if a.Raw? then Some(XtmlValue(j, a.value)) else None
  {
    hide Find, PlainArgs, ArgTexts, XtmlValue, Outer, Unmarked, ReadRaw, CALL_CLOSE, JSON_OPEN, JSON_CLOSE;
    Quotes();
    match a
    case Named(args) =>
      JsonIsOuter();
      PastArgs(j, args, "", JSON_OPEN);
      NothingFound(JSON_OPEN);
      assert ArgTexts(j, args) + "" == ArgTexts(j, args);
    case Raw(v) =>
      UnmarkedRaw(j, v);
      var x := XtmlValue(j, v);
      UntilHere(JSON_OPEN, x + JSON_CLOSE);
      MarkersGuarded();
      assert JSON_CLOSE + "" == JSON_CLOSE;
      UntilGuarded(x, JSON_CLOSE, "");
  }

  lemma {:induction false} NothingFound(m: string)
    requires m != ""
    ensures Find("", m) == None
  {
  }

  lemma {:induction false} CallComesBack(j: Json, c: Call)
    requires Faithful(j) && PlainBody(j, c.arguments) && Trimmed(c.name)
    ensures ReadCall(j, RawCall(Escape(c.name), Body(j, c.arguments))) == c
  {
    BodyKind(j, c.arguments);
    TrimmedStays(c.name);
    hide Escape, Unescape, FindJson, FindArgs, ReadArgs, PlainArgs, Strip, Unmarked, Body;
    UnescapeEscape(c.name);
    match c.arguments
    case Named(args) =>
      assert Body(j, Named(args)) == ArgTexts(j, args);
      assert Names([]) == {};
      ArgsComeBack(j, [], args);
      assert [] + args == args;
    case Raw(v) =>
      if v.Str? {
        TrimmedStays(v.s);
      }
  }

  // ------------------------------------------------------------------- reading the calls

  lemma {:induction false} DigitRunOver(digit: char -> bool, d: string, rest: string)
    requires DigitClass(digit) && Digits(d) && rest != "" && rest[0] == '"'
    ensures DigitRun(digit, d + rest) == |d|
  {
    if d == "" {
      assert d + rest == rest;
    } else {
      assert (d + rest)[1..] == d[1..] + rest;
      DigitRunOver(digit, d[1..], rest);
    }
  }

  lemma {:induction false} TailIs(digit: char -> bool, d: string, rest: string)
    requires DigitClass(digit) && d != "" && Digits(d)
    ensures HeaderTail(digit, INDEX + (d + (TYPE_END + rest))) == Some(rest)
  {
    Quotes();
    hide INDEX, TYPE_END, SEP, DigitClass;
    var s, t := INDEX + (d + (TYPE_END + rest)), d + (TYPE_END + rest);
    assert INDEX <= s && s[|INDEX|..] == t;
    DigitRunOver(digit, d, TYPE_END + rest);
    assert t[|d|..] == TYPE_END + rest && t[|d| + |TYPE_END|..] == rest;
  }

  // A header ends at the first quote.
  lemma {:induction false} HeaderIs(digit: char -> bool, name: string, tail: string, rest: string)
    requires '"' !in name && HeaderTail(digit, tail) == Some(rest)
    ensures Header(digit, name + ("\"" + tail)) == Some((name, rest))
  {
    hide HeaderTail;
    var s := name + ("\"" + tail);
    if name == "" {
      assert s == "\"" + tail && s[1..] == tail;
    } else {
      assert s[0] == name[0] && name[0] in name && s[1..] == name[1..] + ("\"" + tail);
      HeaderIs(digit, name[1..], tail, rest);
      assert [name[0]] + name[1..] == name;
    }
  }

  lemma {:induction false} CallThen(j: Json, c: Call, index: nat, rest: string)
    ensures CallText(j, c, index) + rest ==
      CALL_OPEN + (Escape(c.name) + ("\"" + (INDEX + (Decimal(index) + (TYPE_END + (Body(j, c.arguments) + (CALL_CLOSE + rest)))))))
  {
    hide Escape, Decimal, Body, CALL_OPEN, INDEX, TYPE_END, CALL_CLOSE;
    var name, d, body := Escape(c.name), Decimal(index), Body(j, c.arguments);
    assert (body + CALL_CLOSE) + rest == body + (CALL_CLOSE + rest);
    assert (TYPE_END + (body + CALL_CLOSE)) + rest == TYPE_END + (body + (CALL_CLOSE + rest));
    assert (d + (TYPE_END + (body + CALL_CLOSE))) + rest == d + (TYPE_END + (body + (CALL_CLOSE + rest)));
    var t := INDEX + (d + (TYPE_END + (body + CALL_CLOSE)));
    assert t + rest == INDEX + (d + (TYPE_END + (body + (CALL_CLOSE + rest))));
    assert (name + ("\"" + t)) + rest == name + ("\"" + (t + rest));
  }

  lemma {:induction false} FindCallsStep(digit: char -> bool, s: string, t: string, name: string, after: string, body: string,
                                         rest: string)
    requires Until(s, CALL_OPEN) == Some(Cut("", t)) && Header(digit, t) == Some((name, after))
    requires Until(after, CALL_CLOSE) == Some(Cut(body, rest))
    ensures FindCalls(digit, s) == [RawCall(name, body)] + FindCalls(digit, rest)
  {
    hide Until, Header;
  }

  lemma {:induction false} FindCallsCons(j: Json, digit: char -> bool, c: Call, index: nat, rest: string)
    requires DigitClass(digit) && PlainBody(j, c.arguments)
    ensures FindCalls(digit, CallText(j, c, index) + rest) ==
      [RawCall(Escape(c.name), Body(j, c.arguments))] + FindCalls(digit, rest)
  {
    hide *;
    Quotes();
    CallThen(j, c, index, rest);
    var after := Body(j, c.arguments) + (CALL_CLOSE + rest);
    var tail := INDEX + (Decimal(index) + (TYPE_END + after));
    UntilHere(CALL_OPEN, Escape(c.name) + ("\"" + tail));
    TailIs(digit, Decimal(index), after);
    NoQuoteInKey(c.name);
    HeaderIs(digit, Escape(c.name), tail, after);
    BodyEnds(j, c.arguments, rest);
    FindCallsStep(digit, CallText(j, c, index) + rest, Escape(c.name) + ("\"" + tail), Escape(c.name), after,
      Body(j, c.arguments), rest);
  }

  // The index may be missing from the header.
  lemma {:induction false} PlainHeaderIsRead(j: Json, digit: char -> bool, name: string, a: Arguments, rest: string)
    requires '"' !in name && PlainBody(j, a)
    ensures FindCalls(digit, "<|open|>call tool=\"" + (name + ("\"" + ("<|sep|>" + (Body(j, a) + ("<|close|>call<|sep|>" + rest)))))) ==
      [RawCall(name, Body(j, a))] + FindCalls(digit, rest)
  {
    var after := Body(j, a) + (CALL_CLOSE + rest);
    assert CALL_OPEN == "<|open|>call tool=\"" && CALL_CLOSE == "<|close|>call<|sep|>" && SEP == "<|sep|>";
    NoIndex(digit, after);
    hide *;
    Quotes();
    UntilHere(CALL_OPEN, name + ("\"" + (SEP + after)));
    HeaderIs(digit, name, SEP + after, after);
    BodyEnds(j, a, rest);
    FindCallsStep(digit, CALL_OPEN + (name + ("\"" + (SEP + after))), name + ("\"" + (SEP + after)), name, after, Body(j, a), rest);
  }

  lemma {:induction false} NoIndex(digit: char -> bool, rest: string)
    ensures HeaderTail(digit, SEP + rest) == Some(rest)
  {
    var s := SEP + rest;
    assert s[0] != INDEX[0] && s[|SEP|..] == rest;
  }

  function NumberedHeader(name: string, index: nat): string {
    CALL_OPEN + (Escape(name) + ("\"" + (INDEX + (Decimal(index) + TYPE_END))))
  }

  lemma {:induction false} HeaderThen(j: Json, c: Call, index: nat, rest: string)
    ensures CallText(j, c, index) + rest == NumberedHeader(c.name, index) + (Body(j, c.arguments) + (CALL_CLOSE + rest))
  {
    CallThen(j, c, index, rest);
    hide CALL_OPEN, INDEX, TYPE_END, CALL_CLOSE, Escape, Decimal, Body, CallText;
    var n, d, more := Escape(c.name), Decimal(index), Body(j, c.arguments) + (CALL_CLOSE + rest);
    Associate(d, TYPE_END, more);
    Associate(INDEX, d + TYPE_END, more);
    Associate("\"", INDEX + (d + TYPE_END), more);
    Associate(n, "\"" + (INDEX + (d + TYPE_END)), more);
    Associate(CALL_OPEN, n + ("\"" + (INDEX + (d + TYPE_END))), more);
  }

  lemma {:induction false} CallsAreNumbered(j: Json, calls: seq<Call>, first: nat, i: nat)
    requires i < |calls|
    ensures CallTexts(j, calls, first) == CallTexts(j, calls[..i], first) +
      (NumberedHeader(calls[i].name, first + i) +
        (Body(j, calls[i].arguments) + (CALL_CLOSE + CallTexts(j, calls[i + 1..], first + i + 1))))
    decreases i
  {
    hide NumberedHeader, Body, CallText, CALL_CLOSE;
    if i == 0 {
      HeaderThen(j, calls[0], first, CallTexts(j, calls[1..], first + 1));
      assert calls[..0] == [] && CallTexts(j, [], first) == "";
    } else {
      CallsAreNumbered(j, calls[1..], first + 1, i - 1);
      assert calls[1..][..i - 1] == calls[..i][1..] && calls[1..][i..] == calls[i + 1..] && calls[1..][i - 1] == calls[i];
      var a, b := CallText(j, calls[0], first), CallTexts(j, calls[1..][..i - 1], first + 1);
      assert CallTexts(j, calls[..i], first) == a + b;
      Associate(a, b, NumberedHeader(calls[i].name, first + i) +
        (Body(j, calls[i].arguments) + (CALL_CLOSE + CallTexts(j, calls[i + 1..], first + i + 1))));
    }
  }

  lemma {:induction false} MarkersSpelled()
    ensures CALL_OPEN == "<|open|>call tool=\"" && INDEX == " index=\"" && TYPE_END == "\"<|sep|>"
    ensures CALL_CLOSE == "<|close|>call<|sep|>"
    ensures TOOLS_OPEN == "<|open|>tools<|sep|>" && TOOLS_CLOSE == "<|close|>tools<|sep|>"
  {
  }

  // In the formatted text call i has the number i + 1, between the calls before and after it.
  lemma {:induction false} FormattedCalls(j: Json, calls: seq<Call>, i: nat)
    requires i < |calls|
    ensures var header := "<|open|>call tool=\"" + (Escape(calls[i].name) + ("\"" + (" index=\"" + (Decimal(i + 1) + "\"<|sep|>"))));
      FormatToolCalls(j, calls) == "<|open|>tools<|sep|>" + ((CallTexts(j, calls[..i], 1) +
        (header + (Body(j, calls[i].arguments) + ("<|close|>call<|sep|>" + CallTexts(j, calls[i + 1..], i + 2)))))
        + "<|close|>tools<|sep|>")
  {
    MarkersSpelled();
    hide CallTexts, Escape, Decimal, Body, CALL_OPEN, INDEX, TYPE_END, CALL_CLOSE, TOOLS_OPEN, TOOLS_CLOSE;
    CallsAreNumbered(j, calls, 1, i);
  }

  const TOOLS_HEAD := "<|open|>tools"
  const TOOLS_TAIL := "<|close|>tools"

  lemma {:induction false} ToolsMarks()
    ensures OneMark(TOOLS_HEAD) && OneMark(TOOLS_TAIL) && OneMark(SEP)
    ensures TOOLS_OPEN == TOOLS_HEAD + SEP && TOOLS_CLOSE == TOOLS_TAIL + SEP
    ensures CALL_OPEN != "" && CALL_OPEN[0] == '<'
    ensures Clash(CALL_OPEN, TOOLS_HEAD) && Clash(CALL_OPEN, TOOLS_TAIL) && Clash(CALL_OPEN, SEP)
  {
    hide OneMark, Clash;
    IsOneMark(TOOLS_HEAD);
    IsOneMark(TOOLS_TAIL);
    IsOneMark(SEP);
    ClashAt(CALL_OPEN, TOOLS_HEAD, 8);
    ClashAt(CALL_OPEN, TOOLS_TAIL, 2);
    ClashAt(CALL_OPEN, SEP, 2);
  }

  lemma {:induction false} FindCallsSkip(digit: char -> bool, p: string, x: string)
    requires Find(p + x, CALL_OPEN) == Later(Find(x, CALL_OPEN), |p|)
    ensures FindCalls(digit, p + x) == FindCalls(digit, x)
  {
    hide Find, Header, CALL_OPEN, CALL_CLOSE;
    var found := Find(x, CALL_OPEN);
    if found.Some? {
      assert (p + x)[|p| + found.value + |CALL_OPEN|..] == x[found.value + |CALL_OPEN|..];
    }
  }

  lemma {:induction false} AroundCalls(digit: char -> bool, x: string)
    ensures FindCalls(digit, TOOLS_OPEN + x) == FindCalls(digit, x)
    ensures FindCalls(digit, TOOLS_CLOSE) == []
  {
    ToolsEnd(digit);
    hide *;
    ToolsMarks();
    assert (TOOLS_HEAD + SEP) + x == TOOLS_HEAD + (SEP + x);
    SkipMark(SEP, x, CALL_OPEN);
    SkipMark(TOOLS_HEAD, SEP + x, CALL_OPEN);
    LaterTwice(Find(x, CALL_OPEN), |SEP|, |TOOLS_HEAD|);
    FindCallsSkip(digit, TOOLS_OPEN, x);
  }

  lemma {:induction false} ToolsEnd(digit: char -> bool)
    ensures FindCalls(digit, TOOLS_CLOSE) == []
  {
    ToolsMarks();
    hide Find, Header, OneMark, Clash, TOOLS_TAIL, CALL_OPEN, CALL_CLOSE, TOOLS_CLOSE, SEP;
    assert TOOLS_TAIL + (SEP + "") == TOOLS_CLOSE;
    SkipMark(SEP, "", CALL_OPEN);
    SkipMark(TOOLS_TAIL, SEP + "", CALL_OPEN);
    NothingFound(CALL_OPEN);
  }

  predicate PlainCall(j: Json, c: Call) {
    Trimmed(c.name) && PlainBody(j, c.arguments)
  }

  lemma {:induction false} CallsComeBack(j: Json, digit: char -> bool, calls: seq<Call>, index: nat)
    requires Faithful(j) && DigitClass(digit) && forall i :: 0 <= i < |calls| ==> PlainCall(j, calls[i])
    ensures ReadCalls(j, FindCalls(digit, CallTexts(j, calls, index) + TOOLS_CLOSE)) == calls
  {
    hide FindCalls, ReadCall, Body, Escape, CallText, Faithful, DigitClass, PlainBody, TOOLS_CLOSE;
    if calls == [] {
      AroundCalls(digit, "");
      assert "" + TOOLS_CLOSE == TOOLS_CLOSE;
    } else {
      var c, rest := calls[0], CallTexts(j, calls[1..], index + 1) + TOOLS_CLOSE;
      assert PlainCall(j, c);
      assert CallTexts(j, calls, index) + TOOLS_CLOSE == CallText(j, c, index) + rest;
      FindCallsCons(j, digit, c, index, rest);
      CallComesBack(j, c);
      CallsComeBack(j, digit, calls[1..], index + 1);
      var raw := FindCalls(digit, rest);
      assert ([RawCall(Escape(c.name), Body(j, c.arguments))] + raw)[1..] == raw;
      assert calls == [c] + calls[1..];
    }
  }

  // Formatted calls are read back: names, argument keys, typed values and order, for trimmed
  // names and for payloads that hold no opening or closing marker.
  lemma {:induction false} ToolCallsComeBack(j: Json, digit: char -> bool, calls: seq<Call>)
    requires Faithful(j) && DigitClass(digit) && forall i :: 0 <= i < |calls| ==> PlainCall(j, calls[i])
    ensures GetToolcall(j, digit, FormatToolCalls(j, calls)) == calls
  {
    hide FindCalls, ReadCalls, CallTexts, TOOLS_OPEN, TOOLS_CLOSE;
    AroundCalls(digit, CallTexts(j, calls, 1) + TOOLS_CLOSE);
    CallsComeBack(j, digit, calls, 1);
  }
}
