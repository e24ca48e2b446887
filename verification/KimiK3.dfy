// The XTML tool-call codec of swift/agent_template/kimi_k3.py: attribute escaping,
// _format_tool_calls and get_toolcall.
module KimiK3 {
  import opened Decimals
  import opened Options
  import opened Searching
  import opened Substrings

  // ------------------------------------------------------------------- attribute values

  // str.replace
  function Replace(s: string, was: string, now: string): string
    requires was != ""
    decreases |s|
  {
    if s == "" then ""
    else if was <= s then now + Replace(s[|was|..], was, now)
    else [s[0]] + Replace(s[1..], was, now)
  }

  // _escape_attr and _unescape_attr
  function Escape(s: string): string {
    Replace(Replace(s, "&", "&amp;"), "\"", "&quot;")
  }

  function Unescape(s: string): string {
    Replace(Replace(s, "&quot;", "\""), "&amp;", "&")
  }

  lemma {:induction false} ReplaceStep(c: char, s: string, was: string, now: string)
    requires was != "" && c != was[0]
    ensures Replace([c] + s, was, now) == [c] + Replace(s, was, now)
  {
    assert ([c] + s)[1..] == s;
  }

  lemma {:induction false} ReplaceHere(s: string, was: string, now: string)
    requires was != ""
    ensures Replace(was + s, was, now) == now + Replace(s, was, now)
  {
    assert (was + s)[|was|..] == s;
  }

  lemma {:induction false} ReplaceSkips(w: string, s: string, was: string, now: string)
    requires was != "" && was[0] !in w
    ensures Replace(w + s, was, now) == w + Replace(s, was, now)
  {
    if w == "" {
      assert w + s == s;
    } else {
      assert w + s == [w[0]] + (w[1..] + s) && w[0] in w;
      ReplaceStep(w[0], w[1..] + s, was, now);
      ReplaceSkips(w[1..], s, was, now);
      assert [w[0]] + (w[1..] + Replace(s, was, now)) == w + Replace(s, was, now);
    }
  }

  // The first replacement is undone by the last: the ampersands.
  lemma {:induction false} AmpersandsBack(s: string)
    ensures Replace(Replace(s, "&", "&amp;"), "&amp;", "&") == s
  {
    hide Replace;
    if s == "" {
      ReplaceNothing("&", "&amp;");
      ReplaceNothing("&amp;", "&");
    } else {
      AmpersandsBack(s[1..]);
      var rest := Replace(s[1..], "&", "&amp;");
      assert s == [s[0]] + s[1..];
      if s[0] == '&' {
        ReplaceHere(s[1..], "&", "&amp;");
        ReplaceHere(rest, "&amp;", "&");
      } else {
        ReplaceStep(s[0], s[1..], "&", "&amp;");
        ReplaceStep(s[0], rest, "&amp;", "&");
      }
    }
  }

  lemma {:induction false} ReplaceNothing(was: string, now: string)
    requires was != ""
    ensures Replace("", was, now) == ""
  {
  }

  // The second is undone by the third: the quotes, in a text whose ampersands are escaped.
  lemma {:induction false} QuotesBack(s: string)
    ensures var t := Replace(s, "&", "&amp;"); Replace(Replace(t, "\"", "&quot;"), "&quot;", "\"") == t
  {
    hide Replace;
    if s == "" {
      ReplaceNothing("&", "&amp;");
      ReplaceNothing("\"", "&quot;");
      ReplaceNothing("&quot;", "\"");
    } else {
      QuotesBack(s[1..]);
      var t := Replace(s[1..], "&", "&amp;");
      var u := Replace(t, "\"", "&quot;");
      assert s == [s[0]] + s[1..];
      if s[0] == '&' {
        ReplaceHere(s[1..], "&", "&amp;");
        ReplaceSkips("&amp;", t, "\"", "&quot;");
        AmpStays(u);
      } else {
        ReplaceStep(s[0], s[1..], "&", "&amp;");
        if s[0] == '"' {
          ReplaceHere(t, "\"", "&quot;");
          ReplaceHere(u, "&quot;", "\"");
        } else {
          ReplaceStep(s[0], t, "\"", "&quot;");
          ReplaceStep(s[0], u, "&quot;", "\"");
        }
      }
    }
  }

  lemma {:induction false} AmpStays(u: string)
    ensures Replace("&amp;" + u, "&quot;", "\"") == "&amp;" + Replace(u, "&quot;", "\"")
  {
    var s := "&amp;" + u;
    assert s[1] == 'a' && "&quot;"[1] == 'q';
    assert !("&quot;" <= s);
    assert s[1..] == "amp;" + u;
    hide Replace;
    ReplaceSkips("amp;", u, "&quot;", "\"");
    assert Replace(s, "&quot;", "\"") == [s[0]] + Replace(s[1..], "&quot;", "\"");
    assert "&" + ("amp;" + Replace(u, "&quot;", "\"")) == "&amp;" + Replace(u, "&quot;", "\"");
  }

  // Attribute escaping is invertible, on every string.
  lemma {:induction false} UnescapeEscape(s: string)
    ensures Unescape(Escape(s)) == s
  {
    hide Replace;
    QuotesBack(s);
    AmpersandsBack(s);
  }

  // Every character is escaped by itself.
  lemma {:induction false} EscapesEach(c: char, s: string)
    ensures Escape([c] + s) == (if c == '&' then "&amp;" else if c == '"' then "&quot;" else [c]) + Escape(s)
    ensures Escape("") == ""
  {
    hide Replace;
    ReplaceNothing("&", "&amp;");
    ReplaceNothing("\"", "&quot;");
    var rest := Replace(s, "&", "&amp;");
    if c == '&' {
      ReplaceHere(s, "&", "&amp;");
      ReplaceSkips("&amp;", rest, "\"", "&quot;");
    } else {
      ReplaceStep(c, s, "&", "&amp;");
      if c == '"' {
        ReplaceHere(rest, "\"", "&quot;");
      } else {
        ReplaceStep(c, rest, "\"", "&quot;");
      }
    }
  }

  // An escaped value cannot end its attribute.
  lemma {:induction false} NoQuoteLeft(t: string)
    ensures '"' !in Replace(t, "\"", "&quot;")
    decreases |t|
  {
    if t != "" {
      NoQuoteLeft(t[1..]);
      assert "\"" <= t <==> t[0] == '"';
      assert '"' !in "&quot;";
    }
  }

  // ----------------------------------------------------------------------- tool calls

  datatype Kind = Boolean | Number | Object | Array

  // A JSON value that is neither a string nor null is known by its type and an identity.
  datatype Value = Null | Str(s: string) | Other(kind: Kind, id: int)

  datatype Arg = Arg(key: string, value: Value)

  datatype Arguments = Named(args: seq<Arg>) | Raw(value: Value)

  datatype Call = Call(name: string, arguments: Arguments)

  // json.dumps, and _parse_json (None where it fails, and for null).
  datatype Json = Json(dumps: Value -> string, parse: string -> Option<Value>)

  // _xtml_type
  function XtmlType(v: Value): string {
    match v
    case Null => "null"
    case Str(_) => "string"
    case Other(Boolean, _) => "boolean"
    case Other(Number, _) => "number"
    case Other(Object, _) => "object"
    case Other(Array, _) => "array"
  }

  // _xtml_value
  function XtmlValue(j: Json, v: Value): string {
    if v.Str? then v.s else j.dumps(v)
  }

  const SEP := "<|sep|>"
  const CALL_OPEN := "<|open|>call tool=\""
  const INDEX := " index=\""
  const CALL_CLOSE := "<|close|>call<|sep|>"
  const ARG_OPEN := "<|open|>argument key=\""
  const TYPE := "\" type=\""
  const TYPE_END := "\"<|sep|>"
  const ARG_CLOSE := "<|close|>argument<|sep|>"
  const JSON_OPEN := "<|open|>json type=\"object\"<|sep|>"
  const JSON_CLOSE := "<|close|>json<|sep|>"

  function ArgText(j: Json, a: Arg): string {
    ARG_OPEN + (Escape(a.key) + (TYPE + (XtmlType(a.value) + (TYPE_END + (XtmlValue(j, a.value) + ARG_CLOSE)))))
  }

  function ArgTexts(j: Json, args: seq<Arg>): string {
    if args == [] then "" else ArgText(j, args[0]) + ArgTexts(j, args[1..])
  }

  function Body(j: Json, a: Arguments): string {
    match a
    case Named(args) => ArgTexts(j, args)
    case Raw(v) => JSON_OPEN + (XtmlValue(j, v) + JSON_CLOSE)
  }

  function CallText(j: Json, c: Call, index: nat): string {
    CALL_OPEN + (Escape(c.name) + ("\"" + (INDEX + (Decimal(index) + (TYPE_END + (Body(j, c.arguments) + CALL_CLOSE))))))
  }

  function CallTexts(j: Json, calls: seq<Call>, index: nat): string {
    if calls == [] then "" else CallText(j, calls[0], index) + CallTexts(j, calls[1..], index + 1)
  }

  const TOOLS_OPEN := "<|open|>tools<|sep|>"
  const TOOLS_CLOSE := "<|close|>tools<|sep|>"

  // _format_tool_calls
  function FormatToolCalls(j: Json, calls: seq<Call>): string {
    TOOLS_OPEN + (CallTexts(j, calls, 1) + TOOLS_CLOSE)
  }

  // -------------------------------------------------------------------------- parsing

  function DigitRun(digit: char -> bool, s: string): (n: nat)
    ensures n <= |s|
  {
    if s == "" || !digit(s[0]) then 0 else 1 + DigitRun(digit, s[1..])
  }

  // (?: index="\d+")?<|sep|> after the quote that ends the name: what follows it.
  function HeaderTail(digit: char -> bool, s: string): (r: Option<string>)
    ensures r.Some? ==> |r.value| < |s|
  {
    if INDEX <= s then
      var t := s[|INDEX|..];
      var n := DigitRun(digit, t);
      if n > 0 && TYPE_END <= t[n..] then Some(t[n + |TYPE_END|..]) else None
    else if SEP <= s then Some(s[|SEP|..])
    else None
  }

  // (.*?)" up to the first quote that a header can end with.
  function Header(digit: char -> bool, s: string): (r: Option<(string, string)>)
    ensures r.Some? ==> |r.value.1| < |s|
  {
    if s == "" then None
    else
      var tail := if s[0] == '"' then HeaderTail(digit, s[1..]) else None;
      if tail.Some? then Some(("", tail.value))
      else match Header(digit, s[1..])
        case None => None
        case Some((name, rest)) => Some(([s[0]] + name, rest))
  }

  datatype Cut = Cut(inner: string, rest: string)

  // (.*?) followed by the closing text
  function Until(s: string, close: string): (r: Option<Cut>)
    ensures r.Some? ==> |r.value.rest| <= |s|
  {
    match Find(s, close)
    case None => None
    case Some(i) => Some(Cut(s[..i], s[i + |close|..]))
  }

  datatype RawCall = RawCall(name: string, body: string)

  // re.findall(call_pattern, ...).  A failure at one opening leaves none further on, as each
  // part of the pattern takes the first place where it can.
  function FindCalls(digit: char -> bool, s: string): seq<RawCall>
    decreases |s|
  {
    match Until(s, CALL_OPEN)
    case None => []
    case Some(before) =>
      match Header(digit, before.rest)
      case None => []
      case Some((name, rest)) =>
        match Until(rest, CALL_CLOSE)
        case None => []
        case Some(body) => [RawCall(name, body.inner)] + FindCalls(digit, body.rest)
  }

  datatype RawArg = RawArg(key: string, kind: string, text: string)

  // re.findall(arg_pattern, ...)
  function FindArgs(s: string): seq<RawArg>
    decreases |s|
  {
    match Until(s, ARG_OPEN)
    case None => []
    case Some(before) =>
      match Until(before.rest, TYPE)
      case None => []
      case Some(key) =>
        match Until(key.rest, TYPE_END)
        case None => []
        case Some(kind) =>
          match Until(kind.rest, ARG_CLOSE)
          case None => []
          case Some(text) =>
            assert |text.rest| < |s|;
            [RawArg(key.inner, kind.inner, text.inner)] + FindArgs(text.rest)
  }

  // re.search(json_pattern, ...)
  function FindJson(s: string): Option<string> {
    match Until(s, JSON_OPEN)
    case None => None
    case Some(before) =>
      match Until(before.rest, JSON_CLOSE)
      case None => None
      case Some(text) => Some(text.inner)
  }

  function ReadValue(j: Json, a: RawArg): Value {
    if a.kind == "string" then Str(a.text)
    else if a.kind == "null" then Null
    else match j.parse(a.text)
      case None => Str(a.text)
      case Some(v) => v
  }

  // arguments[key] = value
  function Assign(args: seq<Arg>, a: Arg): seq<Arg> {
    if args == [] then [a]
    else if args[0].key == a.key then [a] + args[1..]
    else [args[0]] + Assign(args[1..], a)
  }

  function ReadArgs(j: Json, done: seq<Arg>, raw: seq<RawArg>): seq<Arg>
    decreases |raw|
  {
    if raw == [] then done
    else ReadArgs(j, Assign(done, Arg(Unescape(raw[0].key), ReadValue(j, raw[0]))), raw[1..])
  }

  // One call, with what Function.__post_init__ strips (protocol.py:405-409).
  function ReadCall(j: Json, raw: RawCall): Call {
    var arguments :=
      match FindJson(raw.body)
      case Some(text) =>
        (match j.parse(text)
         case Some(Str(s)) => Raw(Str(Strip(s)))
         case Some(v) => Raw(v)
         case None => Raw(Str(Strip(text))))
      case None => Named(ReadArgs(j, [], FindArgs(raw.body)));
    Call(Strip(Unescape(raw.name)), arguments)
  }

  function ReadCalls(j: Json, raw: seq<RawCall>): seq<Call> {
    if raw == [] then [] else [ReadCall(j, raw[0])] + ReadCalls(j, raw[1..])
  }

  // get_toolcall, up to the fallback for responses without any call.
  function GetToolcall(j: Json, digit: char -> bool, response: string): seq<Call> {
    ReadCalls(j, FindCalls(digit, response))
  }

  // --------------------------------------------------------------------------- loops

  lemma {:induction false} ArgTextsSnoc(j: Json, args: seq<Arg>, a: Arg)
    ensures ArgTexts(j, args + [a]) == ArgTexts(j, args) + ArgText(j, a)
  {
    hide ArgText;
    if args == [] {
      assert args + [a] == [a] && [a][1..] == [];
    } else {
      assert (args + [a])[1..] == args[1..] + [a];
      ArgTextsSnoc(j, args[1..], a);
    }
  }

  method FormatBody(j: Json, arguments: Arguments) returns (text: string)
    ensures text == Body(j, arguments)
  {
    hide ArgText, Escape, XtmlValue, ARG_OPEN, TYPE, TYPE_END, ARG_CLOSE, JSON_OPEN, JSON_CLOSE;
    match arguments
    case Named(args) =>
      text := "";
      for i := 0 to |args|
        invariant text == ArgTexts(j, args[..i])
      {
        assert args[..i + 1] == args[..i] + [args[i]];
        ArgTextsSnoc(j, args[..i], args[i]);
        text := text + ArgText(j, args[i]);
      }
      assert args[..|args|] == args;
    case Raw(v) =>
      text := JSON_OPEN + (XtmlValue(j, v) + JSON_CLOSE);
  }

  lemma {:induction false} CallTextsSnoc(j: Json, calls: seq<Call>, c: Call, index: nat)
    ensures CallTexts(j, calls + [c], index) == CallTexts(j, calls, index) + CallText(j, c, index + |calls|)
  {
    hide CallText;
    if calls == [] {
      assert calls + [c] == [c] && [c][1..] == [];
    } else {
      assert (calls + [c])[1..] == calls[1..] + [c];
      CallTextsSnoc(j, calls[1..], c, index + 1);
    }
  }

  method FormatCalls(j: Json, calls: seq<Call>) returns (text: string)
    ensures text == FormatToolCalls(j, calls)
  {
    hide Body, Escape, Decimal, CALL_OPEN, INDEX, TYPE_END, CALL_CLOSE, TOOLS_OPEN, TOOLS_CLOSE;
    text := "";
    for i := 0 to |calls|
      invariant text == CallTexts(j, calls[..i], 1)
    {
      assert calls[..i + 1] == calls[..i] + [calls[i]];
      CallTextsSnoc(j, calls[..i], calls[i], 1);
      var body := FormatBody(j, calls[i].arguments);
      text := text + (CALL_OPEN + (Escape(calls[i].name) + ("\"" + (INDEX + (Decimal(i + 1) + (TYPE_END + (body + CALL_CLOSE)))))));
    }
    assert calls[..|calls|] == calls;
    text := TOOLS_OPEN + (text + TOOLS_CLOSE);
  }

  lemma {:induction false} ReadCallsSnoc(j: Json, raw: seq<RawCall>, r: RawCall)
    ensures ReadCalls(j, raw + [r]) == ReadCalls(j, raw) + [ReadCall(j, r)]
  {
    hide ReadCall;
    if raw == [] {
      assert raw + [r] == [r] && [r][1..] == [];
    } else {
      assert (raw + [r])[1..] == raw[1..] + [r];
      ReadCallsSnoc(j, raw[1..], r);
    }
  }

  // The dictionary of a call, key by key.
  method ReadArguments(j: Json, raw: seq<RawArg>) returns (args: seq<Arg>)
    ensures args == ReadArgs(j, [], raw)
  {
    hide Assign, Unescape, ReadValue;
    args := [];
    for i := 0 to |raw|
      invariant ReadArgs(j, args, raw[i..]) == ReadArgs(j, [], raw)
    {
      assert raw[i..][0] == raw[i] && raw[i..][1..] == raw[i + 1..];
      args := Assign(args, Arg(Unescape(raw[i].key), ReadValue(j, raw[i])));
    }
    assert raw[|raw|..] == [];
  }

  method ReadToolcalls(j: Json, digit: char -> bool, response: string) returns (functions: seq<Call>)
    ensures functions == GetToolcall(j, digit, response)
  {
    hide FindCalls, FindArgs, Strip, Unescape, ReadArgs, FindJson;
    var raw := FindCalls(digit, response);
    functions := [];
    for i := 0 to |raw|
      invariant functions == ReadCalls(j, raw[..i])
    {
      assert raw[..i + 1] == raw[..i] + [raw[i]];
      ReadCallsSnoc(j, raw[..i], raw[i]);
      var name := Unescape(raw[i].name);
      var arguments: Arguments;
      var json := FindJson(raw[i].body);
      if json.Some? {
        var parsed := j.parse(json.value);
        var value := if parsed.Some? then parsed.value else Str(json.value);
        arguments := Raw(if value.Str? then Str(Strip(value.s)) else value);
      } else {
        var args := ReadArguments(j, FindArgs(raw[i].body));
        arguments := Named(args);
      }
      functions := functions + [Call(Strip(name), arguments)];
    }
    assert raw[..|raw|] == raw;
  }
}
