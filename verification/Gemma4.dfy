// The tool-call DSL of swift/agent_template/gemma4.py: _format_argument, _gemma_to_json,
// _parse_arguments, _format_tool_calls and get_toolcall.
module Gemma4 {
  import opened Options
  import opened Searching
  import opened Substrings

  const QUOTE := "<|\"|>"

  // A number is the text str() gives it.  A dictionary keeps its keys in order.
  datatype Value =
    | Null
    | Bool(b: bool)
    | Num(text: string)
    | Str(s: string)
    | Arr(items: seq<Value>)
    | Dict(fields: seq<Pair<Value>>)

  datatype Pair<T> = Pair(key: string, value: T)

  // How a printer writes string values and keys.
  datatype Quoting = Quoting(text: string -> string, key: string -> string)

  // json.dumps of a string, json.loads (None where it raises), and which texts are numbers.
  datatype Json = Json(dumps: string -> string, loads: string -> Option<Value>, number: string -> bool)

  // _format_argument with escape_keys=False
  const DSL := Quoting(s => QUOTE + s + QUOTE, k => k)

  function Compact(j: Json): Quoting {
    Quoting(j.dumps, j.dumps)
  }

  // ----------------------------------------------------------------------- rendering

  // Python's order on strings.
  predicate AtMost(a: string, b: string) {
    a == "" || (b != "" && (a[0] < b[0] || (a[0] == b[0] && AtMost(a[1..], b[1..]))))
  }

  function InsertKey<T>(p: Pair<T>, ps: seq<Pair<T>>): seq<Pair<T>> {
    if ps == [] || AtMost(p.key, ps[0].key) then [p] + ps else [ps[0]] + InsertKey(p, ps[1..])
  }

  function SortKeys<T>(ps: seq<Pair<T>>): seq<Pair<T>> {
    if ps == [] then [] else InsertKey(ps[0], SortKeys(ps[1..]))
  }

  // ','.join
  function Join(xs: seq<string>): string {
    if xs == [] then "" else if |xs| == 1 then xs[0] else xs[0] + "," + Join(xs[1..])
  }

  function Entries(q: Quoting, ps: seq<Pair<string>>): seq<string> {
    if ps == [] then [] else [q.key(ps[0].key) + ":" + ps[0].value] + Entries(q, ps[1..])
  }

  // _format_argument; with the other quoting, compact JSON text with sorted keys.
  function Format(q: Quoting, v: Value): string
    decreases v, 1
  {
    match v
    case Bool(b) => if b then "true" else "false"
    case Str(s) => q.text(s)
    case Null => "null"
    case Dict(fields) => "{" + Join(Entries(q, SortKeys(FormatFields(q, fields)))) + "}"
    case Arr(items) => "[" + Join(FormatItems(q, items)) + "]"
    case Num(text) => text
  }

  function FormatFields(q: Quoting, fields: seq<Pair<Value>>): seq<Pair<string>>
    decreases fields, 0
  {
    if fields == [] then []
    else
      var f := fields[0];
      [Pair(f.key, Format(q, f.value))] + FormatFields(q, fields[1..])
  }

  function FormatItems(q: Quoting, items: seq<Value>): seq<string>
    decreases items, 0
  {
    if items == [] then [] else [Format(q, items[0])] + FormatItems(q, items[1..])
  }

  // --------------------------------------------------------------------- translation

  predicate KeyStart(c: char) {
    'A' <= c <= 'Z' || 'a' <= c <= 'z' || c == '_'
  }

  // \w of a regular expression on str is `word`.
  function KeyRun(word: char -> bool, s: string): (n: nat)
    ensures n <= |s|
    ensures forall i :: 0 <= i < n ==> word(s[i]) || s[i] == '-'
    ensures n < |s| ==> !(word(s[n]) || s[n] == '-')
  {
    if s == "" || !(word(s[0]) || s[0] == '-') then 0 else 1 + KeyRun(word, s[1..])
  }

  // ([A-Za-z_][\w\-]*)(?=:) at the start of s: the length of the key, or 0.
  function KeyAt(word: char -> bool, s: string): (n: nat)
    ensures n < |s| || n == 0
  {
    if s == "" || !KeyStart(s[0]) then 0
    else
      var n := 1 + KeyRun(word, s[1..]);
      if n < |s| && s[n] == ':' then n else 0
  }

  predicate Opens(c: char) {
    c == '{' || c == ','
  }

  // The re.sub of line 197; `open` says whether the character before s is { or a comma.
  function QuoteKeys(word: char -> bool, s: string, open: bool): string
    decreases |s|
  {
    if s == "" then ""
    else
      var n := if open then KeyAt(word, s) else 0;
      if n > 0 then "\"" + s[..n] + "\"" + QuoteKeys(word, s[n..], false)
      else [s[0]] + QuoteKeys(word, s[1..], Opens(s[0]))
  }

  // _gemma_to_json: the parts between quote tokens are bare text and strings in turn.
  function TranslatePart(j: Json, word: char -> bool, part: string, even: bool): string {
    if even then QuoteKeys(word, part, false) else j.dumps(part)
  }

  function TranslateParts(j: Json, word: char -> bool, parts: seq<string>, even: bool): seq<string> {
    seq(|parts|, i requires 0 <= i < |parts| => TranslatePart(j, word, parts[i], even == (i % 2 == 0)))
  }

  // ''.join
  function Joined(parts: seq<string>): string {
    if parts == [] then "" else parts[0] + Joined(parts[1..])
  }

  function GemmaToJson(j: Json, word: char -> bool, s: string): string {
    Joined(TranslateParts(j, word, Split(s, QUOTE), true))
  }

  // _parse_arguments
  function ParseArguments(j: Json, word: char -> bool, body: string): Value {
    match j.loads(GemmaToJson(j, word, "{" + body + "}"))
    case Some(Dict(fields)) => Dict(fields)
    case _ => Dict([])
  }

  // -------------------------------------------------------------------------- calls

  datatype Call = Call(name: string, arguments: Value)

  const OPEN := "<|tool_call>call:"
  const CLOSE := "}<tool_call|>"

  // The arguments of a call that are not a dictionary are dropped (lines 141-145).
  function ArgumentText(v: Value): string {
    if v.Dict? then Join(Entries(DSL, SortKeys(FormatFields(DSL, v.fields)))) else ""
  }

  function FormatCall(c: Call): string {
    OPEN + c.name + "{" + ArgumentText(c.arguments) + CLOSE
  }

  function FormatToolCalls(calls: seq<Call>): string {
    if calls == [] then "" else FormatCall(calls[0]) + FormatToolCalls(calls[1..])
  }

  datatype Found = Found(name: string, body: string, rest: string)

  // The regular expression of line 212 at the start of s.
  function MatchCall(s: string): (r: Option<Found>)
    ensures r.Some? ==> |r.value.rest| < |s|
  {
    if !(OPEN <= s) then None
    else
      var t := s[|OPEN|..];
      match Find(t, "{")
      case None => None
      case Some(n) =>
        if n == 0 then None
        else
          match Find(t[n + 1..], CLOSE)
          case None => None
          case Some(e) => Some(Found(t[..n], t[n + 1..][..e], t[n + 1..][e + |CLOSE|..]))
  }

  // finditer
  function FindCalls(s: string): seq<Found>
    decreases |s|
  {
    match MatchCall(s)
    case Some(f) => [f] + FindCalls(f.rest)
    case None => if s == "" then [] else FindCalls(s[1..])
  }

  function ReadCalls(j: Json, word: char -> bool, found: seq<Found>): seq<Call> {
    if found == [] then []
    else [Call(Strip(found[0].name), ParseArguments(j, word, found[0].body))] + ReadCalls(j, word, found[1..])
  }

  // get_toolcall, up to the fallback for responses without any call.
  function GetToolcall(j: Json, word: char -> bool, response: string): seq<Call> {
    ReadCalls(j, word, FindCalls(response))
  }

  // -------------------------------------------------------------------------- loops

  // _gemma_to_json: the parts are rewritten in place.
  method TranslateInPlace(j: Json, word: char -> bool, s: string) returns (r: string)
    ensures r == GemmaToJson(j, word, s)
  {
    hide QuoteKeys, Split, Joined;
    var split := Split(s, QUOTE);
    var parts := new string[|split|](i requires 0 <= i < |split| => split[i]);
    for i := 0 to parts.Length
      invariant forall k :: i <= k < |split| ==> parts[k] == split[k]
      invariant forall k :: 0 <= k < i ==> parts[k] == TranslatePart(j, word, split[k], k % 2 == 0)
    {
      if i % 2 == 1 {
        parts[i] := j.dumps(parts[i]);
      } else {
        parts[i] := QuoteKeys(word, parts[i], false);
      }
    }
    assert parts[..] == TranslateParts(j, word, split, true);
    r := Joined(parts[..]);
  }

  lemma {:induction false} FormatSnoc(calls: seq<Call>, c: Call)
    ensures FormatToolCalls(calls + [c]) == FormatToolCalls(calls) + FormatCall(c)
  {
    hide FormatCall;
    if calls == [] {
      assert calls + [c] == [c] && [c][1..] == [];
    } else {
      assert (calls + [c])[1..] == calls[1..] + [c];
      FormatSnoc(calls[1..], c);
    }
  }

  // _format_tool_calls
  method FormatInvocations(calls: seq<Call>) returns (text: string)
    ensures text == FormatToolCalls(calls)
  {
    hide Join, Entries, SortKeys, FormatFields, DSL, OPEN, CLOSE;
    text := "";
    for i := 0 to |calls|
      invariant text == FormatToolCalls(calls[..i])
    {
      assert calls[..i + 1] == calls[..i] + [calls[i]];
      FormatSnoc(calls[..i], calls[i]);
      var arguments := calls[i].arguments;
      var args := "";
      if arguments.Dict? {
        args := Join(Entries(DSL, SortKeys(FormatFields(DSL, arguments.fields))));
      }
      text := text + (OPEN + calls[i].name + "{" + args + CLOSE);
    }
    assert calls[..|calls|] == calls;
  }

  lemma {:induction false} ReadSnoc(j: Json, word: char -> bool, found: seq<Found>, f: Found)
    ensures ReadCalls(j, word, found + [f]) ==
      ReadCalls(j, word, found) + [Call(Strip(f.name), ParseArguments(j, word, f.body))]
  {
    hide Strip, ParseArguments;
    if found == [] {
      assert found + [f] == [f] && [f][1..] == [];
    } else {
      assert (found + [f])[1..] == found[1..] + [f];
      ReadSnoc(j, word, found[1..], f);
    }
  }

  // get_toolcall
  method ReadToolcalls(j: Json, word: char -> bool, response: string) returns (functions: seq<Call>)
    ensures functions == GetToolcall(j, word, response)
  {
    hide Strip, GemmaToJson, FindCalls;
    var found := FindCalls(response);
    functions := [];
    for i := 0 to |found|
      invariant functions == ReadCalls(j, word, found[..i])
    {
      assert found[..i + 1] == found[..i] + [found[i]];
      ReadSnoc(j, word, found[..i], found[i]);
      var json := TranslateInPlace(j, word, "{" + found[i].body + "}");
      var arguments := Dict([]);
      match j.loads(json) {
        case Some(Dict(fields)) => arguments := Dict(fields);
        case _ =>
      }
      functions := functions + [Call(Strip(found[i].name), arguments)];
    }
    assert found[..|found|] == found;
  }
}
