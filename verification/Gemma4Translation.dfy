// Translating the DSL text of a value gives its compact JSON text with sorted keys.
module Gemma4Translation {
  import opened Gemma4
  import opened Options
  import opened Searching
  import opened Substrings

  // --------------------------------------------------- the translation as one scan

  // Bare text from s on, without splitting it first.
  function Bare(j: Json, word: char -> bool, s: string, open: bool): string
    decreases |s|, 0
  {
    if s == "" then ""
    else if QUOTE <= s then Quoted(j, word, s[|QUOTE|..])
    else
      var n := if open then KeyAt(word, s) else 0;
      if n > 0 then "\"" + s[..n] + "\"" + Bare(j, word, s[n..], false)
      else [s[0]] + Bare(j, word, s[1..], Opens(s[0]))
  }

  function Quoted(j: Json, word: char -> bool, s: string): string
    decreases |s|, 1
  {
    match Find(s, QUOTE)
    case None => j.dumps(s)
    case Some(i) => j.dumps(s[..i]) + Bare(j, word, s[i + |QUOTE|..], false)
  }

  // What \w may not match: the characters that end a bare word here.
  predicate WordClass(word: char -> bool) {
    !word('<') && !word(':') && !word(',') && !word(']') && !word('}')
  }

  lemma {:induction false} KeyRunPrefix(word: char -> bool, s: string, i: nat)
    requires i < |s| && !word(s[i]) && s[i] != '-'
    ensures KeyRun(word, s[..i]) == KeyRun(word, s) <= i
    decreases i
  {
    if i > 0 {
      assert s[..i][1..] == s[1..][..i - 1];
      KeyRunPrefix(word, s[1..], i - 1);
    }
  }

  lemma {:induction false} KeyAtPrefix(word: char -> bool, s: string, i: nat)
    requires i < |s| && s[i] == '<' && !word('<')
    ensures KeyAt(word, s[..i]) == KeyAt(word, s)
    ensures KeyAt(word, s) <= i
  {
    if i > 0 {
      assert s[..i][1..] == s[1..][..i - 1];
      KeyRunPrefix(word, s[1..], i - 1);
    }
  }

  lemma {:induction false} NoQuoteInKey(word: char -> bool, s: string)
    requires !word('<')
    ensures '<' !in s[..KeyAt(word, s)]
  {
  }

  lemma {:induction false} TranslateTail(j: Json, word: char -> bool, parts: seq<string>, even: bool)
    requires parts != []
    ensures TranslateParts(j, word, parts, even) ==
      [TranslatePart(j, word, parts[0], even)] + TranslateParts(j, word, parts[1..], !even)
  {
    hide TranslatePart;
  }

  // The text after i characters of bare text, as the split sees it.
  function Resumed(j: Json, word: char -> bool, s: string, open: bool): string {
    match Find(s, QUOTE)
    case None => QuoteKeys(word, s, open)
    case Some(i) =>
      QuoteKeys(word, s[..i], open) + Joined(TranslateParts(j, word, Split(s[i + |QUOTE|..], QUOTE), false))
  }

  lemma {:induction false} JoinedCons(x: string, rest: seq<string>)
    ensures Joined([x] + rest) == x + Joined(rest)
  {
    assert ([x] + rest)[1..] == rest;
  }

  lemma {:induction false} ResumedIsTranslation(j: Json, word: char -> bool, s: string)
    ensures GemmaToJson(j, word, s) == Resumed(j, word, s, false)
  {
    hide QuoteKeys, TranslateParts, Joined;
    var parts := Split(s, QUOTE);
    TranslateTail(j, word, parts, true);
    JoinedCons(QuoteKeys(word, parts[0], false), TranslateParts(j, word, parts[1..], false));
    if Find(s, QUOTE).None? {
      assert parts[1..] == [];
      NothingJoined(j, word, false);
      assert QuoteKeys(word, s, false) + "" == QuoteKeys(word, s, false);
    }
  }

  lemma {:induction false} NothingJoined(j: Json, word: char -> bool, even: bool)
    ensures Joined(TranslateParts(j, word, [], even)) == ""
  {
  }

  lemma {:induction false} QuoteAt(s: string, i: nat)
    requires i + |QUOTE| <= |s| && s[i..i + |QUOTE|] == QUOTE
    ensures s[i] == '<'
  {
    assert s[i] == s[i..i + |QUOTE|][0];
  }

  lemma {:induction false} QuoteKeysKey(word: char -> bool, s: string, n: nat)
    requires n == KeyAt(word, s) > 0
    ensures QuoteKeys(word, s, true) == "\"" + s[..n] + "\"" + QuoteKeys(word, s[n..], false)
  {
  }

  lemma {:induction false} ResumedKey(j: Json, word: char -> bool, s: string, n: nat)
    requires !word('<') && n == KeyAt(word, s) > 0
    ensures Resumed(j, word, s, true) == "\"" + s[..n] + "\"" + Resumed(j, word, s[n..], false)
  {
    hide Split, TranslateParts, Joined, QuoteKeys, KeyAt, Find;
    NoQuoteInKey(word, s);
    FindSkips(s[..n], s[n..], QUOTE);
    assert s == s[..n] + s[n..];
    QuoteKeysKey(word, s, n);
    match Find(s[n..], QUOTE)
    case None =>
    case Some(i) =>
      QuoteAt(s[n..], i);
      assert s[n..][i] == s[n + i];
      KeyAtPrefix(word, s, n + i);
      QuoteKeysKey(word, s[..n + i], n);
      assert s[..n + i][..n] == s[..n] && s[..n + i][n..] == s[n..][..i];
      assert s[n..][i + |QUOTE|..] == s[n + i + |QUOTE|..];
      var tail := Joined(TranslateParts(j, word, Split(s[n + i + |QUOTE|..], QUOTE), false));
      var head := "\"" + s[..n] + "\"";
      assert (head + QuoteKeys(word, s[n..][..i], false)) + tail == head + (QuoteKeys(word, s[n..][..i], false) + tail);
  }

  lemma {:induction false} QuoteKeysChar(word: char -> bool, s: string, open: bool)
    requires s != "" && (open ==> KeyAt(word, s) == 0)
    ensures QuoteKeys(word, s, open) == [s[0]] + QuoteKeys(word, s[1..], Opens(s[0]))
  {
  }

  lemma {:induction false} ResumedChar(j: Json, word: char -> bool, s: string, open: bool)
    requires !word('<') && s != "" && !(QUOTE <= s) && (open ==> KeyAt(word, s) == 0)
    ensures Resumed(j, word, s, open) == [s[0]] + Resumed(j, word, s[1..], Opens(s[0]))
  {
    hide Split, TranslateParts, Joined, Find, KeyAt, QuoteKeys;
    FindStep(s, QUOTE);
    QuoteKeysChar(word, s, open);
    match Find(s[1..], QUOTE)
    case None =>
    case Some(i) =>
      QuoteAt(s[1..], i);
      assert s[1..][i] == s[i + 1];
      KeyAtPrefix(word, s, i + 1);
      QuoteKeysChar(word, s[..i + 1], open);
      assert s[..i + 1][1..] == s[1..][..i];
      assert s[1..][i + |QUOTE|..] == s[i + 1 + |QUOTE|..];
      var tail := Joined(TranslateParts(j, word, Split(s[i + 1 + |QUOTE|..], QUOTE), false));
      var more := QuoteKeys(word, s[1..][..i], Opens(s[0]));
      assert ([s[0]] + more) + tail == [s[0]] + (more + tail);
  }

  lemma {:induction false} BareIsResumed(j: Json, word: char -> bool, s: string, open: bool)
    requires !word('<')
    ensures Bare(j, word, s, open) == Resumed(j, word, s, open)
    decreases |s|, 0
  {
    if s == "" {
    } else if QUOTE <= s {
      QuotedIsRest(j, word, s[|QUOTE|..]);
      assert s[..0] == "";
    } else {
      hide QuoteKeys, Resumed, KeyAt;
      var n := if open then KeyAt(word, s) else 0;
      if n > 0 {
        ResumedKey(j, word, s, n);
        BareIsResumed(j, word, s[n..], false);
      } else {
        ResumedChar(j, word, s, open);
        BareIsResumed(j, word, s[1..], Opens(s[0]));
      }
    }
  }

  lemma {:induction false} QuotedIsRest(j: Json, word: char -> bool, s: string)
    requires !word('<')
    ensures Quoted(j, word, s) == Joined(TranslateParts(j, word, Split(s, QUOTE), false))
    decreases |s|, 1
  {
    hide Bare, QuoteKeys, TranslateParts, Joined;
    var parts := Split(s, QUOTE);
    TranslateTail(j, word, parts, false);
    JoinedCons(j.dumps(parts[0]), TranslateParts(j, word, parts[1..], true));
    match Find(s, QUOTE)
    case None =>
      assert parts[1..] == [];
      NothingJoined(j, word, true);
      assert j.dumps(s) + "" == j.dumps(s);
    case Some(i) =>
      var rest := s[i + |QUOTE|..];
      BareIsResumed(j, word, rest, false);
      ResumedIsTranslation(j, word, rest);
  }

  lemma {:induction false} TranslationIsBare(j: Json, word: char -> bool, s: string)
    requires !word('<')
    ensures GemmaToJson(j, word, s) == Bare(j, word, s, false)
  {
    BareIsResumed(j, word, s, false);
    ResumedIsTranslation(j, word, s);
  }

  // ------------------------------------------------------------------ plain printing

  // Format without the sorting.
  function Print(q: Quoting, v: Value): string
    decreases v, 1
  {
    match v
    case Bool(b) => if b then "true" else "false"
    case Str(s) => q.text(s)
    case Null => "null"
    case Dict(fields) => "{" + PrintFields(q, fields) + "}"
    case Arr(items) => "[" + PrintItems(q, items) + "]"
    case Num(text) => text
  }

  function PrintFields(q: Quoting, fields: seq<Pair<Value>>): string
    decreases fields, 0
  {
    if fields == [] then ""
    else
      var f := fields[0];
      q.key(f.key) + ":" + Print(q, f.value) + if |fields| == 1 then "" else "," + PrintFields(q, fields[1..])
  }

  function PrintItems(q: Quoting, items: seq<Value>): string
    decreases items, 0
  {
    if items == [] then ""
    else Print(q, items[0]) + if |items| == 1 then "" else "," + PrintItems(q, items[1..])
  }

  // ------------------------------------------------------------------------- the domain

  predicate Identifier(word: char -> bool, k: string) {
    k != "" && KeyStart(k[0]) && forall i :: 0 < i < |k| ==> word(k[i]) || k[i] == '-'
  }

  predicate NumberChar(c: char) {
    '0' <= c <= '9' || c == '+' || c == '-' || c == '.' || c == 'e' || c == 'E'
  }

  predicate NumberText(t: string) {
    t != "" && !KeyStart(t[0]) && forall i :: 0 <= i < |t| ==> NumberChar(t[i])
  }

  // What is asked of the JSON printer: an identifier is quoted and nothing else, and a number
  // is written with digits, signs, points and exponents, not starting with a letter.
  ghost predicate Faithful(j: Json, word: char -> bool) {
    && WordClass(word)
    && (forall k :: Identifier(word, k) ==> j.dumps(k) == "\"" + k + "\"")
    && (forall t :: j.number(t) ==> NumberText(t))
  }

  function Keys<T>(fields: seq<Pair<T>>): set<string> {
    if fields == [] then {} else {fields[0].key} + Keys(fields[1..])
  }

  // No string holds the quote token, keys are identifiers, and no key comes twice.
  predicate Clean(j: Json, word: char -> bool, v: Value)
    decreases v, 1
  {
    match v
    case Null => true
    case Bool(_) => true
    case Num(t) => j.number(t)
    case Str(s) => Free(s, QUOTE)
    case Arr(items) => CleanItems(j, word, items)
    case Dict(fields) => CleanFields(j, word, fields)
  }

  predicate CleanItems(j: Json, word: char -> bool, items: seq<Value>)
    decreases items, 0
  {
    items == [] || (Clean(j, word, items[0]) && CleanItems(j, word, items[1..]))
  }

  predicate CleanFields(j: Json, word: char -> bool, fields: seq<Pair<Value>>)
    decreases fields, 0
  {
    fields == [] || (
      var f := fields[0];
      Identifier(word, f.key) && Clean(j, word, f.value) && f.key !in Keys(fields[1..])
      && CleanFields(j, word, fields[1..]))
  }

  // ------------------------------------------------------------- pieces of the DSL text

  // A value is followed by nothing, or by one of these.
  predicate Ends(rest: string) {
    rest == "" || rest[0] == ',' || rest[0] == ']' || rest[0] == '}'
  }

  lemma {:induction false} BareMark(j: Json, word: char -> bool, c: char, rest: string, open: bool)
    requires c == '{' || c == '[' || c == ',' || c == ':' || c == '}' || c == ']'
    ensures Bare(j, word, [c] + rest, open) == [c] + Bare(j, word, rest, Opens(c))
  {
    var s := [c] + rest;
    assert s[1..] == rest && s[0] == c;
    NoQuoteAt(s);
    assert KeyAt(word, s) == 0;
  }

  lemma {:induction false} NoQuoteAt(s: string)
    requires s != "" && s[0] != '<'
    ensures !(QUOTE <= s)
  {
    assert QUOTE[0] == '<';
  }

  // A text with no mark and no quote token in it.
  predicate PlainText(w: string) {
    forall i :: 0 <= i < |w| ==> w[i] != '<' && w[i] != ',' && w[i] != '{' && w[i] != ':'
  }

  // A symbol that starts neither a key nor a quote token is copied.
  lemma {:induction false} BareFirst(j: Json, word: char -> bool, c: char, rest: string, open: bool)
    requires c != '<' && (!open || KeyAt(word, [c] + rest) == 0)
    ensures Bare(j, word, [c] + rest, open) == [c] + Bare(j, word, rest, Opens(c))
  {
    var s := [c] + rest;
    assert s[1..] == rest && s[0] == c;
    NoQuoteAt(s);
  }

  lemma {:induction false} BarePlain(j: Json, word: char -> bool, w: string, rest: string)
    requires PlainText(w)
    ensures Bare(j, word, w + rest, false) == w + Bare(j, word, rest, false)
    decreases |w|
  {
    hide Bare, KeyAt;
    if w == "" {
      assert w + rest == rest;
    } else {
      var c, more := w[0], w[1..];
      assert w == [c] + more;
      assert ([c] + more) + rest == [c] + (more + rest);
      BareFirst(j, word, c, more + rest, false);
      BarePlain(j, word, more, rest);
      assert [c] + (more + Bare(j, word, rest, false)) == ([c] + more) + Bare(j, word, rest, false);
    }
  }

  // A bare word followed by no colon is not a key, even right after a comma.
  lemma {:induction false} NotAKey(word: char -> bool, w: string, rest: string)
    requires WordClass(word) && PlainText(w) && w != "" && Ends(rest)
    ensures KeyAt(word, w + rest) == 0
  {
    var s := w + rest;
    if rest != "" {
      assert s[1..][|w| - 1] == rest[0];
      KeyRunPrefix(word, s[1..], |w| - 1);
    }
    var n := 1 + KeyRun(word, s[1..]);
    assert n < |w| ==> s[n] == w[n];
  }

  lemma {:induction false} BareWord(j: Json, word: char -> bool, w: string, open: bool, rest: string)
    requires WordClass(word) && PlainText(w) && w != "" && Ends(rest)
    ensures Bare(j, word, w + rest, open) == w + Bare(j, word, rest, false)
  {
    hide Bare, KeyAt, WordClass, Ends;
    NotAKey(word, w, rest);
    var c, more := w[0], w[1..];
    assert w == [c] + more;
    assert ([c] + more) + rest == [c] + (more + rest);
    BareFirst(j, word, c, more + rest, open);
    BarePlain(j, word, more, rest);
    assert [c] + (more + Bare(j, word, rest, false)) == ([c] + more) + Bare(j, word, rest, false);
  }

  lemma {:induction false} KeyRunOver(word: char -> bool, a: string, rest: string)
    requires forall i :: 0 <= i < |a| ==> word(a[i]) || a[i] == '-'
    requires rest != "" && !word(rest[0]) && rest[0] != '-'
    ensures KeyRun(word, a + rest) == |a|
  {
    if a == "" {
      assert a + rest == rest;
    } else {
      assert (a + rest)[1..] == a[1..] + rest;
      KeyRunOver(word, a[1..], rest);
    }
  }

  // A key after a brace or a comma is quoted.
  lemma {:induction false} BareKey(j: Json, word: char -> bool, k: string, rest: string)
    requires WordClass(word) && Identifier(word, k)
    ensures Bare(j, word, k + (":" + rest), true) == "\"" + k + "\"" + (":" + Bare(j, word, rest, false))
  {
    var s := k + (":" + rest);
    assert s[1..] == k[1..] + (":" + rest);
    KeyRunOver(word, k[1..], ":" + rest);
    assert s[..|k|] == k && s[|k|..] == ":" + rest;
    assert s[|k|] == ':';
    BareMark(j, word, ':', rest, false);
  }

  // The pattern takes a whole key exactly when the key is an identifier.
  lemma {:induction false} KeyTakenExactly(word: char -> bool, k: string, rest: string)
    requires WordClass(word)
    ensures k != "" && KeyAt(word, k + (":" + rest)) == |k| <==> Identifier(word, k)
  {
    if k != "" {
      var s := k + (":" + rest);
      var n := KeyRun(word, s[1..]);
      assert s[1..] == k[1..] + (":" + rest) && s[|k|] == ':' && s[0] == k[0];
      if Identifier(word, k) {
        KeyRunOver(word, k[1..], ":" + rest);
      } else if KeyStart(k[0]) && n == |k| - 1 {
        forall i | 0 < i < |k| ensures word(k[i]) || k[i] == '-' {
          assert s[1..][i - 1] == k[i];
        }
      }
    }
  }

  // A string goes through json.dumps whatever it contains.
  lemma {:induction false} BareString(j: Json, word: char -> bool, s: string, open: bool, rest: string)
    requires Free(s, QUOTE)
    ensures Bare(j, word, (QUOTE + s + QUOTE) + rest, open) == j.dumps(s) + Bare(j, word, rest, false)
  {
    hide Find;
    BorderlessIsGuarded(QUOTE);
    FindAfter(s, QUOTE, rest);
    var all := (QUOTE + s + QUOTE) + rest;
    assert all[|QUOTE|..] == s + (QUOTE + rest);
    assert (s + (QUOTE + rest))[..|s|] == s;
    assert (s + (QUOTE + rest))[|s| + |QUOTE|..] == rest;
  }

  // ------------------------------------------------------------------- every value

  lemma {:induction false} TranslatesValue(j: Json, word: char -> bool, v: Value, open: bool, rest: string)
    requires Faithful(j, word) && Clean(j, word, v) && Ends(rest)
    ensures Bare(j, word, Print(DSL, v) + rest, open) == Print(Compact(j), v) + Bare(j, word, rest, false)
    decreases v, 1
  {
    hide Bare, Faithful, Free;
    FaithfulFacts(j, word);
    match v
    case Bool(b) => BareWord(j, word, Print(DSL, v), open, rest);
    case Null => BareWord(j, word, "null", open, rest);
    case Num(t) =>
      NumberIsPlain(j, word, t);
      BareWord(j, word, t, open, rest);
    case Str(s) => BareString(j, word, s, open, rest);
    case Arr(items) =>
      var inner, text := PrintItems(DSL, items), PrintItems(Compact(j), items);
      assert ("[" + inner + "]") + rest == "[" + (inner + ("]" + rest));
      BareMark(j, word, '[', inner + ("]" + rest), open);
      TranslatesItems(j, word, items, false, "]" + rest);
      BareMark(j, word, ']', rest, false);
      assert "[" + (text + ("]" + Bare(j, word, rest, false))) == ("[" + text + "]") + Bare(j, word, rest, false);
    case Dict(fields) =>
      var inner, text := PrintFields(DSL, fields), PrintFields(Compact(j), fields);
      assert ("{" + inner + "}") + rest == "{" + (inner + ("}" + rest));
      BareMark(j, word, '{', inner + ("}" + rest), open);
      TranslatesFields(j, word, fields, "}" + rest);
      BareMark(j, word, '}', rest, false);
      assert "{" + (text + ("}" + Bare(j, word, rest, false))) == ("{" + text + "}") + Bare(j, word, rest, false);
  }

  lemma {:induction false} FaithfulFacts(j: Json, word: char -> bool)
    requires Faithful(j, word)
    ensures WordClass(word)
  {
  }

  lemma {:induction false} NumberIsPlain(j: Json, word: char -> bool, t: string)
    requires Faithful(j, word) && j.number(t)
    ensures t != "" && PlainText(t)
  {
    assert NumberText(t);
    assert forall i :: 0 <= i < |t| ==> NumberChar(t[i]);
  }

  lemma {:induction false} TranslatesItems(j: Json, word: char -> bool, items: seq<Value>, open: bool, rest: string)
    requires Faithful(j, word) && CleanItems(j, word, items) && Ends(rest) && rest != "" && rest[0] != ','
    ensures Bare(j, word, PrintItems(DSL, items) + rest, open) ==
      PrintItems(Compact(j), items) + Bare(j, word, rest, false)
    decreases items, 0
  {
    hide Bare, Faithful, Clean, Print;
    if items == [] {
      assert "" + rest == rest;
      BareMark(j, word, rest[0], rest[1..], open);
      BareMark(j, word, rest[0], rest[1..], false);
      assert rest == [rest[0]] + rest[1..];
    } else if |items| == 1 {
      assert items[0] == [items[0]][0];
      TranslatesValue(j, word, items[0], open, rest);
      assert Print(DSL, items[0]) + "" == Print(DSL, items[0]);
      assert Print(Compact(j), items[0]) + "" == Print(Compact(j), items[0]);
    } else {
      var more, text := PrintItems(DSL, items[1..]), PrintItems(Compact(j), items[1..]);
      var first := Print(DSL, items[0]);
      assert (first + ("," + more)) + rest == first + ("," + (more + rest));
      TranslatesValue(j, word, items[0], open, "," + (more + rest));
      BareMark(j, word, ',', more + rest, false);
      TranslatesItems(j, word, items[1..], true, rest);
      var end := Bare(j, word, rest, false);
      assert Print(Compact(j), items[0]) + ("," + (text + end)) == (Print(Compact(j), items[0]) + ("," + text)) + end;
    }
  }

  lemma {:induction false} TranslatesFields(j: Json, word: char -> bool, fields: seq<Pair<Value>>, rest: string)
    requires Faithful(j, word) && CleanFields(j, word, fields) && Ends(rest) && rest != "" && rest[0] != ','
    ensures Bare(j, word, PrintFields(DSL, fields) + rest, true) ==
      PrintFields(Compact(j), fields) + Bare(j, word, rest, false)
    decreases fields, 0
  {
    hide Bare, Faithful, Clean, Print, Keys;
    FaithfulFacts(j, word);
    if fields == [] {
      assert "" + rest == rest;
      BareMark(j, word, rest[0], rest[1..], true);
      BareMark(j, word, rest[0], rest[1..], false);
      assert rest == [rest[0]] + rest[1..];
    } else {
      var f := fields[0];
      var value, valueText := Print(DSL, f.value), Print(Compact(j), f.value);
      var more := if |fields| == 1 then "" else "," + PrintFields(DSL, fields[1..]);
      var text := if |fields| == 1 then "" else "," + PrintFields(Compact(j), fields[1..]);
      var end := Bare(j, word, rest, false);
      var tail := more + rest;
      assert Bare(j, word, tail, false) == text + end by {
        if |fields| == 1 {
          assert "" + rest == rest && "" + end == end;
        } else {
          var inner := PrintFields(DSL, fields[1..]);
          assert tail == "," + (inner + rest);
          BareMark(j, word, ',', inner + rest, false);
          TranslatesFields(j, word, fields[1..], rest);
        }
      }
      KeyText(j, word, f.key);
      assert (f.key + ":" + value + more) + rest == f.key + (":" + (value + tail));
      BareKey(j, word, f.key, value + tail);
      TranslatesValue(j, word, f.value, false, tail);
      var quoted := "\"" + f.key + "\"";
      assert quoted + (":" + (valueText + (text + end))) == (quoted + ":" + valueText + text) + end;
    }
  }

  lemma {:induction false} KeyText(j: Json, word: char -> bool, k: string)
    requires Faithful(j, word) && Identifier(word, k)
    ensures j.dumps(k) == "\"" + k + "\""
  {
  }
}
