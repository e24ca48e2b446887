// InferStreamer of swift/infer_engine/utils.py (lines 42-93): which part of the growing
// answer is printed at each step.
//
// `decode` stands for template.decode_generate_ids on tokens that are not stop tokens, and
// `prefix` for the response prefix that only the first call shows.
module StreamText {
  import opened Sequences

  // -------------------------------------------------------------- Python string parts

  function Lead(s: string): (n: nat)
    ensures n <= |s|
    ensures forall i :: 0 <= i < n ==> s[i] == ' '
    ensures n < |s| ==> s[n] != ' '
  {
    if s == [] || s[0] != ' ' then 0 else 1 + Lead(s[1..])
  }

  // s.lstrip(' ')
  function LStrip(s: string): string {
    s[Lead(s)..]
  }

  function Spaces(n: nat): string {
    seq(n, _ => ' ')
  }

  // s.rfind(' ') + 1
  function AfterLastSpace(s: string): (n: nat)
    ensures n <= |s|
    ensures n > 0 ==> s[n - 1] == ' '
    ensures forall i :: n <= i < |s| ==> s[i] != ' '
  {
    if s == [] then 0
    else if s[|s| - 1] == ' ' then |s|
    else AfterLastSpace(s[..|s| - 1])
  }

  function EndsLine(s: string): bool {
    s != [] && s[|s| - 1] == '\n'
  }

  // _is_chinese_char (lines 31-39)
  predicate IsChineseChar(c: char) {
    var cp := c as int;
    || 0x4E00 <= cp <= 0x9FFF || 0x3400 <= cp <= 0x4DBF || 0x20000 <= cp <= 0x2A6DF
    || 0x2A700 <= cp <= 0x2B73F || 0x2B740 <= cp <= 0x2B81F || 0x2B820 <= cp <= 0x2CEAF
    || 0xF900 <= cp <= 0xFAFF || 0x2F800 <= cp <= 0x2FA1F
  }

  // ------------------------------------------------------------------ the state steps

  datatype Streamer = Streamer(cacheIdx: nat, printIdx: nat, firstNumSpace: int, firstToken: bool)

  const FRESH := Streamer(0, 0, -1, true)

  // _align_blank_suffix (lines 54-63)
  function AlignBlank(st: Streamer, response: string): (r: (Streamer, string))
    requires st.firstNumSpace >= -1
  {
    var cur := Lead(response);
    if st.firstNumSpace == -1 then (st.(firstNumSpace := cur), response)
    else if cur < st.firstNumSpace then (st, Spaces(st.firstNumSpace - cur) + response)
    else if cur > st.firstNumSpace then (st, response[cur - st.firstNumSpace..])
    else (st, response)
  }

  // _get_response (lines 65-84)
  function GetResponse(st: Streamer, response: string, isFinished: bool, tokenLen: nat): (Streamer, string) {
    if st.firstToken then (st.(firstToken := false), response)
    else if EndsLine(response) || isFinished then
      (st.(cacheIdx := st.cacheIdx + tokenLen, firstNumSpace := -1, printIdx := 0),
       Slice(response, st.printIdx, |response|))
    else
      var text :=
        if response != [] && IsChineseChar(response[|response| - 1]) then Slice(response, st.printIdx, |response|)
        else Slice(response, st.printIdx, AfterLastSpace(response));
      (st.(printIdx := st.printIdx + |text|), text)
  }

  type Decoder = seq<int> -> string

  datatype Call = Call(tokens: seq<int>, isFinished: bool)

  function Cached(tokens: seq<int>, cacheIdx: nat): seq<int> {
    if cacheIdx <= |tokens| then tokens[cacheIdx..] else []
  }

  // get_printable_text (lines 86-93)
  function Printable(st: Streamer, decode: Decoder, prefix: string, call: Call): (Streamer, string)
    requires st.firstNumSpace >= -1
  {
    var raw := if st.firstToken then [] else Cached(call.tokens, st.cacheIdx);
    var response := (if st.firstToken then prefix else "") + decode(raw);
    var (st', aligned) := AlignBlank(st, response);
    GetResponse(st', aligned, call.isFinished, |raw|)
  }

  function Deltas(st: Streamer, decode: Decoder, prefix: string, calls: seq<Call>): string
    requires st.firstNumSpace >= -1
    decreases |calls|
  {
    if calls == [] then ""
    else
      var (st', text) := Printable(st, decode, prefix, calls[0]);
      text + Deltas(st', decode, prefix, calls[1..])
  }

  // ------------------------------------------------------------- what is printed in all

  // Decoding is a homomorphism, so that what is decoded never changes when tokens arrive.
  ghost predicate Homomorphism(decode: Decoder) {
    decode([]) == "" && forall a, b {:trigger decode(a + b)} :: decode(a + b) == decode(a) + decode(b)
  }

  // The token list only grows, and only the last call is the finishing one.
  predicate Growing(seen: seq<int>, calls: seq<Call>)
    decreases |calls|
  {
    calls != []
    && seen <= calls[0].tokens
    && (if |calls| == 1 then calls[0].isFinished else !calls[0].isFinished && Growing(calls[0].tokens, calls[1..]))
  }

  // A text whose leading blanks are replaced by `anchor` of them.
  function Anchored(anchor: nat, text: string): string {
    Spaces(anchor) + LStrip(text)
  }

  // The reference: segment by segment, with no print position.  A segment ends at a call
  // whose text ends a line, or at the last call; its first call fixes its anchor.
  function Segments(decode: Decoder, calls: seq<Call>, cacheIdx: nat, anchor: int): string
    requires anchor >= -1
    decreases |calls|
  {
    if calls == [] then ""
    else
      var text := decode(Cached(calls[0].tokens, cacheIdx));
      var a := if anchor == -1 then Lead(text) else anchor;
      if EndsLine(text) || calls[0].isFinished then
        Anchored(a, text) + Segments(decode, calls[1..], if cacheIdx <= |calls[0].tokens| then |calls[0].tokens| else cacheIdx, -1)
      else
        Segments(decode, calls[1..], cacheIdx, a)
  }

  lemma {:induction false} LeadSplits(s: string)
    ensures s == Spaces(Lead(s)) + LStrip(s)
  {
  }

  lemma {:induction false} TrimSpaces(n: nat, k: nat, s: string)
    requires k <= n
    ensures (Spaces(n) + s)[n - k..] == Spaces(k) + s
  {
  }

  lemma {:induction false} PadSpaces(n: nat, k: nat, s: string)
    ensures Spaces(k) + (Spaces(n) + s) == Spaces(k + n) + s
  {
  }

  // Aligning a response gives it the segment's anchor, whatever branch is taken.
  lemma {:induction false} AlignedIsAnchored(st: Streamer, response: string)
    requires st.firstNumSpace >= -1
    ensures var (st', aligned) := AlignBlank(st, response);
      && st' == st.(firstNumSpace := if st.firstNumSpace == -1 then Lead(response) else st.firstNumSpace)
      && aligned == Anchored(st'.firstNumSpace, response)
  {
    hide Lead, Spaces;
    var cur := Lead(response);
    LeadSplits(response);
    hide LStrip;
    if 0 <= st.firstNumSpace < cur {
      TrimSpaces(cur, st.firstNumSpace, LStrip(response));
    } else if cur < st.firstNumSpace {
      PadSpaces(cur, st.firstNumSpace - cur, LStrip(response));
    }
  }

  lemma {:induction false} AnchoredEndsLine(anchor: nat, text: string)
    ensures EndsLine(Anchored(anchor, text)) == EndsLine(text)
  {
    LeadSplits(text);
  }

  lemma {:induction false} LeadAppend(a: string, b: string)
    ensures Lead(a) < |a| ==> Lead(a + b) == Lead(a)
    ensures Lead(a) == |a| ==> Lead(a + b) == |a| + Lead(b)
  {
    if a == [] {
      assert a + b == b;
    } else {
      assert (a + b)[1..] == a[1..] + b;
      if a[0] == ' ' {
        LeadAppend(a[1..], b);
      }
    }
  }

  // Within a segment the aligned text only grows.
  lemma {:induction false} AnchoredGrows(anchor: nat, a: string, b: string)
    ensures Anchored(anchor, a) <= Anchored(anchor, a + b)
  {
    LeadAppend(a, b);
    if Lead(a) < |a| {
      assert LStrip(a + b) == LStrip(a) + b;
    } else {
      assert LStrip(a) == [];
    }
  }

  lemma {:induction false} DecodeGrows(decode: Decoder, seen: seq<int>, tokens: seq<int>, c: nat)
    requires Homomorphism(decode) && c <= |seen| && seen <= tokens
    ensures decode(tokens[c..]) == decode(seen[c..]) + decode(tokens[|seen|..])
  {
    assert tokens[c..] == seen[c..] + tokens[|seen|..];
  }

  // The text of a segment in progress is the start of what the segments print.
  lemma {:induction false} SegmentsExtend(decode: Decoder, seen: seq<int>, calls: seq<Call>, c: nat, anchor: nat)
    requires Homomorphism(decode) && c <= |seen| && Growing(seen, calls)
    ensures Anchored(anchor, decode(seen[c..])) <= Segments(decode, calls, c, anchor)
    decreases |calls|
  {
    hide Anchored, Lead, LStrip, EndsLine, Homomorphism;
    var tokens := calls[0].tokens;
    var text := decode(tokens[c..]);
    DecodeGrows(decode, seen, tokens, c);
    AnchoredGrows(anchor, decode(seen[c..]), decode(tokens[|seen|..]));
    if !EndsLine(text) && !calls[0].isFinished {
      SegmentsExtend(decode, tokens, calls[1..], c, anchor);
    }
  }

  ghost predicate Midway(st: Streamer, decode: Decoder, seen: seq<int>) {
    && !st.firstToken && st.firstNumSpace >= -1 && st.cacheIdx <= |seen|
    && (if st.firstNumSpace == -1 then st.printIdx == 0
        else st.printIdx <= |Anchored(st.firstNumSpace, decode(seen[st.cacheIdx..]))|)
  }

  lemma {:induction false} PrintsNext(st: Streamer, response: string, isFinished: bool, n: nat)
    requires !st.firstToken && st.printIdx <= |response|
    ensures var (st', out) := GetResponse(st, response, isFinished, n);
      if EndsLine(response) || isFinished then
        out == response[st.printIdx..] && st' == Streamer(st.cacheIdx + n, 0, -1, false)
      else
        st.printIdx <= st'.printIdx <= |response| && out == response[st.printIdx..st'.printIdx]
        && st' == st.(printIdx := st'.printIdx)
  {
    hide AfterLastSpace, IsChineseChar, EndsLine;
  }

  // One call: it prints the aligned text from the print position up to the new one.
  lemma {:induction false} OnePrint(st: Streamer, decode: Decoder, prefix: string, seen: seq<int>, call: Call)
    requires Homomorphism(decode) && Midway(st, decode, seen) && seen <= call.tokens
    ensures var text := decode(call.tokens[st.cacheIdx..]);
      var a := if st.firstNumSpace == -1 then Lead(text) else st.firstNumSpace;
      var (st', out) := Printable(st, decode, prefix, call);
      var aligned := Anchored(a, text);
      && st.printIdx <= |aligned|
      && Midway(st', decode, call.tokens)
      && if EndsLine(text) || call.isFinished then
           out == aligned[st.printIdx..] && st' == Streamer(|call.tokens|, 0, -1, false)
         else
           st.printIdx <= st'.printIdx <= |aligned| && out == aligned[st.printIdx..st'.printIdx]
           && st' == st.(firstNumSpace := a, printIdx := st'.printIdx)
  {
    hide Anchored, Lead, LStrip, AlignBlank, GetResponse, AfterLastSpace, IsChineseChar, Homomorphism, EndsLine;
    var text := decode(call.tokens[st.cacheIdx..]);
    assert "" + text == text;
    DecodeGrows(decode, seen, call.tokens, st.cacheIdx);
    if st.firstNumSpace >= 0 {
      AnchoredGrows(st.firstNumSpace, decode(seen[st.cacheIdx..]), decode(call.tokens[|seen|..]));
    }
    AlignedIsAnchored(st, text);
    var a := if st.firstNumSpace == -1 then Lead(text) else st.firstNumSpace;
    AnchoredEndsLine(a, text);
    PrintsNext(st.(firstNumSpace := a), Anchored(a, text), call.isFinished, |call.tokens| - st.cacheIdx);
  }

  // Whatever is printed when, the deltas of a run are the segments in full.
  lemma {:induction false} DeltasAreSegments(st: Streamer, decode: Decoder, prefix: string, seen: seq<int>, calls: seq<Call>)
    requires Homomorphism(decode) && Midway(st, decode, seen) && Growing(seen, calls)
    ensures var all := Segments(decode, calls, st.cacheIdx, st.firstNumSpace);
      st.printIdx <= |all| && Deltas(st, decode, prefix, calls) == all[st.printIdx..]
    decreases |calls|
  {
    hide Printable, Anchored, Lead, EndsLine, Homomorphism, Midway;
    var call := calls[0];
    OnePrint(st, decode, prefix, seen, call);
    MidwayFacts(st, decode, seen);
    var (st', out) := Printable(st, decode, prefix, call);
    MidwayFacts(st', decode, call.tokens);
    var text := decode(call.tokens[st.cacheIdx..]);
    var a := if st.firstNumSpace == -1 then Lead(text) else st.firstNumSpace;
    if |calls| > 1 {
      DeltasAreSegments(st', decode, prefix, call.tokens, calls[1..]);
      if !EndsLine(text) {
        SegmentsExtend(decode, call.tokens, calls[1..], st.cacheIdx, a);
      }
    }
  }

  lemma {:induction false} MidwayFacts(st: Streamer, decode: Decoder, seen: seq<int>)
    requires Midway(st, decode, seen)
    ensures st.firstNumSpace >= -1 && st.cacheIdx <= |seen| && !st.firstToken
  {
  }

  // ---------------------------------------------------------------- conservation

  // Every segment ends with as many leading blanks as its anchor: the count of its first
  // call, or, for the first segment, the count of the prefix.
  predicate KeepsAnchors(decode: Decoder, calls: seq<Call>, cacheIdx: nat, anchor: int)
    requires anchor >= -1
    decreases |calls|
  {
    calls == [] ||
    var text := decode(Cached(calls[0].tokens, cacheIdx));
    var a := if anchor == -1 then Lead(text) else anchor;
    if EndsLine(text) || calls[0].isFinished then
      Lead(text) == a
      && KeepsAnchors(decode, calls[1..], if cacheIdx <= |calls[0].tokens| then |calls[0].tokens| else cacheIdx, -1)
    else KeepsAnchors(decode, calls[1..], cacheIdx, a)
  }

  lemma {:induction false} AnchoredSame(a: nat, text: string, x: string, y: string)
    requires EndsLine(text) || x == y == ""
    ensures Anchored(a, text) + x == text + y <==> Lead(text) == a && x == y
  {
    var n, r := Lead(text), LStrip(text);
    LeadSplits(text);
    var left, right := Anchored(a, text) + x, text + y;
    if a != n {
      if r == "" {
        assert |left| == a && |right| == n;
      } else {
        var i := if a < n then a else n;
        assert left[i] != right[i] by {
          if a < n {
            assert left[i] == r[0] && right[i] == ' ';
          } else {
            assert left[i] == ' ' && right[i] == text[n];
          }
        }
      }
    } else {
      assert Anchored(a, text) == text;
      assert left[|text|..] == x && right[|text|..] == y;
    }
  }

  lemma {:induction false} SegmentsConserve(decode: Decoder, seen: seq<int>, calls: seq<Call>, c: nat, anchor: int)
    requires Homomorphism(decode) && c <= |seen| && Growing(seen, calls) && anchor >= -1
    ensures c <= |calls[|calls| - 1].tokens|
    ensures Segments(decode, calls, c, anchor) == decode(calls[|calls| - 1].tokens[c..]) <==>
      KeepsAnchors(decode, calls, c, anchor)
    decreases |calls|
  {
    hide Anchored, Lead, EndsLine, Homomorphism;
    var tokens := calls[0].tokens;
    var text := decode(tokens[c..]);
    var a := if anchor == -1 then Lead(text) else anchor;
    if |calls| == 1 {
      AnchoredSame(a, text, "", "");
      assert text + "" == text;
    } else {
      var last := calls[|calls| - 1].tokens;
      if EndsLine(text) {
        SegmentsConserve(decode, tokens, calls[1..], |tokens|, -1);
        GrowingPrefix(tokens, calls[1..]);
        DecodeGrows(decode, tokens, last, c);
        AnchoredSame(a, text, Segments(decode, calls[1..], |tokens|, -1), decode(last[|tokens|..]));
      } else {
        SegmentsConserve(decode, tokens, calls[1..], c, a);
      }
    }
  }

  lemma {:induction false} GrowingPrefix(seen: seq<int>, calls: seq<Call>)
    requires Growing(seen, calls)
    ensures seen <= calls[|calls| - 1].tokens
    decreases |calls|
  {
    if |calls| > 1 {
      GrowingPrefix(calls[0].tokens, calls[1..]);
    }
  }

  // What a whole run prints, and exactly when that is the prefix and the decoded answer with
  // no character repeated or skipped.
  lemma {:induction false} StreamPrintsAnswer(decode: Decoder, prefix: string, calls: seq<Call>)
    requires Homomorphism(decode) && Growing([], calls) && |calls| >= 2
    ensures Deltas(FRESH, decode, prefix, calls) == prefix + Segments(decode, calls[1..], 0, Lead(prefix))
    ensures Deltas(FRESH, decode, prefix, calls) == prefix + decode(calls[|calls| - 1].tokens) <==>
      KeepsAnchors(decode, calls[1..], 0, Lead(prefix))
  {
    hide Homomorphism, Segments, Lead, KeepsAnchors, Anchored;
    var seen := calls[0].tokens;
    FirstPrint(decode, prefix, calls[0]);
    var st := Streamer(0, 0, Lead(prefix), false);
    DeltasAreSegments(st, decode, prefix, seen, calls[1..]);
    SegmentsConserve(decode, seen, calls[1..], 0, Lead(prefix));
    var last := calls[|calls| - 1].tokens;
    assert last[0..] == last;
    var all := Segments(decode, calls[1..], 0, Lead(prefix));
    assert (prefix + all)[|prefix|..] == all;
    assert (prefix + decode(last))[|prefix|..] == decode(last);
  }

  lemma {:induction false} FirstPrint(decode: Decoder, prefix: string, call: Call)
    requires Homomorphism(decode)
    ensures Printable(FRESH, decode, prefix, call) == (Streamer(0, 0, Lead(prefix), false), prefix)
  {
    assert prefix + "" == prefix;
  }

  // Every token decodes to one letter.
  function Letters(tokens: seq<int>): string {
    seq(|tokens|, _ => 'a')
  }

  // A prefix that ends in a blank puts a blank before an answer that has none: the prefix " "
  // and the answer "a" print one blank too many.
  lemma {:induction false} BlankPrintedTwice()
    ensures var calls := [Call([], false), Call([1], true)];
      && Homomorphism(Letters) && Growing([], calls) && Letters([1]) == "a"
      && Deltas(FRESH, Letters, " ", calls) == "  a"
  {
    var calls := [Call([], false), Call([1], true)];
    assert calls[1..] == [Call([1], true)] && calls[1..][1..] == [];
    StreamPrintsAnswer(Letters, " ", calls);
    assert Letters([1]) == "a" && [1][0..] == [1];
    assert Lead(" ") == 1 && Lead("a") == 0 && LStrip("a") == "a";
    assert Spaces(1) == " ";
    assert Anchored(1, "a") == " a";
    assert Segments(Letters, [], 1, -1) == "";
    assert Segments(Letters, calls[1..], 0, 1) == " a" + "";
    assert " " + " a" == "  a";
  }

  // A first call that is already the finishing one prints the prefix only: the answer is
  // lost unless it is empty.
  lemma {:induction false} FinishingFirstCall(decode: Decoder, prefix: string, tokens: seq<int>)
    requires Homomorphism(decode)
    ensures var out := Deltas(FRESH, decode, prefix, [Call(tokens, true)]);
      out == prefix && (out == prefix + decode(tokens) <==> decode(tokens) == "")
  {
    hide Homomorphism, Lead;
    FirstPrint(decode, prefix, Call(tokens, true));
    assert [Call(tokens, true)][1..] == [];
    assert prefix + "" == prefix;
    assert |prefix + decode(tokens)| == |prefix| + |decode(tokens)|;
  }

  // -------------------------------------------------------------------- the object

  class InferStreamer {
    const decode: Decoder
    const prefix: string
    var cacheIdx: nat
    var printIdx: nat
    var firstNumSpace: int
    var firstToken: bool

    function Abs(): Streamer
      reads this
    {
      Streamer(cacheIdx, printIdx, firstNumSpace, firstToken)
    }

    constructor (decode: Decoder, prefix: string)
      ensures Abs() == FRESH && this.decode == decode && this.prefix == prefix
    {
      this.decode, this.prefix := decode, prefix;
      cacheIdx, printIdx, firstNumSpace, firstToken := 0, 0, -1, true;
    }

    method AlignBlankSuffix(response: string) returns (aligned: string)
      requires firstNumSpace >= -1
      modifies this
      ensures (Abs(), aligned) == AlignBlank(old(Abs()), response) && firstNumSpace >= -1
    {
      hide Spaces;
      aligned := response;
      var curNumSpace := Lead(response);
      if firstNumSpace == -1 {
        firstNumSpace := curNumSpace;
      } else if curNumSpace < firstNumSpace {
        aligned := Spaces(firstNumSpace - curNumSpace) + response;
      } else if curNumSpace > firstNumSpace {
        aligned := response[curNumSpace - firstNumSpace..];
      }
    }

    method Respond(response: string, isFinished: bool, tokenLen: nat) returns (printable: string)
      requires firstNumSpace >= -1
      modifies this
      ensures (Abs(), printable) == GetResponse(old(Abs()), response, isFinished, tokenLen) && firstNumSpace >= -1
    {
      if firstToken {
        printable := response;
        firstToken := false;
      } else if EndsLine(response) || isFinished {
        printable := Slice(response, printIdx, |response|);
        cacheIdx := cacheIdx + tokenLen;
        firstNumSpace := -1;
        printIdx := 0;
      } else if |response| > 0 && IsChineseChar(response[|response| - 1]) {
        printable := Slice(response, printIdx, |response|);
        printIdx := printIdx + |printable|;
      } else {
        printable := Slice(response, printIdx, AfterLastSpace(response));
        printIdx := printIdx + |printable|;
      }
    }

    method GetPrintableText(rawTokens: seq<int>, isFinished: bool) returns (text: string)
      requires firstNumSpace >= -1
      modifies this
      ensures (Abs(), text) == Printable(old(Abs()), decode, prefix, Call(rawTokens, isFinished)) && firstNumSpace >= -1
    {
      hide AlignBlank, GetResponse;
      var raw := Cached(rawTokens, cacheIdx);
      if firstToken {
        raw := [];
      }
      var response := (if firstToken then prefix else "") + decode(raw);
      response := AlignBlankSuffix(response);
      text := Respond(response, isFinished, |raw|);
    }
  }

  lemma {:induction false} NextDelta(st: Streamer, decode: Decoder, prefix: string, calls: seq<Call>, i: nat)
    requires st.firstNumSpace >= -1 && i < |calls| && Printable(st, decode, prefix, calls[i]).0.firstNumSpace >= -1
    ensures var (st', text) := Printable(st, decode, prefix, calls[i]);
      Deltas(st, decode, prefix, calls[i..]) == text + Deltas(st', decode, prefix, calls[i + 1..])
  {
    hide Printable;
    assert calls[i..][0] == calls[i] && calls[i..][1..] == calls[i + 1..];
  }

  lemma {:induction false} NoDelta(st: Streamer, decode: Decoder, prefix: string)
    requires st.firstNumSpace >= -1
    ensures Deltas(st, decode, prefix, []) == ""
  {
  }

  // A row of a streamed batch: every delta, in order.
  method StreamRow(decode: Decoder, prefix: string, calls: seq<Call>) returns (output: string)
    ensures output == Deltas(FRESH, decode, prefix, calls)
  {
    hide Printable, Deltas;
    var streamer := new InferStreamer(decode, prefix);
    output := "";
    ghost var all := Deltas(FRESH, decode, prefix, calls);
    assert calls[0..] == calls && "" + all == all;
    for i := 0 to |calls|
      invariant fresh(streamer) && streamer.decode == decode && streamer.prefix == prefix
      invariant streamer.firstNumSpace >= -1
      invariant output + Deltas(streamer.Abs(), decode, prefix, calls[i..]) == all
    {
      ghost var st := streamer.Abs();
      var text := streamer.GetPrintableText(calls[i].tokens, calls[i].isFinished);
      NextDelta(st, decode, prefix, calls, i);
      Associate(output, text, Deltas(streamer.Abs(), decode, prefix, calls[i + 1..]));
      output := output + text;
    }
    assert calls[|calls|..] == [] && output + "" == output;
    NoDelta(streamer.Abs(), decode, prefix);
  }
}
