// Where each printed piece of a streamed answer ends, with no reference to the printer's state.
module StreamCuts {
  import opened Sequences
  import opened StreamText

  // ------------------------------------------------------------------------- one call

  // What is shown of a text that goes on: all of it when it ends in a Chinese character,
  // otherwise no incomplete word: nothing new, or up to the last blank.
  predicate CutRight(shown: string, now: string, text: string) {
    && shown <= now <= text
    && if text != "" && IsChineseChar(text[|text| - 1]) then now == text
       else
         && (now == shown || now[|now| - 1] == ' ')
         && forall i :: |now| <= i < |text| ==> text[i] != ' '
  }

  lemma {:induction false} ResponseCut(st: Streamer, response: string, n: nat)
    requires !st.firstToken && st.printIdx <= |response| && !EndsLine(response)
    ensures var (st', out) := GetResponse(st, response, false, n);
      && st.printIdx <= st'.printIdx <= |response|
      && out == response[st.printIdx..st'.printIdx]
      && CutRight(response[..st.printIdx], response[..st'.printIdx], response)
  {
  }

  // One unfinished call after the first, on a text that does not end a line.
  lemma {:induction false} CallCut(st: Streamer, decode: Decoder, prefix: string, seen: seq<int>, call: Call)
    requires Homomorphism(decode) && Midway(st, decode, seen) && seen <= call.tokens && !call.isFinished
    requires !EndsLine(decode(call.tokens[st.cacheIdx..]))
    ensures var text := decode(call.tokens[st.cacheIdx..]);
      var aligned := Anchored(if st.firstNumSpace == -1 then Lead(text) else st.firstNumSpace, text);
      var (st', out) := Printable(st, decode, prefix, call);
      && st.printIdx <= st'.printIdx <= |aligned|
      && out == aligned[st.printIdx..st'.printIdx]
      && CutRight(aligned[..st.printIdx], aligned[..st'.printIdx], aligned)
  {
    hide Anchored, Lead, LStrip, AlignBlank, GetResponse, CutRight, EndsLine, Homomorphism, Midway;
    MidwayFacts(st, decode, seen);
    var text := decode(call.tokens[st.cacheIdx..]);
    var a := if st.firstNumSpace == -1 then Lead(text) else st.firstNumSpace;
    OnePrint(st, decode, prefix, seen, call);
    assert "" + text == text;
    AlignedIsAnchored(st, text);
    AnchoredEndsLine(a, text);
    ResponseCut(st.(firstNumSpace := a), Anchored(a, text), |call.tokens| - st.cacheIdx);
  }

  // --------------------------------------------------------------------------- a whole run

  function DeltaList(st: Streamer, decode: Decoder, prefix: string, calls: seq<Call>): seq<string>
    requires st.firstNumSpace >= -1
    decreases |calls|
  {
    if calls == [] then []
    else
      var (st', out) := Printable(st, decode, prefix, calls[0]);
      [out] + DeltaList(st', decode, prefix, calls[1..])
  }

  lemma {:induction false} DeltasAreJoined(st: Streamer, decode: Decoder, prefix: string, calls: seq<Call>)
    requires st.firstNumSpace >= -1
    ensures Deltas(st, decode, prefix, calls) == Concat(DeltaList(st, decode, prefix, calls))
    decreases |calls|
  {
    if calls != [] {
      var (st', out) := Printable(st, decode, prefix, calls[0]);
      DeltasAreJoined(st', decode, prefix, calls[1..]);
    }
  }

  // `shown` is what has been shown of the segment in progress, which starts at token c and
  // whose anchor is known unless it is -1.  A line that ends, or the end of the answer, shows
  // the whole segment; any other call cuts the text right.
  ghost predicate Shows(decode: Decoder, calls: seq<Call>, deltas: seq<string>, c: nat, anchor: int, shown: string)
    requires anchor >= -1
    decreases |calls|
  {
    |deltas| == |calls| && (calls == [] ||
      var text := decode(Cached(calls[0].tokens, c));
      var a := if anchor == -1 then Lead(text) else anchor;
      var now := shown + deltas[0];
      if EndsLine(text) || calls[0].isFinished then
        now == Anchored(a, text) && Shows(decode, calls[1..], deltas[1..], |calls[0].tokens|, -1, "")
      else
        CutRight(shown, now, Anchored(a, text)) && Shows(decode, calls[1..], deltas[1..], c, a, now))
  }

  // The part of the segment in progress that is behind the print position.
  function ShownSoFar(st: Streamer, decode: Decoder, seen: seq<int>): string
    requires st.firstNumSpace >= -1
  {
    if st.firstNumSpace == -1 then ""
    else
      var text := Anchored(st.firstNumSpace, decode(Cached(seen, st.cacheIdx)));
      if st.printIdx <= |text| then text[..st.printIdx] else text
  }

  lemma {:induction false} UpTo(s: string, t: string, i: nat, k: nat)
    requires s <= t && i <= |s| && i <= k <= |t|
    ensures s[..i] == t[..i] && t[..i] + t[i..k] == t[..k] && t[..i] + t[i..] == t
  {
  }

  lemma {:induction false} ShownGrows(st: Streamer, decode: Decoder, seen: seq<int>, call: Call)
    requires Homomorphism(decode) && Midway(st, decode, seen) && seen <= call.tokens
    ensures var text := decode(call.tokens[st.cacheIdx..]);
      var aligned := Anchored(if st.firstNumSpace == -1 then Lead(text) else st.firstNumSpace, text);
      st.printIdx <= |aligned| && ShownSoFar(st, decode, seen) == aligned[..st.printIdx]
  {
    hide Anchored, Lead, Homomorphism;
    DecodeGrows(decode, seen, call.tokens, st.cacheIdx);
    if st.firstNumSpace >= 0 {
      AnchoredGrows(st.firstNumSpace, decode(seen[st.cacheIdx..]), decode(call.tokens[|seen|..]));
    }
  }

  lemma {:induction false} RunShows(st: Streamer, decode: Decoder, prefix: string, seen: seq<int>, calls: seq<Call>)
    requires Homomorphism(decode) && Midway(st, decode, seen) && Growing(seen, calls)
    ensures st.firstNumSpace >= -1
    ensures Shows(decode, calls, DeltaList(st, decode, prefix, calls), st.cacheIdx, st.firstNumSpace, ShownSoFar(st, decode, seen))
    decreases |calls|
  {
    hide Anchored, Lead, EndsLine, Homomorphism, Midway, Printable, CutRight, ShownSoFar;
    var call := calls[0];
    MidwayFacts(st, decode, seen);
    OnePrint(st, decode, prefix, seen, call);
    ShownGrows(st, decode, seen, call);
    var (st', out) := Printable(st, decode, prefix, call);
    MidwayFacts(st', decode, call.tokens);
    var text := decode(call.tokens[st.cacheIdx..]);
    var a := if st.firstNumSpace == -1 then Lead(text) else st.firstNumSpace;
    var aligned := Anchored(a, text);
    UpTo(aligned, aligned, st.printIdx, |aligned|);
    var deltas := DeltaList(st, decode, prefix, calls);
    assert deltas[0] == out && deltas[1..] == DeltaList(st', decode, prefix, calls[1..]);
    if EndsLine(text) || call.isFinished {
      NothingShown(st', decode, call.tokens);
    } else {
      CallCut(st, decode, prefix, seen, call);
      UpTo(aligned, aligned, st.printIdx, st'.printIdx);
      ShownNow(st', decode, call.tokens);
    }
    if |calls| > 1 {
      RunShows(st', decode, prefix, call.tokens, calls[1..]);
    } else {
      NoMoreShown(decode, calls[1..], deltas[1..], st'.cacheIdx, st'.firstNumSpace, ShownSoFar(st', decode, call.tokens));
    }
  }

  lemma {:induction false} NothingShown(st: Streamer, decode: Decoder, seen: seq<int>)
    requires st.firstNumSpace == -1
    ensures ShownSoFar(st, decode, seen) == ""
  {
  }

  lemma {:induction false} ShownNow(st: Streamer, decode: Decoder, seen: seq<int>)
    requires st.firstNumSpace >= 0 && st.cacheIdx <= |seen|
    requires st.printIdx <= |Anchored(st.firstNumSpace, decode(seen[st.cacheIdx..]))|
    ensures ShownSoFar(st, decode, seen) == Anchored(st.firstNumSpace, decode(seen[st.cacheIdx..]))[..st.printIdx]
  {
  }

  lemma {:induction false} NoMoreShown(decode: Decoder, calls: seq<Call>, deltas: seq<string>, c: nat, anchor: int, shown: string)
    requires calls == [] && deltas == [] && anchor >= -1
    ensures Shows(decode, calls, deltas, c, anchor, shown)
  {
  }

  // There is only one place to cut, so only one list of pieces.
  lemma {:induction false} OneCut(shown: string, a: string, b: string, text: string)
    requires CutRight(shown, a, text) && CutRight(shown, b, text)
    ensures a == b
  {
    assert a == text[..|a|] && b == text[..|b|];
  }

  lemma {:induction false} SamePiece(shown: string, a: string, b: string)
    requires shown + a == shown + b
    ensures a == b
  {
    assert (shown + a)[|shown|..] == a && (shown + b)[|shown|..] == b;
  }

  lemma {:induction false} ShowsOnce(decode: Decoder, calls: seq<Call>, x: seq<string>, y: seq<string>, c: nat, anchor: int,
                                     shown: string)
    requires anchor >= -1 && Shows(decode, calls, x, c, anchor, shown) && Shows(decode, calls, y, c, anchor, shown)
    ensures x == y
    decreases |calls|
  {
    hide CutRight, Anchored, Lead, EndsLine;
    if calls != [] {
      var text := decode(Cached(calls[0].tokens, c));
      var a := if anchor == -1 then Lead(text) else anchor;
      if EndsLine(text) || calls[0].isFinished {
        SamePiece(shown, x[0], y[0]);
        ShowsOnce(decode, calls[1..], x[1..], y[1..], |calls[0].tokens|, -1, "");
      } else {
        OneCut(shown, shown + x[0], shown + y[0], Anchored(a, text));
        SamePiece(shown, x[0], y[0]);
        ShowsOnce(decode, calls[1..], x[1..], y[1..], c, a, shown + x[0]);
      }
      assert x == [x[0]] + x[1..] && y == [y[0]] + y[1..];
    }
  }

  // A run's pieces are the prefix and then, and only then, those that show each segment as it
  // should be: whole words and Chinese characters while it goes on, all of it when its line or
  // the answer ends.
  lemma {:induction false} PiecesExactly(decode: Decoder, prefix: string, calls: seq<Call>, deltas: seq<string>)
    requires Homomorphism(decode) && Growing([], calls) && |calls| >= 2
    ensures DeltaList(FRESH, decode, prefix, calls) == deltas <==>
      deltas != [] && deltas[0] == prefix && Shows(decode, calls[1..], deltas[1..], 0, Lead(prefix), "")
  {
    hide Homomorphism, Shows, Lead, Printable;
    var st := Streamer(0, 0, Lead(prefix), false);
    var seen := calls[0].tokens;
    FirstPrint(decode, prefix, calls[0]);
    MidwayAtFirst(decode, prefix, seen);
    RunShows(st, decode, prefix, seen, calls[1..]);
    assert ShownSoFar(st, decode, seen) == "";
    var all := DeltaList(FRESH, decode, prefix, calls);
    assert all == [prefix] + DeltaList(st, decode, prefix, calls[1..]);
    assert all[1..] == DeltaList(st, decode, prefix, calls[1..]);
    if deltas != [] && deltas[0] == prefix && Shows(decode, calls[1..], deltas[1..], 0, Lead(prefix), "") {
      ShowsOnce(decode, calls[1..], all[1..], deltas[1..], 0, Lead(prefix), "");
      assert deltas == [deltas[0]] + deltas[1..];
    }
  }

  lemma {:induction false} MidwayAtFirst(decode: Decoder, prefix: string, seen: seq<int>)
    ensures Midway(Streamer(0, 0, Lead(prefix), false), decode, seen)
  {
  }
}
