// The per-row loop of a streamed batch: swift/infer_engine/transformers_engine.py, lines
// 289-371, and _get_finish_reason of swift/infer_engine/infer_engine.py, lines 283-291.
//
// A pass of the loop sees, for each row, the ids generated so far without padding, and
// whether an EOS token or a stop word has ended it.  The last pass is the one made after the
// token iterator has stopped.
module StreamRows {
  import opened Options
  import opened StreamText

  datatype Reason = Length | Stop

  datatype Chunk = Chunk(row: nat, text: string, reason: Option<Reason>)

  datatype Row = Row(decode: Decoder, prefix: string)

  datatype View = View(tokens: seq<int>, stopped: bool)

  datatype Pass = Pass(views: seq<View>, generated: int, last: bool)

  type Printing = s: Streamer | s.firstNumSpace >= -1 witness FRESH

  datatype RowState = RowState(finished: bool, streamer: Printing)

  const START := RowState(false, FRESH)

  // _get_finish_reason
  function FinishReason(maxTokens: int, completion: int, finished: bool): Option<Reason> {
    if !finished then None else if completion >= maxTokens then Some(Length) else Some(Stop)
  }

  // One row in one pass (lines 323-369).
  function RowStep(i: nat, row: Row, st: RowState, view: View, generated: int, last: bool, maxTokens: int):
    (RowState, Option<Chunk>)
  {
    if st.finished then (st, None)
    else
      var finished := last || view.stopped;
      var (streamer, text) := Printable(st.streamer, row.decode, row.prefix, Call(view.tokens, finished));
      var reason := if view.stopped then Some(Stop) else FinishReason(maxTokens, generated, finished);
      (RowState(finished, streamer), if text == "" && !finished then None else Some(Chunk(i, text, reason)))
  }

  predicate Wide(passes: seq<Pass>, n: nat) {
    forall k :: 0 <= k < |passes| ==> |passes[k].views| == n
  }

  lemma {:induction false} PrinterStaysSound(st: Printing, row: Row, call: Call)
    ensures Printable(st, row.decode, row.prefix, call).0.firstNumSpace >= -1
  {
  }

  // One row on its own: its chunk, if any, in every pass.
  function RowRun(i: nat, row: Row, st: RowState, passes: seq<Pass>, maxTokens: int): seq<Option<Chunk>>
    requires forall k :: 0 <= k < |passes| ==> i < |passes[k].views|
    decreases |passes|
  {
    if passes == [] then []
    else
      var p := passes[0];
      var (st', chunk) := RowStep(i, row, st, p.views[i], p.generated, p.last, maxTokens);
      [chunk] + RowRun(i, row, st', passes[1..], maxTokens)
  }

  function Somes(cs: seq<Option<Chunk>>): seq<Chunk> {
    if cs == [] then [] else (if cs[0].Some? then [cs[0].value] else []) + Somes(cs[1..])
  }

  // ---------------------------------------------------------------------- all the rows

  function States(rows: seq<Row>, sts: seq<RowState>, p: Pass, maxTokens: int): seq<RowState>
    requires |rows| == |sts| == |p.views|
  {
    seq(|rows|, i requires 0 <= i < |rows| => RowStep(i, rows[i], sts[i], p.views[i], p.generated, p.last, maxTokens).0)
  }

  function Chunks(rows: seq<Row>, sts: seq<RowState>, p: Pass, maxTokens: int): seq<Option<Chunk>>
    requires |rows| == |sts| == |p.views|
  {
    seq(|rows|, i requires 0 <= i < |rows| => RowStep(i, rows[i], sts[i], p.views[i], p.generated, p.last, maxTokens).1)
  }

  predicate Any(cs: seq<Option<Chunk>>) {
    exists i :: 0 <= i < |cs| && cs[i].Some?
  }

  // What the generator yields: the passes in which some row has a chunk (line 370).
  function Stream(rows: seq<Row>, sts: seq<RowState>, passes: seq<Pass>, maxTokens: int): seq<seq<Option<Chunk>>>
    requires |rows| == |sts| && Wide(passes, |rows|)
    decreases |passes|
  {
    if passes == [] then []
    else
      var res := Chunks(rows, sts, passes[0], maxTokens);
      (if Any(res) then [res] else []) + Stream(rows, States(rows, sts, passes[0], maxTokens), passes[1..], maxTokens)
  }

  function Column(i: nat, emitted: seq<seq<Option<Chunk>>>): seq<Chunk>
    requires forall k :: 0 <= k < |emitted| ==> i < |emitted[k]|
  {
    if emitted == [] then []
    else (if emitted[0][i].Some? then [emitted[0][i].value] else []) + Column(i, emitted[1..])
  }

  predicate AllWide(ys: seq<seq<Option<Chunk>>>, n: nat) {
    forall k :: 0 <= k < |ys| ==> |ys[k]| == n
  }

  lemma {:induction false} StreamWidth(rows: seq<Row>, sts: seq<RowState>, passes: seq<Pass>, maxTokens: int)
    requires |rows| == |sts| && Wide(passes, |rows|)
    ensures AllWide(Stream(rows, sts, passes, maxTokens), |rows|)
    decreases |passes|
  {
    hide RowStep;
    if passes != [] {
      StreamWidth(rows, States(rows, sts, passes[0], maxTokens), passes[1..], maxTokens);
    }
  }

  // A row's chunks in a batch are those it has on its own: the other rows change nothing,
  // and dropping the passes without any chunk loses none.
  lemma {:induction false} ColumnIsRow(i: nat, rows: seq<Row>, sts: seq<RowState>, passes: seq<Pass>, maxTokens: int)
    requires |rows| == |sts| && Wide(passes, |rows|) && i < |rows|
    ensures var ys := Stream(rows, sts, passes, maxTokens);
      && AllWide(ys, |rows|)
      && Column(i, ys) == Somes(RowRun(i, rows[i], sts[i], passes, maxTokens))
    decreases |passes|
  {
    hide RowStep;
    StreamWidth(rows, sts, passes, maxTokens);
    if passes != [] {
      var res := Chunks(rows, sts, passes[0], maxTokens);
      var sts' := States(rows, sts, passes[0], maxTokens);
      var rest := Stream(rows, sts', passes[1..], maxTokens);
      ColumnIsRow(i, rows, sts', passes[1..], maxTokens);
      var own := if res[i].Some? then [res[i].value] else [];
      var run := RowRun(i, rows[i], sts'[i], passes[1..], maxTokens);
      assert RowRun(i, rows[i], sts[i], passes, maxTokens) == [res[i]] + run;
      assert ([res[i]] + run)[1..] == run;
      if Any(res) {
        assert ([res] + rest)[1..] == rest;
      } else {
        assert own == [] && [] + rest == rest && [] + Column(i, rest) == Column(i, rest);
      }
    }
  }

  // ------------------------------------------------------------------- what a row says

  predicate Finishing(i: nat, passes: seq<Pass>)
    requires forall k :: 0 <= k < |passes| ==> i < |passes[k].views|
  {
    passes != [] && (passes[0].last || passes[0].views[i].stopped || Finishing(i, passes[1..]))
  }

  // The calls made to the row's printer: up to the pass in which the row finishes.
  function Calls(i: nat, passes: seq<Pass>): seq<Call>
    requires forall k :: 0 <= k < |passes| ==> i < |passes[k].views|
  {
    if passes == [] then []
    else
      var finished := passes[0].last || passes[0].views[i].stopped;
      [Call(passes[0].views[i].tokens, finished)] + if finished then [] else Calls(i, passes[1..])
  }

  // The reason the row ends with: a stop, or the length limit reached at the last pass.
  function LastReason(i: nat, passes: seq<Pass>, maxTokens: int): Reason
    requires forall k :: 0 <= k < |passes| ==> i < |passes[k].views|
    requires Finishing(i, passes)
  {
    if passes[0].views[i].stopped then Stop
    else if passes[0].last then (if passes[0].generated >= maxTokens then Length else Stop)
    else LastReason(i, passes[1..], maxTokens)
  }

  function Texts(cs: seq<Chunk>): string {
    if cs == [] then "" else cs[0].text + Texts(cs[1..])
  }

  // Only the last chunk may carry a finish reason.
  predicate OnlyLastEnds(cs: seq<Chunk>) {
    forall k :: 0 <= k < |cs| - 1 ==> cs[k].reason.None?
  }

  predicate Closed(cs: seq<Chunk>) {
    cs != [] && cs[|cs| - 1].reason.Some?
  }

  lemma {:induction false} FinishedIsSilent(i: nat, row: Row, st: RowState, passes: seq<Pass>, maxTokens: int)
    requires forall k :: 0 <= k < |passes| ==> i < |passes[k].views|
    requires st.finished
    ensures Somes(RowRun(i, row, st, passes, maxTokens)) == []
    decreases |passes|
  {
    if passes != [] {
      FinishedIsSilent(i, row, st, passes[1..], maxTokens);
      assert RowRun(i, row, st, passes, maxTokens)[1..] == RowRun(i, row, st, passes[1..], maxTokens);
    }
  }

  lemma {:induction false} RowRunStep(i: nat, row: Row, st: RowState, passes: seq<Pass>, maxTokens: int)
    requires forall k :: 0 <= k < |passes| ==> i < |passes[k].views|
    requires passes != []
    ensures var p := passes[0];
      var (st', chunk) := RowStep(i, row, st, p.views[i], p.generated, p.last, maxTokens);
      Somes(RowRun(i, row, st, passes, maxTokens)) ==
        (if chunk.Some? then [chunk.value] else []) + Somes(RowRun(i, row, st', passes[1..], maxTokens))
  {
    hide RowStep;
    var p := passes[0];
    var (st', chunk) := RowStep(i, row, st, p.views[i], p.generated, p.last, maxTokens);
    var rest := RowRun(i, row, st', passes[1..], maxTokens);
    assert ([chunk] + rest)[1..] == rest;
  }

  lemma {:induction false} DeltasStep(st: Streamer, decode: Decoder, prefix: string, call: Call, rest: seq<Call>)
    requires st.firstNumSpace >= -1
    ensures var (st', text) := Printable(st, decode, prefix, call);
      st'.firstNumSpace >= -1 && Deltas(st, decode, prefix, [call] + rest) == text + Deltas(st', decode, prefix, rest)
  {
    assert ([call] + rest)[1..] == rest;
  }

  // What the theorem below says of the chunks of a row.
  ghost predicate Says(i: nat, row: Row, st: RowState, passes: seq<Pass>, maxTokens: int, cs: seq<Chunk>)
    requires forall k :: 0 <= k < |passes| ==> i < |passes[k].views|
  {
    && (forall k :: 0 <= k < |cs| ==> cs[k].row == i)
    && OnlyLastEnds(cs)
    && (Closed(cs) <==> Finishing(i, passes))
    && (Finishing(i, passes) ==> cs[|cs| - 1].reason == Some(LastReason(i, passes, maxTokens)))
    && Texts(cs) == Deltas(st.streamer, row.decode, row.prefix, Calls(i, passes))
  }

  lemma {:induction false} LastWords(i: nat, row: Row, st: RowState, passes: seq<Pass>, maxTokens: int)
    requires forall k :: 0 <= k < |passes| ==> i < |passes[k].views|
    requires !st.finished && passes != [] && (passes[0].last || passes[0].views[i].stopped)
    ensures Says(i, row, st, passes, maxTokens, Somes(RowRun(i, row, st, passes, maxTokens)))
  {
    hide Printable, Deltas;
    var p := passes[0];
    var (st', chunk) := RowStep(i, row, st, p.views[i], p.generated, p.last, maxTokens);
    RowRunStep(i, row, st, passes, maxTokens);
    hide RowRun, Somes;
    FinishedIsSilent(i, row, st', passes[1..], maxTokens);
    DeltasStep(st.streamer, row.decode, row.prefix, Call(p.views[i].tokens, true), []);
    NoDeltas(st'.streamer, row.decode, row.prefix);
    assert [chunk.value] + [] == [chunk.value];
    TextsCons(chunk.value, []);
  }

  lemma {:induction false} NotYet(i: nat, passes: seq<Pass>, maxTokens: int)
    requires forall k :: 0 <= k < |passes| ==> i < |passes[k].views|
    requires passes != [] && !passes[0].last && !passes[0].views[i].stopped
    ensures Finishing(i, passes) <==> Finishing(i, passes[1..])
    ensures Finishing(i, passes) ==> LastReason(i, passes, maxTokens) == LastReason(i, passes[1..], maxTokens)
    ensures Calls(i, passes) == [Call(passes[0].views[i].tokens, false)] + Calls(i, passes[1..])
  {
  }

  lemma {:induction false} MoreWords(i: nat, row: Row, st: RowState, passes: seq<Pass>, maxTokens: int)
    requires forall k :: 0 <= k < |passes| ==> i < |passes[k].views|
    requires !st.finished && passes != [] && !passes[0].last && !passes[0].views[i].stopped
    requires var p := passes[0];
      var st' := RowStep(i, row, st, p.views[i], p.generated, p.last, maxTokens).0;
      Says(i, row, st', passes[1..], maxTokens, Somes(RowRun(i, row, st', passes[1..], maxTokens)))
    ensures Says(i, row, st, passes, maxTokens, Somes(RowRun(i, row, st, passes, maxTokens)))
  {
    hide Printable, Deltas;
    var p := passes[0];
    var (st', chunk) := RowStep(i, row, st, p.views[i], p.generated, p.last, maxTokens);
    RowRunStep(i, row, st, passes, maxTokens);
    NotYet(i, passes, maxTokens);
    hide RowRun, Somes, Finishing, LastReason, Calls, Texts, OnlyLastEnds, Closed;
    var rest := Somes(RowRun(i, row, st', passes[1..], maxTokens));
    DeltasStep(st.streamer, row.decode, row.prefix, Call(p.views[i].tokens, false), Calls(i, passes[1..]));
    if chunk.Some? {
      TextsCons(chunk.value, rest);
      ClosedCons(chunk.value, rest);
    } else {
      assert [] + rest == rest;
      assert "" + Texts(rest) == Texts(rest);
    }
  }

  // A row's chunks carry its number; only the last has a finish reason, and it has one
  // exactly when the row finishes: 'stop' or 'length' by the branch that ended it.  Their
  // texts are all that the row's printer printed, so a pass without a chunk hides nothing.
  lemma {:induction false} RowSpeaksOnce(i: nat, row: Row, st: RowState, passes: seq<Pass>, maxTokens: int)
    requires forall k :: 0 <= k < |passes| ==> i < |passes[k].views|
    requires !st.finished
    ensures Says(i, row, st, passes, maxTokens, Somes(RowRun(i, row, st, passes, maxTokens)))
    decreases |passes|
  {
    if passes == [] {
      NoDeltas(st.streamer, row.decode, row.prefix);
    } else if passes[0].last || passes[0].views[i].stopped {
      LastWords(i, row, st, passes, maxTokens);
    } else {
      hide Printable, Says;
      var p := passes[0];
      var st' := RowStep(i, row, st, p.views[i], p.generated, p.last, maxTokens).0;
      RowSpeaksOnce(i, row, st', passes[1..], maxTokens);
      MoreWords(i, row, st, passes, maxTokens);
    }
  }

  lemma {:induction false} NoDeltas(st: Printing, decode: Decoder, prefix: string)
    ensures Deltas(st, decode, prefix, []) == ""
  {
  }

  lemma {:induction false} TextsCons(c: Chunk, rest: seq<Chunk>)
    ensures Texts([c] + rest) == c.text + Texts(rest)
  {
    assert ([c] + rest)[1..] == rest;
  }

  lemma {:induction false} ClosedCons(c: Chunk, rest: seq<Chunk>)
    requires c.reason.None? && OnlyLastEnds(rest)
    ensures OnlyLastEnds([c] + rest) && (Closed([c] + rest) <==> Closed(rest))
    ensures rest != [] ==> ([c] + rest)[|rest|] == rest[|rest| - 1]
  {
  }

  // ----------------------------------------------------------- the whole answer of a row

  // Generation only appends to what a row has produced.
  predicate TokensGrow(i: nat, seen: seq<int>, passes: seq<Pass>)
    requires forall k :: 0 <= k < |passes| ==> i < |passes[k].views|
    decreases |passes|
  {
    passes == [] || (seen <= passes[0].views[i].tokens && TokensGrow(i, passes[0].views[i].tokens, passes[1..]))
  }

  lemma {:induction false} CallsGrow(i: nat, seen: seq<int>, passes: seq<Pass>)
    requires forall k :: 0 <= k < |passes| ==> i < |passes[k].views|
    requires TokensGrow(i, seen, passes) && Finishing(i, passes)
    ensures Growing(seen, Calls(i, passes))
    decreases |passes|
  {
    if !passes[0].last && !passes[0].views[i].stopped {
      CallsGrow(i, passes[0].views[i].tokens, passes[1..]);
      assert Calls(i, passes)[1..] == Calls(i, passes[1..]);
    }
  }

  // The texts of a finishing row are the prefix and the decoded answer, no character twice
  // or skipped, exactly when its segments keep their leading blanks.
  lemma {:induction false} RowTellsAnswer(i: nat, row: Row, passes: seq<Pass>, maxTokens: int)
    requires forall k :: 0 <= k < |passes| ==> i < |passes[k].views|
    requires Homomorphism(row.decode) && TokensGrow(i, [], passes) && Finishing(i, passes) && |Calls(i, passes)| >= 2
    ensures var calls := Calls(i, passes);
      var cs := Somes(RowRun(i, row, START, passes, maxTokens));
      Texts(cs) == row.prefix + row.decode(calls[|calls| - 1].tokens) <==>
        KeepsAnchors(row.decode, calls[1..], 0, Lead(row.prefix))
  {
    hide Homomorphism, Deltas, RowRun, Somes, Texts, Calls, KeepsAnchors, Lead, Growing, Segments, Printable;
    CallsGrow(i, [], passes);
    RowSpeaksOnce(i, row, START, passes, maxTokens);
    StreamPrintsAnswer(row.decode, row.prefix, Calls(i, passes));
  }

  // -------------------------------------------------------------------------- the loops

  // One pass: the latches and the printers of the rows are updated in place.
  method StreamPass(rows: seq<Row>, isFinished: array<bool>, streamers: array<Printing>, p: Pass, maxTokens: int)
    returns (res: seq<Option<Chunk>>)
    requires |rows| == isFinished.Length == streamers.Length == |p.views|
    modifies isFinished, streamers
    ensures Latches(isFinished[..], streamers[..]) ==
      States(rows, Latches(old(isFinished[..]), old(streamers[..])), p, maxTokens)
    ensures res == Chunks(rows, Latches(old(isFinished[..]), old(streamers[..])), p, maxTokens)
  {
    hide Printable;
    ghost var sts := Latches(isFinished[..], streamers[..]);
    res := [];
    for i := 0 to |rows|
      invariant |res| == i
      invariant forall k :: 0 <= k < i ==>
        (RowState(isFinished[k], streamers[k]), res[k]) ==
          RowStep(k, rows[k], sts[k], p.views[k], p.generated, p.last, maxTokens)
      invariant forall k :: i <= k < |rows| ==> isFinished[k] == old(isFinished[k]) && streamers[k] == old(streamers[k])
    {
      if isFinished[i] {
        res := res + [None];
      } else {
        var view := p.views[i];
        isFinished[i] := p.last || view.stopped;
        PrinterStaysSound(streamers[i], rows[i], Call(view.tokens, isFinished[i]));
        var (streamer, text) := Printable(streamers[i], rows[i].decode, rows[i].prefix, Call(view.tokens, isFinished[i]));
        streamers[i] := streamer;
        if text == "" && !isFinished[i] {
          res := res + [None];
        } else {
          var reason := FinishReason(maxTokens, p.generated, isFinished[i]);
          if view.stopped {
            reason := Some(Stop);
          }
          res := res + [Some(Chunk(i, text, reason))];
        }
      }
    }
  }

  ghost function Latches(finished: seq<bool>, streamers: seq<Printing>): seq<RowState>
    requires |finished| == |streamers|
  {
    seq(|finished|, i requires 0 <= i < |finished| => RowState(finished[i], streamers[i]))
  }

  method InferStream(rows: seq<Row>, passes: seq<Pass>, maxTokens: int) returns (emitted: seq<seq<Option<Chunk>>>)
    requires Wide(passes, |rows|)
    ensures emitted == Stream(rows, seq(|rows|, _ => START), passes, maxTokens)
  {
    hide RowStep, States, Chunks;
    var isFinished := new bool[|rows|](_ => false);
    var streamers := new Printing[|rows|](_ => FRESH);
    emitted := [];
    ghost var all := Stream(rows, seq(|rows|, _ => START), passes, maxTokens);
    assert Latches(isFinished[..], streamers[..]) == seq(|rows|, _ => START);
    assert [] + all == all;
    for n := 0 to |passes|
      invariant fresh(isFinished) && fresh(streamers)
      invariant emitted + Stream(rows, Latches(isFinished[..], streamers[..]), passes[n..], maxTokens) == all
    {
      assert passes[n..][0] == passes[n] && passes[n..][1..] == passes[n + 1..];
      ghost var sts := Latches(isFinished[..], streamers[..]);
      ghost var sofar := emitted;
      var res := StreamPass(rows, isFinished, streamers, passes[n], maxTokens);
      ghost var rest := Stream(rows, Latches(isFinished[..], streamers[..]), passes[n + 1..], maxTokens);
      if Any(res) {
        emitted := emitted + [res];
        assert sofar + ([res] + rest) == emitted + rest;
      } else {
        assert [] + rest == rest;
      }
    }
    assert passes[|passes|..] == [] && emitted + [] == emitted;
  }
}
