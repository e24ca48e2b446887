// Which chunk each row of a streamed batch has in each pass, and which lists are yielded.
module StreamChunks {
  import opened Options
  import opened StreamText
  import opened StreamCuts
  import opened StreamRows

  // The chunk that belongs to a printed text: none for an empty one, unless the row finishes.
  predicate Carries(chunk: Option<Chunk>, i: nat, text: string, finished: bool, reason: Option<Reason>) {
    if text == "" && !finished then chunk.None?
    else chunk.Some? && chunk.value.row == i && chunk.value.text == text && chunk.value.reason == reason
  }

  lemma {:induction false} CallsBound(i: nat, passes: seq<Pass>)
    requires forall k :: 0 <= k < |passes| ==> i < |passes[k].views|
    ensures |Calls(i, passes)| <= |passes|
    ensures forall k :: 0 <= k < |Calls(i, passes)| ==> Calls(i, passes)[k].tokens == passes[k].views[i].tokens
    ensures forall k :: 0 <= k < |Calls(i, passes)| - 1 ==> !Calls(i, passes)[k].isFinished
    ensures Calls(i, passes) != [] ==> (Calls(i, passes)[|Calls(i, passes)| - 1].isFinished <==> Finishing(i, passes))
  {
    if passes != [] && !passes[0].last && !passes[0].views[i].stopped {
      CallsBound(i, passes[1..]);
    }
  }

  lemma {:induction false} DeltaCount(st: Streamer, decode: Decoder, prefix: string, calls: seq<Call>)
    requires st.firstNumSpace >= -1
    ensures |DeltaList(st, decode, prefix, calls)| == |calls|
    decreases |calls|
  {
    if calls != [] {
      DeltaCount(Printable(st, decode, prefix, calls[0]).0, decode, prefix, calls[1..]);
    }
  }

  lemma {:induction false} SilentFrom(i: nat, row: Row, st: RowState, passes: seq<Pass>, maxTokens: int)
    requires forall k :: 0 <= k < |passes| ==> i < |passes[k].views|
    requires st.finished
    ensures |RowRun(i, row, st, passes, maxTokens)| == |passes|
    ensures forall k :: 0 <= k < |passes| ==> RowRun(i, row, st, passes, maxTokens)[k].None?
    decreases |passes|
  {
    if passes != [] {
      SilentFrom(i, row, st, passes[1..], maxTokens);
    }
  }

  // What a row's printer prints at pass k, and whether the row finishes there.
  ghost predicate ChunkOfPass(i: nat, chunk: Option<Chunk>, texts: seq<string>, passes: seq<Pass>, k: nat, maxTokens: int)
    requires forall m :: 0 <= m < |passes| ==> i < |passes[m].views|
    requires k < |passes|
  {
    var calls := Calls(i, passes);
    if k >= |calls| then chunk.None?
    else
      && |texts| == |calls|
      && Carries(chunk, i, texts[k], calls[k].isFinished,
           if calls[k].isFinished && Finishing(i, passes) then Some(LastReason(i, passes, maxTokens)) else None)
  }

  lemma {:induction false} FirstChunk(i: nat, row: Row, st: RowState, passes: seq<Pass>, maxTokens: int)
    requires forall k :: 0 <= k < |passes| ==> i < |passes[k].views|
    requires !st.finished && passes != []
    ensures var p := passes[0];
      var texts := DeltaList(st.streamer, row.decode, row.prefix, Calls(i, passes));
      ChunkOfPass(i, RowStep(i, row, st, p.views[i], p.generated, p.last, maxTokens).1, texts, passes, 0, maxTokens)
  {
    hide Printable;
    var calls := Calls(i, passes);
    PrinterStaysSound(st.streamer, row, calls[0]);
    FirstDelta(st.streamer, row.decode, row.prefix, calls);
    DeltaCount(st.streamer, row.decode, row.prefix, calls);
  }

  lemma {:induction false} FirstDelta(st: Streamer, decode: Decoder, prefix: string, calls: seq<Call>)
    requires st.firstNumSpace >= -1 && calls != []
    ensures var (st', text) := Printable(st, decode, prefix, calls[0]);
      st'.firstNumSpace >= -1 && DeltaList(st, decode, prefix, calls) == [text] + DeltaList(st', decode, prefix, calls[1..])
  {
  }

  lemma {:induction false} LaterChunk(i: nat, row: Row, st: RowState, passes: seq<Pass>, k: nat, chunk: Option<Chunk>, maxTokens: int)
    requires forall m :: 0 <= m < |passes| ==> i < |passes[m].views|
    requires !st.finished && 0 < k < |passes| && !passes[0].last && !passes[0].views[i].stopped
    requires var p := passes[0];
      var st' := RowStep(i, row, st, p.views[i], p.generated, p.last, maxTokens).0;
      ChunkOfPass(i, chunk, DeltaList(st'.streamer, row.decode, row.prefix, Calls(i, passes[1..])), passes[1..], k - 1, maxTokens)
    ensures ChunkOfPass(i, chunk, DeltaList(st.streamer, row.decode, row.prefix, Calls(i, passes)), passes, k, maxTokens)
  {
    hide Printable;
    var calls := Calls(i, passes);
    NotYet(i, passes, maxTokens);
    hide Finishing, LastReason, Calls;
    assert calls[1..] == Calls(i, passes[1..]);
    FirstDelta(st.streamer, row.decode, row.prefix, calls);
    DeltaCount(st.streamer, row.decode, row.prefix, calls);
  }

  // Pass by pass: a row that has not finished has a chunk with what its printer printed, and
  // its finish reason if it finishes there; it has none when nothing was printed and it goes
  // on, and none after it has finished.
  lemma {:induction false} RowChunks(i: nat, row: Row, st: RowState, passes: seq<Pass>, maxTokens: int)
    requires forall k :: 0 <= k < |passes| ==> i < |passes[k].views|
    requires !st.finished
    ensures var (run, texts) := (RowRun(i, row, st, passes, maxTokens), DeltaList(st.streamer, row.decode, row.prefix, Calls(i, passes)));
      |run| == |passes| && forall k :: 0 <= k < |passes| ==> ChunkOfPass(i, run[k], texts, passes, k, maxTokens)
    decreases |passes|
  {
    hide ChunkOfPass, Printable, Calls, DeltaList;
    if passes != [] {
      var p := passes[0];
      var (st', chunk) := RowStep(i, row, st, p.views[i], p.generated, p.last, maxTokens);
      var texts := DeltaList(st.streamer, row.decode, row.prefix, Calls(i, passes));
      var run, later := RowRun(i, row, st, passes, maxTokens), RowRun(i, row, st', passes[1..], maxTokens);
      assert run == [chunk] + later;
      FirstChunk(i, row, st, passes, maxTokens);
      if p.last || p.views[i].stopped {
        SilentFrom(i, row, st', passes[1..], maxTokens);
      } else {
        RowChunks(i, row, st', passes[1..], maxTokens);
      }
      forall k | 0 <= k < |passes| ensures ChunkOfPass(i, run[k], texts, passes, k, maxTokens) {
        if k > 0 {
          assert run[k] == later[k - 1];
          if p.last || p.views[i].stopped {
            NoneAfter(i, run[k], texts, passes, k, maxTokens);
          } else {
            LaterChunk(i, row, st, passes, k, run[k], maxTokens);
          }
        }
      }
    }
  }

  lemma {:induction false} NoneAfter(i: nat, chunk: Option<Chunk>, texts: seq<string>, passes: seq<Pass>, k: nat, maxTokens: int)
    requires forall m :: 0 <= m < |passes| ==> i < |passes[m].views|
    requires 0 < k < |passes| && (passes[0].last || passes[0].views[i].stopped) && chunk.None?
    ensures ChunkOfPass(i, chunk, texts, passes, k, maxTokens)
  {
  }

  // ------------------------------------------------------------------------- the batch

  // The lists of all passes: row by row what each row has on its own.
  function Grid(rows: seq<Row>, sts: seq<RowState>, passes: seq<Pass>, maxTokens: int): seq<seq<Option<Chunk>>>
    requires |rows| == |sts| && Wide(passes, |rows|)
  {
    seq(|passes|, k requires 0 <= k < |passes| =>
      seq(|rows|, i requires 0 <= i < |rows| =>
        RunLength(i, rows[i], sts[i], passes, maxTokens);
        RowRun(i, rows[i], sts[i], passes, maxTokens)[k]))
  }

  lemma {:induction false} RunLength(i: nat, row: Row, st: RowState, passes: seq<Pass>, maxTokens: int)
    requires forall k :: 0 <= k < |passes| ==> i < |passes[k].views|
    ensures |RowRun(i, row, st, passes, maxTokens)| == |passes|
    decreases |passes|
  {
    hide RowStep;
    if passes != [] {
      var p := passes[0];
      RunLength(i, row, RowStep(i, row, st, p.views[i], p.generated, p.last, maxTokens).0, passes[1..], maxTokens);
    }
  }

  // The lists in which some row has a chunk.
  function WithChunk(lists: seq<seq<Option<Chunk>>>): seq<seq<Option<Chunk>>> {
    if lists == [] then [] else (if exists i :: 0 <= i < |lists[0]| && lists[0][i].Some? then [lists[0]] else []) + WithChunk(lists[1..])
  }

  lemma {:induction false} GridStep(rows: seq<Row>, sts: seq<RowState>, passes: seq<Pass>, maxTokens: int)
    requires |rows| == |sts| && Wide(passes, |rows|) && passes != []
    ensures Grid(rows, sts, passes, maxTokens) ==
      [Chunks(rows, sts, passes[0], maxTokens)] + Grid(rows, States(rows, sts, passes[0], maxTokens), passes[1..], maxTokens)
  {
    hide RowStep;
    var p, sts' := passes[0], States(rows, sts, passes[0], maxTokens);
    var res, more := Chunks(rows, sts, p, maxTokens), Grid(rows, sts', passes[1..], maxTokens);
    var grid := Grid(rows, sts, passes, maxTokens);
    forall k | 0 <= k < |passes| ensures grid[k] == ([res] + more)[k] {
      forall i | 0 <= i < |rows| ensures grid[k][i] == ([res] + more)[k][i] {
        RunLength(i, rows[i], sts[i], passes, maxTokens);
        RunLength(i, rows[i], sts'[i], passes[1..], maxTokens);
        var run := RowRun(i, rows[i], sts[i], passes, maxTokens);
        assert run == [res[i]] + RowRun(i, rows[i], sts'[i], passes[1..], maxTokens);
      }
    }
  }

  // What is yielded: the lists of the passes, in order, without those that hold no chunk.
  lemma {:induction false} StreamIsGrid(rows: seq<Row>, sts: seq<RowState>, passes: seq<Pass>, maxTokens: int)
    requires |rows| == |sts| && Wide(passes, |rows|)
    ensures Stream(rows, sts, passes, maxTokens) == WithChunk(Grid(rows, sts, passes, maxTokens))
    decreases |passes|
  {
    hide RowStep, Grid;
    if passes == [] {
      EmptyGrid(rows, sts, passes, maxTokens);
    } else {
      GridStep(rows, sts, passes, maxTokens);
      var res, sts' := Chunks(rows, sts, passes[0], maxTokens), States(rows, sts, passes[0], maxTokens);
      StreamIsGrid(rows, sts', passes[1..], maxTokens);
      var more := Grid(rows, sts', passes[1..], maxTokens);
      assert ([res] + more)[0] == res && ([res] + more)[1..] == more;
    }
  }

  lemma {:induction false} EmptyGrid(rows: seq<Row>, sts: seq<RowState>, passes: seq<Pass>, maxTokens: int)
    requires |rows| == |sts| && passes == []
    ensures Grid(rows, sts, passes, maxTokens) == []
  {
  }
}
