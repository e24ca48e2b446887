// From the batch to the requesters: the generator of _infer, the worker that deals its lists
// out to the requesters' queues, and the consumer behind infer_async
// (swift/infer_engine/transformers_engine.py, lines 169-195, 532-549 and 570-613).
module StreamDelivery {
  import opened BatchAlignment
  import opened Options
  import opened StreamRows

  datatype Message = Piece(chunk: Chunk) | Failure(error: int) | End

  // How the generator of a batch ends: normally, or with an exception during generation.
  datatype Ending = Exhausted | Crashed(error: int)

  // --------------------------------------------------------------------- the generator

  function WithErrors(ys: seq<seq<Option<Chunk>>>, errors: seq<(nat, int)>): seq<seq<Item<Option<Chunk>>>> {
    if ys == [] then [] else [AddErrors(Outputs(ys[0]), errors)] + WithErrors(ys[1..], errors)
  }

  function Batch(os: seq<Encoded<Row>>, passes: seq<Pass>, maxTokens: int): seq<seq<Option<Chunk>>>
    requires Wide(passes, |Inputs(os)|)
  {
    Stream(Inputs(os), seq(|Inputs(os)|, _ => START), passes, maxTokens)
  }

  function Generated(os: seq<Encoded<Row>>, passes: seq<Pass>, maxTokens: int): seq<seq<Item<Option<Chunk>>>>
    requires Wide(passes, |Inputs(os)|)
  {
    if Inputs(os) == [] then [AddErrors([], Errors(os, 0))]
    else WithErrors(Batch(os, passes, maxTokens), Errors(os, 0))
  }

  // The passes of a run: a normal run ends with the pass made when the tokens stop; without
  // encoded inputs nothing is generated.
  predicate ProperRun(os: seq<Encoded<Row>>, passes: seq<Pass>, ending: Ending) {
    && Wide(passes, |Inputs(os)|)
    && (forall k :: 0 <= k < |passes| ==> (passes[k].last <==> ending.Exhausted? && k == |passes| - 1))
    && (if Inputs(os) == [] then ending.Exhausted? else ending.Exhausted? ==> passes != [])
  }

  // ------------------------------------------------------------------------ the worker

  // A missing chunk is not put into the queue (lines 186-189).
  function Posted(item: Item<Option<Chunk>>): seq<Message> {
    match item
    case Output(None) => []
    case Output(Some(c)) => [Piece(c)]
    case Failed(e) => [Failure(e)]
  }

  function Queue(j: nat, lists: seq<seq<Item<Option<Chunk>>>>): seq<Message> {
    if lists == [] then []
    else (if j < |lists[0]| then Posted(lists[0][j]) else []) + Queue(j, lists[1..])
  }

  function Closing(ending: Ending): Message {
    if ending.Exhausted? then End else Failure(ending.error)
  }

  // All that requester j's queue ever gets.
  function Sent(os: seq<Encoded<Row>>, strict: bool, passes: seq<Pass>, maxTokens: int, ending: Ending, j: nat): seq<Message>
    requires Wide(passes, |Inputs(os)|)
  {
    if strict && FirstError(os).Raised? then [Failure(FirstError(os).error)]
    else Queue(j, Generated(os, passes, maxTokens)) + [Closing(ending)]
  }

  // ---------------------------------------------------------------------- the consumer

  datatype Finish = Done | Broke(error: int) | Waiting

  // _gen_wrapper of infer_async
  function Consume(queue: seq<Message>): (seq<Chunk>, Finish) {
    if queue == [] then ([], Waiting)
    else match queue[0]
      case End => ([], Done)
      case Failure(e) => ([], Broke(e))
      case Piece(c) =>
        if c.reason.Some? then ([c], Done)
        else
          var (rest, finish) := Consume(queue[1..]);
          ([c] + rest, finish)
  }

  // ------------------------------------------------------------------------- the proof

  function Pieces(cs: seq<Chunk>): seq<Message> {
    if cs == [] then [] else [Piece(cs[0])] + Pieces(cs[1..])
  }

  lemma {:induction false} PiecesCons(c: Chunk, cs: seq<Chunk>)
    ensures Pieces([c] + cs) == [Piece(c)] + Pieces(cs)
  {
    assert ([c] + cs)[1..] == cs;
  }

  lemma {:induction false} RankInRange(os: seq<Encoded<Row>>, j: nat)
    requires j < |os| && os[j].Encoded?
    ensures |Inputs(os[..j])| < |Inputs(os)| && Inputs(os)[|Inputs(os[..j])|] == os[j].input
  {
    MergeAt(os, Inputs(os), j);
  }

  // The queue of an encoded request gets the chunks of its own row, in order.
  lemma {:induction false} OwnRow(os: seq<Encoded<Row>>, ys: seq<seq<Option<Chunk>>>, j: nat)
    requires j < |os| && os[j].Encoded? && AllWide(ys, |Inputs(os)|)
    ensures |Inputs(os[..j])| < |Inputs(os)|
    ensures Queue(j, WithErrors(ys, Errors(os, 0))) == Pieces(Column(|Inputs(os[..j])|, ys))
    decreases |ys|
  {
    hide AddErrors, Errors, Inputs, Outputs;
    RankInRange(os, j);
    if ys != [] {
      var k := |Inputs(os[..j])|;
      OwnRow(os, ys[1..], j);
      AddErrorsIsMerge(os, ys[0]);
      MergeAt(os, ys[0], j);
      var list, lists := AddErrors(Outputs(ys[0]), Errors(os, 0)), WithErrors(ys[1..], Errors(os, 0));
      assert ([list] + lists)[1..] == lists;
      var rest := Column(k, ys[1..]);
      if ys[0][k].Some? {
        PiecesCons(ys[0][k].value, rest);
      } else {
        assert [] + rest == rest && [] + Pieces(rest) == Pieces(rest);
      }
    }
  }

  // The queue of a request that could not be encoded gets its own error, with every list.
  lemma {:induction false} OwnError(os: seq<Encoded<Row>>, ys: seq<seq<Option<Chunk>>>, j: nat)
    requires j < |os| && os[j].Refused? && AllWide(ys, |Inputs(os)|)
    ensures ys != [] ==> var q := Queue(j, WithErrors(ys, Errors(os, 0))); q != [] && q[0] == Failure(os[j].error)
  {
    hide Errors, Inputs, Outputs;
    if ys != [] {
      AddErrorsIsMerge(os, ys[0]);
      MergeAt(os, ys[0], j);
    }
  }

  // A consumer that reads chunks of which only the last can end the stream gets them all.
  lemma {:induction false} ConsumePieces(cs: seq<Chunk>, closing: Message)
    requires OnlyLastEnds(cs) && !closing.Piece?
    ensures Consume(Pieces(cs) + [closing]) ==
      (cs, if Closed(cs) then Done else if closing.End? then Done else Broke(closing.error))
    decreases |cs|
  {
    if cs != [] {
      assert (Pieces(cs) + [closing])[1..] == Pieces(cs[1..]) + [closing];
      assert cs == [cs[0]] + cs[1..];
      if |cs| > 1 {
        ConsumePieces(cs[1..], closing);
      } else {
        assert cs[1..] == [] && cs == [cs[0]] && [cs[0]] + [] == cs;
        assert Pieces([]) + [closing] == [closing];
      }
    } else {
      assert Pieces(cs) + [closing] == [closing];
    }
  }

  lemma {:induction false} LastPassFinishes(i: nat, passes: seq<Pass>)
    requires forall k :: 0 <= k < |passes| ==> i < |passes[k].views|
    requires passes != [] && passes[|passes| - 1].last
    ensures Finishing(i, passes)
    decreases |passes|
  {
    if |passes| > 1 {
      LastPassFinishes(i, passes[1..]);
    }
  }

  // An encoded row that finishes has a chunk, so the generator yields something.
  lemma {:induction false} SomethingYielded(rows: seq<Row>, passes: seq<Pass>, maxTokens: int)
    requires Wide(passes, |rows|) && rows != [] && passes != [] && passes[|passes| - 1].last
    ensures Stream(rows, seq(|rows|, _ => START), passes, maxTokens) != []
  {
    hide RowRun, Somes, Stream;
    var sts := seq(|rows|, _ => START);
    ColumnIsRow(0, rows, sts, passes, maxTokens);
    RowSpeaksOnce(0, rows[0], START, passes, maxTokens);
    LastPassFinishes(0, passes);
  }

  // The chunks that belong to request j: those its row has on its own.
  function OwnChunks(os: seq<Encoded<Row>>, passes: seq<Pass>, maxTokens: int, j: nat): seq<Chunk>
    requires Wide(passes, |Inputs(os)|) && j < |os| && os[j].Encoded? && |Inputs(os[..j])| < |Inputs(os)|
  {
    Somes(RowRun(|Inputs(os[..j])|, os[j].input, START, passes, maxTokens))
  }

  lemma {:induction false} EncodedIsServed(os: seq<Encoded<Row>>, passes: seq<Pass>, maxTokens: int, ending: Ending, j: nat)
    requires ProperRun(os, passes, ending) && j < |os| && os[j].Encoded?
    ensures |Inputs(os[..j])| < |Inputs(os)|
    ensures var cs := OwnChunks(os, passes, maxTokens, j);
      && OnlyLastEnds(cs) && (ending.Exhausted? ==> Closed(cs))
      && Consume(Queue(j, Generated(os, passes, maxTokens)) + [Closing(ending)]) ==
           (cs, if Closed(cs) then Done else Broke(ending.error))
  {
    hide Inputs, Errors, Stream, RowRun, Somes, Queue, WithErrors, Consume, Column;
    RankInRange(os, j);
    var k, rows := |Inputs(os[..j])|, Inputs(os);
    ColumnIsRow(k, rows, seq(|rows|, _ => START), passes, maxTokens);
    OwnRow(os, Batch(os, passes, maxTokens), j);
    RowSpeaksOnce(k, rows[k], START, passes, maxTokens);
    if ending.Exhausted? {
      LastPassFinishes(k, passes);
    }
    ConsumePieces(OwnChunks(os, passes, maxTokens, j), Closing(ending));
  }

  lemma {:induction false} RefusedIsTold(os: seq<Encoded<Row>>, passes: seq<Pass>, maxTokens: int, ending: Ending, j: nat)
    requires ProperRun(os, passes, ending) && j < |os| && os[j].Refused?
    ensures var q := Queue(j, Generated(os, passes, maxTokens)) + [Closing(ending)];
      Consume(q) == ([], Broke(os[j].error)) || (ending.Crashed? && Consume(q) == ([], Broke(ending.error)))
  {
    hide Inputs, Errors, Stream, RowStep, AddErrors;
    var q := Queue(j, Generated(os, passes, maxTokens));
    if Inputs(os) == [] {
      NoOutputs<Option<Chunk>>([]);
      AddErrorsIsMerge<Row, Option<Chunk>>(os, []);
      MergeAt<Row, Option<Chunk>>(os, [], j);
      var list := AddErrors<Option<Chunk>>([], Errors(os, 0));
      var none: seq<seq<Item<Option<Chunk>>>> := [];
      assert [list][1..] == none && list[j] == Failed(os[j].error);
      assert q == [Failure(os[j].error)] + Queue(j, none);
    } else {
      var rows := Inputs(os);
      StreamWidth(rows, seq(|rows|, _ => START), passes, maxTokens);
      OwnError(os, Batch(os, passes, maxTokens), j);
      if ending.Exhausted? {
        SomethingYielded(rows, passes, maxTokens);
      }
    }
    if q != [] {
      assert q[0] == Failure(os[j].error);
    } else {
      assert q + [Closing(ending)] == [Closing(ending)];
    }
  }

  // Each requester of a batch gets exactly its own chunks, in order, and its stream ends:
  // after a normal run with exactly one chunk that carries a finish reason, the last; after a
  // crash with that chunk if its row had finished, and with the exception if it had not.  A
  // request that could not be encoded gets its own error and no chunk; in strict mode the
  // first such error goes to everyone.
  lemma {:induction false} EachStreamIsItsOwn(os: seq<Encoded<Row>>, strict: bool, passes: seq<Pass>, maxTokens: int,
                                              ending: Ending, j: nat)
    requires ProperRun(os, passes, ending) && j < |os|
    ensures var got := Consume(Sent(os, strict, passes, maxTokens, ending, j));
      if strict && FirstError(os).Raised? then got == ([], Broke(FirstError(os).error))
      else match os[j] {
        case Refused(e) => got == ([], Broke(e)) || (ending.Crashed? && got == ([], Broke(ending.error)))
        case Encoded(row) =>
          && |Inputs(os[..j])| < |Inputs(os)|
          && var cs := OwnChunks(os, passes, maxTokens, j);
          && OnlyLastEnds(cs) && (ending.Exhausted? ==> Closed(cs))
          && got == (cs, if Closed(cs) then Done else Broke(ending.error))
      }
  {
    hide Inputs, Errors, RowRun, Somes, Queue, FirstError, Generated;
    if !(strict && FirstError(os).Raised?) {
      hide Consume;
      if os[j].Encoded? {
        EncodedIsServed(os, passes, maxTokens, ending, j);
      } else {
        RefusedIsTold(os, passes, maxTokens, ending, j);
      }
    }
  }

  lemma {:induction false} NoEndInQueue(j: nat, lists: seq<seq<Item<Option<Chunk>>>>)
    ensures End !in Queue(j, lists)
  {
    if lists != [] {
      NoEndInQueue(j, lists[1..]);
    }
  }

  // The last message of every queue, and no other, closes it: an end after a normal run, and
  // otherwise the exception.
  lemma {:induction false} EveryQueueIsClosed(os: seq<Encoded<Row>>, strict: bool, passes: seq<Pass>, maxTokens: int,
                                              ending: Ending, j: nat)
    requires Wide(passes, |Inputs(os)|)
    ensures var q := Sent(os, strict, passes, maxTokens, ending, j);
      && q != [] && End !in q[..|q| - 1]
      && q[|q| - 1] == (if strict && FirstError(os).Raised? then Failure(FirstError(os).error)
                        else if ending.Exhausted? then End else Failure(ending.error))
  {
    hide Inputs, Generated, Queue, FirstError;
    NoEndInQueue(j, Generated(os, passes, maxTokens));
  }

  // ------------------------------------------------------------------------- the loops

  // One list dealt out by zip (lines 186-189).
  method Deal(queues: array<seq<Message>>, list: seq<Item<Option<Chunk>>>)
    modifies queues
    ensures forall j :: 0 <= j < queues.Length ==>
      queues[j] == old(queues[j]) + if j < |list| then Posted(list[j]) else []
  {
    var n := if queues.Length <= |list| then queues.Length else |list|;
    for j := 0 to n
      invariant forall k :: 0 <= k < j ==> queues[k] == old(queues[k]) + Posted(list[k])
      invariant forall k :: j <= k < queues.Length ==> queues[k] == old(queues[k])
    {
      match list[j]
      case Output(None) =>
        assert queues[j] == old(queues[j]) + [];
      case Output(Some(c)) =>
        queues[j] := queues[j] + [Piece(c)];
      case Failed(e) =>
        queues[j] := queues[j] + [Failure(e)];
    }
  }

  method Broadcast(queues: array<seq<Message>>, message: Message)
    modifies queues
    ensures forall j :: 0 <= j < queues.Length ==> queues[j] == old(queues[j]) + [message]
  {
    for j := 0 to queues.Length
      invariant forall k :: 0 <= k < j ==> queues[k] == old(queues[k]) + [message]
      invariant forall k :: j <= k < queues.Length ==> queues[k] == old(queues[k])
    {
      queues[j] := queues[j] + [message];
    }
  }

  // Every list the generator yields, dealt out in turn.
  method DealAll(queues: array<seq<Message>>, lists: seq<seq<Item<Option<Chunk>>>>)
    modifies queues
    ensures forall j :: 0 <= j < queues.Length ==> queues[j] == old(queues[j]) + Queue(j, lists)
  {
    hide Posted;
    var rest := lists;
    while rest != []
      invariant forall j :: 0 <= j < queues.Length ==> queues[j] + Queue(j, rest) == old(queues[j]) + Queue(j, lists)
      decreases |rest|
    {
      ghost var before := queues[..];
      Deal(queues, rest[0]);
      forall j | 0 <= j < queues.Length ensures queues[j] + Queue(j, rest[1..]) == before[j] + Queue(j, rest) {
        var posted := if j < |rest[0]| then Posted(rest[0][j]) else [];
        assert before[j] + (posted + Queue(j, rest[1..])) == (before[j] + posted) + Queue(j, rest[1..]);
      }
      rest := rest[1..];
    }
  }

  // The streaming branch of _infer_worker for one batch, with fresh queues.
  method ServeBatch(queues: array<seq<Message>>, os: seq<Encoded<Row>>, strict: bool, passes: seq<Pass>, maxTokens: int,
                    ending: Ending)
    requires Wide(passes, |Inputs(os)|) && queues.Length == |os|
    requires forall j :: 0 <= j < queues.Length ==> queues[j] == []
    modifies queues
    ensures forall j :: 0 <= j < queues.Length ==> queues[j] == Sent(os, strict, passes, maxTokens, ending, j)
  {
    hide Inputs, Errors, Stream, FirstError, AddErrors, Posted, WithErrors, Queue;
    var encoded := BatchEncode(os, strict);
    if encoded.Raised? {
      Broadcast(queues, Failure(encoded.error));
      return;
    }
    var (rows, errors) := encoded.value;
    var lists: seq<seq<Item<Option<Chunk>>>> := [];
    if |rows| > 0 {
      var ys := InferStream(rows, passes, maxTokens);
      lists := WithErrors(ys, errors);
    } else {
      var only := AddErrorList([], errors);
      lists := [only];
    }
    assert lists == Generated(os, passes, maxTokens);
    hide Generated;
    DealAll(queues, lists);
    if ending.Exhausted? {
      Broadcast(queues, End);
    } else {
      Broadcast(queues, Failure(ending.error));
    }
  }

  // The consuming loop, over what its queue gets.
  method GenWrapper(queue: seq<Message>) returns (items: seq<Chunk>, finish: Finish)
    ensures (items, finish) == Consume(queue)
  {
    items := [];
    var rest := queue;
    assert [] + Consume(queue).0 == Consume(queue).0;
    while rest != []
      invariant Consume(queue) == (items + Consume(rest).0, Consume(rest).1)
      decreases |rest|
    {
      match rest[0]
      case End =>
        assert items + [] == items;
        return items, Done;
      case Failure(e) =>
        assert items + [] == items;
        return items, Broke(e);
      case Piece(c) =>
        assert c.reason.None? ==> items + ([c] + Consume(rest[1..]).0) == (items + [c]) + Consume(rest[1..]).0;
        items := items + [c];
        if c.reason.Some? {
          return items, Done;
        }
        rest := rest[1..];
    }
    assert items + [] == items;
    finish := Waiting;
  }
}
