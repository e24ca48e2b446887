// Which answer belongs to which request when some requests cannot be encoded:
// swift/infer_engine/infer_engine.py, lines 320-344, and the batch loop of
// swift/infer_engine/transformers_engine.py, lines 570-613 and 637-646.
//
// `engine` stands for everything after encoding a batch, and it may raise.
module BatchAlignment {
  import opened Options
  import opened Sequences

  datatype Encoded<+I> = Encoded(input: I) | Refused(error: int)

  datatype Item<+O> = Output(value: O) | Failed(error: int)

  datatype Outcome<+T> = Returned(value: T) | Raised(error: int)

  // ---------------------------------------------------------------------- one batch

  // The two lists of _batch_encode when it is not strict.
  function Inputs<I>(os: seq<Encoded<I>>): seq<I> {
    if os == [] then [] else (if os[0].Encoded? then [os[0].input] else []) + Inputs(os[1..])
  }

  function Errors<I>(os: seq<Encoded<I>>, at: nat): seq<(nat, int)> {
    if os == [] then []
    else (if os[0].Refused? then [(at, os[0].error)] else []) + Errors(os[1..], at + 1)
  }

  function FirstError<I>(os: seq<Encoded<I>>): Outcome<()> {
    if os == [] then Returned(())
    else if os[0].Refused? then Raised(os[0].error)
    else FirstError(os[1..])
  }

  // Python's list.insert, which clamps its index.
  function Insert<T>(xs: seq<T>, i: nat, x: T): seq<T> {
    if i <= |xs| then xs[..i] + [x] + xs[i..] else xs + [x]
  }

  // _add_error_list
  function AddErrors<O>(items: seq<Item<O>>, errors: seq<(nat, int)>): seq<Item<O>>
    decreases |errors|
  {
    if errors == [] then items
    else AddErrors(Insert(items, errors[0].0, Failed(errors[0].1)), errors[1..])
  }

  function Outputs<O>(ys: seq<O>): seq<Item<O>> {
    seq(|ys|, i requires 0 <= i < |ys| => Output(ys[i]))
  }

  // _infer without streaming
  function InferBatch<I, O>(os: seq<Encoded<I>>, strict: bool, engine: seq<I> -> Outcome<seq<O>>): Outcome<seq<Item<O>>> {
    if strict && FirstError(os).Raised? then Raised(FirstError(os).error)
    else
      match Produced(Inputs(os), engine)
      case Raised(e) => Raised(e)
      case Returned(ys) => Returned(AddErrors(Outputs(ys), Errors(os, 0)))
  }

  // Nothing is generated when no request could be encoded.
  function Produced<I, O>(inputs: seq<I>, engine: seq<I> -> Outcome<seq<O>>): Outcome<seq<O>> {
    if inputs == [] then Returned([]) else engine(inputs)
  }

  // The reference: walk the requests, taking the next output or the request's own error.
  function Merge<I, O>(os: seq<Encoded<I>>, ys: seq<O>): seq<Item<O>>
    requires |ys| == |Inputs(os)|
  {
    if os == [] then []
    else if os[0].Encoded? then [Output(ys[0])] + Merge(os[1..], ys[1..])
    else [Failed(os[0].error)] + Merge(os[1..], ys)
  }

  lemma {:induction false} OutputsStep<O>(ys: seq<O>)
    requires ys != []
    ensures Outputs(ys) == [Output(ys[0])] + Outputs(ys[1..])
  {
  }

  lemma {:induction false} InsertAfter<T>(a: seq<T>, b: seq<T>, x: T)
    ensures Insert(a + b, |a|, x) == a + [x] + b
  {
  }

  // Errors put back in ascending order leave every output where its request was.
  lemma {:induction false} AddErrorsFrom<I, O>(front: seq<Item<O>>, os: seq<Encoded<I>>, ys: seq<O>)
    requires |ys| == |Inputs(os)|
    ensures AddErrors(front + Outputs(ys), Errors(os, |front|)) == front + Merge(os, ys)
    decreases |os|
  {
    hide Insert, Outputs;
    if os == [] {
      NoOutputs(ys);
    } else if os[0].Encoded? {
      AddErrorsPast(front, os, ys);
    } else {
      AddErrorsHere(front, os, ys);
    }
  }

  lemma {:induction false} MergePast<I, O>(os: seq<Encoded<I>>, ys: seq<O>)
    requires |ys| == |Inputs(os)| && os != [] && os[0].Encoded?
    ensures |ys| > 0 && |ys[1..]| == |Inputs(os[1..])|
    ensures Merge(os, ys) == [Output(ys[0])] + Merge(os[1..], ys[1..])
  {
  }

  lemma {:induction false} ErrorsPast<I>(os: seq<Encoded<I>>, at: nat)
    requires os != [] && os[0].Encoded?
    ensures Errors(os, at) == Errors(os[1..], at + 1)
  {
    assert [] + Errors(os[1..], at + 1) == Errors(os[1..], at + 1);
  }

  lemma {:induction false} AddErrorsPast<I, O>(front: seq<Item<O>>, os: seq<Encoded<I>>, ys: seq<O>)
    requires |ys| == |Inputs(os)| && os != [] && os[0].Encoded?
    ensures AddErrors(front + Outputs(ys), Errors(os, |front|)) == front + Merge(os, ys)
    decreases |os|, 0
  {
    hide *;
    MergePast(os, ys);
    ErrorsPast(os, |front|);
    OutputsStep(ys);
    var own := [Output(ys[0])];
    assert front + Outputs(ys) == (front + own) + Outputs(ys[1..]);
    AddErrorsFrom(front + own, os[1..], ys[1..]);
    assert (front + own) + Merge(os[1..], ys[1..]) == front + (own + Merge(os[1..], ys[1..]));
  }

  lemma {:induction false} MergeHere<I, O>(os: seq<Encoded<I>>, ys: seq<O>)
    requires |ys| == |Inputs(os)| && os != [] && os[0].Refused?
    ensures |ys| == |Inputs(os[1..])|
    ensures Merge(os, ys) == [Failed(os[0].error)] + Merge(os[1..], ys)
  {
  }

  // The first error goes in first.
  lemma {:induction false} AddFirst<I, O>(items: seq<Item<O>>, os: seq<Encoded<I>>, at: nat)
    requires os != [] && os[0].Refused?
    ensures AddErrors(items, Errors(os, at)) ==
      AddErrors(Insert(items, at, Failed(os[0].error)), Errors(os[1..], at + 1))
  {
    hide Insert;
    var rest := Errors(os[1..], at + 1);
    assert ([(at, os[0].error)] + rest)[1..] == rest;
  }

  lemma {:induction false} AddErrorsHere<I, O>(front: seq<Item<O>>, os: seq<Encoded<I>>, ys: seq<O>)
    requires |ys| == |Inputs(os)| && os != [] && os[0].Refused?
    ensures AddErrors(front + Outputs(ys), Errors(os, |front|)) == front + Merge(os, ys)
    decreases |os|, 0
  {
    hide *;
    var own := [Failed(os[0].error)];
    MergeHere(os, ys);
    AddFirst(front + Outputs(ys), os, |front|);
    InsertAfter(front, Outputs(ys), Failed(os[0].error));
    AddErrorsFrom(front + own, os[1..], ys);
    assert (front + own) + Merge(os[1..], ys) == front + (own + Merge(os[1..], ys));
  }

  lemma {:induction false} NoOutputs<O>(ys: seq<O>)
    requires ys == []
    ensures Outputs(ys) == []
  {
  }

  lemma {:induction false} AddErrorsIsMerge<I, O>(os: seq<Encoded<I>>, ys: seq<O>)
    requires |ys| == |Inputs(os)|
    ensures AddErrors(Outputs(ys), Errors(os, 0)) == Merge(os, ys)
  {
    AddErrorsFrom([], os, ys);
    assert [] + Outputs(ys) == Outputs(ys);
    assert [] + Merge(os, ys) == Merge(os, ys);
  }

  // What the merged list holds for request j: its own error, or the output with its own rank.
  lemma {:induction false} MergeAt<I, O>(os: seq<Encoded<I>>, ys: seq<O>, j: nat)
    requires |ys| == |Inputs(os)| && j < |os|
    ensures |Merge(os, ys)| == |os|
    ensures os[j].Refused? ==> Merge(os, ys)[j] == Failed(os[j].error)
    ensures os[j].Encoded? ==>
      var k := |Inputs(os[..j])|;
      k < |ys| && Merge(os, ys)[j] == Output(ys[k]) && Inputs(os)[k] == os[j].input
  {
    if os[0].Encoded? {
      MergePast(os, ys);
    } else {
      MergeHere(os, ys);
    }
    InputsFirst(os, j);
    var ys' := if os[0].Encoded? then ys[1..] else ys;
    hide Merge, Inputs;
    if j > 0 {
      MergeAt(os[1..], ys', j - 1);
    } else if |os| > 1 {
      MergeAt(os[1..], ys', 0);
    } else {
      assert os[1..] == [];
      NothingMerged(os[1..], ys');
    }
  }

  lemma {:induction false} NothingMerged<I, O>(os: seq<Encoded<I>>, ys: seq<O>)
    requires |ys| == |Inputs(os)| && os == []
    ensures Merge(os, ys) == []
  {
  }

  lemma {:induction false} InputsFirst<I>(os: seq<Encoded<I>>, j: nat)
    requires j < |os|
    ensures var own := if os[0].Encoded? then [os[0].input] else [];
      && Inputs(os) == own + Inputs(os[1..])
      && Inputs(os[..j]) == if j == 0 then [] else own + Inputs(os[1..][..j - 1])
  {
    if j > 0 {
      assert os[..j][1..] == os[1..][..j - 1];
    }
  }

  // ------------------------------------------------------------------ the batch loop

  // `owns` says that an output is an answer to an input; the engine answers row by row, when
  // it does not raise.
  ghost predicate AnswersRows<I(!new), O>(engine: seq<I> -> Outcome<seq<O>>, owns: (I, O) -> bool) {
    forall xs :: engine(xs).Returned? ==>
      |engine(xs).value| == |xs| && forall k :: 0 <= k < |xs| ==> owns(xs[k], engine(xs).value[k])
  }

  ghost predicate NeverRaises<I(!new), O>(engine: seq<I> -> Outcome<seq<O>>) {
    forall xs :: engine(xs).Returned?
  }

  predicate Answers<I, O>(o: Encoded<I>, item: Item<O>, owns: (I, O) -> bool) {
    match o
    case Encoded(x) => item.Output? && owns(x, item.value)
    case Refused(e) => item == Failed(e)
  }

  predicate Aligned<I, O>(os: seq<Encoded<I>>, items: seq<Item<O>>, owns: (I, O) -> bool) {
    |items| == |os| && forall j :: 0 <= j < |os| ==> Answers(os[j], items[j], owns)
  }

  function InferAll<I, O>(os: seq<Encoded<I>>, size: nat, strict: bool, engine: seq<I> -> Outcome<seq<O>>): Outcome<seq<Item<O>>>
    requires size > 0 || os == []
    decreases |os|
  {
    if os == [] then Returned([])
    else
      var m := if size <= |os| then size else |os|;
      var batch := InferBatch(os[..m], strict, engine);
      if batch.Raised? then batch
      else
        var rest := InferAll(os[m..], size, strict, engine);
        if rest.Raised? then rest else Returned(batch.value + rest.value)
  }

  // A batch raises the first encoding error when strict, or what the engine raises; otherwise
  // every request has its own item.
  lemma {:induction false} BatchAligned<I(!new), O>(os: seq<Encoded<I>>, strict: bool, engine: seq<I> -> Outcome<seq<O>>,
                                                    owns: (I, O) -> bool)
    requires AnswersRows(engine, owns)
    ensures var out := InferBatch(os, strict, engine);
      var ys := Produced(Inputs(os), engine);
      if strict && FirstError(os).Raised? then out == Raised(FirstError(os).error)
      else if ys.Raised? then out == Raised(ys.error)
      else out.Returned? && Aligned(os, out.value, owns)
  {
    hide AddErrors, Errors, Outputs, Inputs, FirstError;
    var generated := Produced(Inputs(os), engine);
    if !(strict && FirstError(os).Raised?) && generated.Returned? {
      var ys := generated.value;
      AddErrorsIsMerge(os, ys);
      assert InferBatch(os, strict, engine) == Returned(Merge(os, ys));
      if os == [] {
        assert Merge(os, ys) == [];
      } else {
        forall j | 0 <= j < |os| ensures |Merge(os, ys)| == |os| && Answers(os[j], Merge(os, ys)[j], owns) {
          MergeAt(os, ys, j);
        }
      }
    }
  }

  // The worker's zip (transformers_engine.py:190-195): requester j is handed item j, or the
  // exception that the whole batch raised.
  function Reply<I, O>(os: seq<Encoded<I>>, strict: bool, engine: seq<I> -> Outcome<seq<O>>, j: nat): Option<Item<O>> {
    match InferBatch(os, strict, engine)
    case Raised(e) => Some(Failed(e))
    case Returned(items) => if j < |items| then Some(items[j]) else None
  }

  lemma {:induction false} EachReplyIsItsOwn<I(!new), O>(os: seq<Encoded<I>>, strict: bool,
                                                         engine: seq<I> -> Outcome<seq<O>>, owns: (I, O) -> bool, j: nat)
    requires AnswersRows(engine, owns) && j < |os|
    ensures var reply := Reply(os, strict, engine, j);
      var ys := Produced(Inputs(os), engine);
      && reply.Some?
      && if strict && Refusal(os) then reply.value.Failed? && IsFirstError(os, reply.value.error)
         else if ys.Raised? then reply.value == Failed(ys.error)
         else Answers(os[j], reply.value, owns)
  {
    hide AnswersRows, InferBatch, Inputs, FirstError, IsFirstError, Refusal;
    BatchAligned(os, strict, engine, owns);
    FirstErrorIs(os);
  }

  lemma {:induction false} FirstErrorAppend<I>(a: seq<Encoded<I>>, b: seq<Encoded<I>>)
    ensures FirstError(a + b) == if FirstError(a).Raised? then FirstError(a) else FirstError(b)
  {
    if a == [] {
      assert a + b == b;
    } else {
      assert (a + b)[1..] == a[1..] + b;
      FirstErrorAppend(a[1..], b);
    }
  }

  // Some request cannot be encoded.
  predicate Refusal<I>(os: seq<Encoded<I>>) {
    exists j :: 0 <= j < |os| && os[j].Refused?
  }

  // The error of the first request that cannot be encoded.
  predicate IsFirstError<I>(os: seq<Encoded<I>>, e: int) {
    exists j :: 0 <= j < |os| && os[j] == Refused(e) && forall i :: 0 <= i < j ==> os[i].Encoded?
  }

  lemma {:induction false} FirstErrorIs<I>(os: seq<Encoded<I>>)
    ensures FirstError(os).Raised? <==> Refusal(os)
    ensures FirstError(os).Raised? ==> IsFirstError(os, FirstError(os).error)
  {
    if os != [] && os[0].Encoded? {
      FirstErrorIs(os[1..]);
      assert os == [os[0]] + os[1..];
      if FirstError(os).Raised? {
        var e := FirstError(os).error;
        var j :| 0 <= j < |os[1..]| && os[1..][j] == Refused(e) && forall i :: 0 <= i < j ==> os[1..][i].Encoded?;
        assert os[j + 1] == Refused(e) && forall i :: 0 <= i < j + 1 ==> os[i].Encoded?;
      }
    }
  }

  lemma {:induction false} AlignedAppend<I, O>(a: seq<Encoded<I>>, b: seq<Encoded<I>>, x: seq<Item<O>>, y: seq<Item<O>>,
                                               owns: (I, O) -> bool)
    requires Aligned(a, x, owns) && Aligned(b, y, owns)
    ensures Aligned(a + b, x + y, owns)
  {
  }

  // What a run of the engine raised.
  ghost predicate EngineError<I(!new), O>(engine: seq<I> -> Outcome<seq<O>>, e: int) {
    exists xs :: engine(xs) == Raised(e)
  }

  lemma {:induction false} InferOutcome<I(!new), O>(os: seq<Encoded<I>>, size: nat, strict: bool,
                                                    engine: seq<I> -> Outcome<seq<O>>, owns: (I, O) -> bool)
    requires (size > 0 || os == []) && AnswersRows(engine, owns)
    ensures var out := InferAll(os, size, strict, engine);
      if out.Returned? then Aligned(os, out.value, owns) && !(strict && FirstError(os).Raised?)
      else (strict && FirstError(os) == Raised(out.error)) || EngineError(engine, out.error)
    decreases |os|
  {
    assert Aligned<I, O>([], [], owns) && FirstError<I>([]).Returned?;
    hide Aligned, AnswersRows, FirstError, InferBatch;
    if os == [] {
    } else {
      var m := if size <= |os| then size else |os|;
      var a, b := os[..m], os[m..];
      assert os == a + b;
      FirstErrorAppend(a, b);
      BatchAligned(a, strict, engine, owns);
      InferOutcome(b, size, strict, engine, owns);
      var batch, rest := InferBatch(a, strict, engine), InferAll(b, size, strict, engine);
      if batch.Returned? && rest.Returned? {
        AlignedAppend(a, b, batch.value, rest.value, owns);
      }
    }
  }

  // For every batch size: a run that returns has one item per request, in order, each the
  // request's own answer or its own error.  A run raises the error of the first request that
  // cannot be encoded, if it is strict, or an error of the engine; where the engine never
  // raises, it raises exactly if it is strict and some request cannot be encoded.
  lemma {:induction false} InferIsAligned<I(!new), O>(os: seq<Encoded<I>>, size: nat, strict: bool,
                                                      engine: seq<I> -> Outcome<seq<O>>, owns: (I, O) -> bool)
    requires (size > 0 || os == []) && AnswersRows(engine, owns)
    ensures var out := InferAll(os, size, strict, engine);
      && (out.Returned? ==> Aligned(os, out.value, owns))
      && (out.Raised? ==> (strict && IsFirstError(os, out.error)) || EngineError(engine, out.error))
      && (strict && Refusal(os) ==> out.Raised?)
      && (NeverRaises(engine) ==> (out.Raised? <==> strict && Refusal(os)))
  {
    hide Aligned, AnswersRows, FirstError, InferAll, IsFirstError, Refusal;
    InferOutcome(os, size, strict, engine, owns);
    FirstErrorIs(os);
  }

  // What a list of batches gives: all their items, or what the first one that raises raised.
  ghost predicate InTurn<I, O>(batches: seq<seq<Encoded<I>>>, strict: bool, engine: seq<I> -> Outcome<seq<O>>,
                         out: Outcome<seq<Item<O>>>)
  {
    match out
    case Returned(items) =>
      && (forall k :: 0 <= k < |batches| ==> InferBatch(batches[k], strict, engine).Returned?)
      && items == Concat(ItemsOf(batches, strict, engine))
    case Raised(e) =>
      exists k :: 0 <= k < |batches| && InferBatch(batches[k], strict, engine) == Raised(e)
        && forall i :: 0 <= i < k ==> InferBatch(batches[i], strict, engine).Returned?
  }

  function ItemsOf<I, O>(batches: seq<seq<Encoded<I>>>, strict: bool, engine: seq<I> -> Outcome<seq<O>>): seq<seq<Item<O>>> {
    seq(|batches|, k requires 0 <= k < |batches| =>
      var out := InferBatch(batches[k], strict, engine);
      if out.Returned? then out.value else [])
  }

  lemma {:induction false} OneBatchMore<I, O>(batch: seq<Encoded<I>>, more: seq<seq<Encoded<I>>>, strict: bool,
                                              engine: seq<I> -> Outcome<seq<O>>, out: Outcome<seq<Item<O>>>)
    requires InTurn(more, strict, engine, out)
    ensures var first := InferBatch(batch, strict, engine);
      InTurn([batch] + more, strict, engine,
        if first.Raised? then first else if out.Raised? then out else Returned(first.value + out.value))
  {
    hide InferBatch, ItemsOf;
    var all, first := [batch] + more, InferBatch(batch, strict, engine);
    assert all[0] == batch;
    if first.Raised? {
      assert InferBatch(all[0], strict, engine) == Raised(first.error);
    } else if out.Raised? {
      RaisedLater(batch, more, strict, engine, out.error);
    } else {
      ItemsOfCons(batch, more, strict, engine);
      assert forall k :: 0 < k < |all| ==> all[k] == more[k - 1];
    }
  }

  lemma {:induction false} ItemsOfCons<I, O>(batch: seq<Encoded<I>>, more: seq<seq<Encoded<I>>>, strict: bool,
                                             engine: seq<I> -> Outcome<seq<O>>)
    requires InferBatch(batch, strict, engine).Returned?
    ensures Concat(ItemsOf([batch] + more, strict, engine)) ==
      InferBatch(batch, strict, engine).value + Concat(ItemsOf(more, strict, engine))
  {
    hide InferBatch;
    var own, later := InferBatch(batch, strict, engine).value, ItemsOf(more, strict, engine);
    assert ItemsOf([batch] + more, strict, engine) == [own] + later;
    assert ([own] + later)[1..] == later;
  }

  lemma {:induction false} RaisedLater<I, O>(batch: seq<Encoded<I>>, more: seq<seq<Encoded<I>>>, strict: bool,
                                             engine: seq<I> -> Outcome<seq<O>>, e: int)
    requires InTurn(more, strict, engine, Raised(e)) && InferBatch(batch, strict, engine).Returned?
    ensures InTurn([batch] + more, strict, engine, Raised(e))
  {
    hide InferBatch, ItemsOf;
    var all := [batch] + more;
    var k :| 0 <= k < |more| && InferBatch(more[k], strict, engine) == Raised(e)
      && forall i :: 0 <= i < k ==> InferBatch(more[i], strict, engine).Returned?;
    assert InferBatch(all[k + 1], strict, engine) == Raised(e);
    assert forall i :: 0 < i < k + 1 ==> all[i] == more[i - 1];
  }

  // The batches are the requests in turn, `size` at a time, the last one possibly smaller.
  lemma {:induction false} InferInTurn<I, O>(os: seq<Encoded<I>>, size: nat, strict: bool, engine: seq<I> -> Outcome<seq<O>>)
    requires size > 0
    ensures InTurn(Batches(os, size), strict, engine, InferAll(os, size, strict, engine))
    decreases |os|
  {
    hide InferBatch, InTurn;
    if os == [] {
      NoBatches(strict, engine);
    } else if |os| <= size {
      assert os[..|os|] == os && os[|os|..] == [];
      NoBatches(strict, engine);
      OneBatchMore(os, [], strict, engine, Returned([]));
      assert [os] + [] == [os];
      var first := InferBatch(os, strict, engine);
      assert first.Returned? ==> first.value + [] == first.value;
    } else {
      InferInTurn(os[size..], size, strict, engine);
      OneBatchMore(os[..size], Batches(os[size..], size), strict, engine, InferAll(os[size..], size, strict, engine));
    }
  }

  lemma {:induction false} NoBatches<I, O>(strict: bool, engine: seq<I> -> Outcome<seq<O>>)
    ensures InTurn([], strict, engine, Returned([]))
  {
    var none: seq<seq<Encoded<I>>> := [];
    assert ItemsOf(none, strict, engine) == [];
  }

  // If the engine never raises and an answer depends on its own input only, the batch size
  // changes nothing.
  lemma {:induction false} BatchSizeIsIrrelevant<I(!new), O(!new)>(os: seq<Encoded<I>>, s: nat, t: nat, strict: bool,
                                                             engine: seq<I> -> Outcome<seq<O>>, f: I -> O)
    requires s > 0 && t > 0 && NeverRaises(engine) && AnswersRows(engine, (x, y) => y == f(x))
    ensures InferAll(os, s, strict, engine) == InferAll(os, t, strict, engine)
  {
    hide AnswersRows, InferAll, FirstError;
    var owns := (x: I, y: O) => y == f(x);
    InferOutcome(os, s, strict, engine, owns);
    InferOutcome(os, t, strict, engine, owns);
    var a, b := InferAll(os, s, strict, engine), InferAll(os, t, strict, engine);
    if a.Returned? {
      forall j | 0 <= j < |os| ensures a.value[j] == b.value[j] {
        assert Answers(os[j], a.value[j], owns) && Answers(os[j], b.value[j], owns);
      }
      assert a.value == b.value;
    }
  }

  // ------------------------------------------------------------------------ the loops

  lemma {:induction false} InputsAppend<I>(a: seq<Encoded<I>>, b: seq<Encoded<I>>)
    ensures Inputs(a + b) == Inputs(a) + Inputs(b)
  {
    if a == [] {
      assert a + b == b;
    } else {
      assert (a + b)[1..] == a[1..] + b && (a + b)[0] == a[0];
      var own := if a[0].Encoded? then [a[0].input] else [];
      InputsAppend(a[1..], b);
      assert own + (Inputs(a[1..]) + Inputs(b)) == (own + Inputs(a[1..])) + Inputs(b);
    }
  }

  lemma {:induction false} ErrorsAppend<I>(a: seq<Encoded<I>>, b: seq<Encoded<I>>, at: nat)
    ensures Errors(a + b, at) == Errors(a, at) + Errors(b, at + |a|)
  {
    if a == [] {
      assert a + b == b;
    } else {
      assert (a + b)[1..] == a[1..] + b && (a + b)[0] == a[0];
      ErrorsAppend(a[1..], b, at + 1);
      var own := if a[0].Refused? then [(at, a[0].error)] else [];
      var x, y := Errors(a[1..], at + 1), Errors(b, at + |a|);
      assert own + (x + y) == (own + x) + y;
    }
  }

  lemma {:induction false} OneMore<I>(os: seq<Encoded<I>>, i: nat, at: nat)
    requires i < |os|
    ensures Inputs(os[..i + 1]) == Inputs(os[..i]) + if os[i].Encoded? then [os[i].input] else []
    ensures Errors(os[..i + 1], at) == Errors(os[..i], at) + if os[i].Refused? then [(at + i, os[i].error)] else []
    ensures FirstError(os[..i + 1]) ==
      if FirstError(os[..i]).Raised? then FirstError(os[..i])
      else if os[i].Refused? then Raised(os[i].error) else Returned(())
  {
    assert os[..i + 1] == os[..i] + [os[i]] && [os[i]][1..] == [];
    InputsAppend(os[..i], [os[i]]);
    ErrorsAppend(os[..i], [os[i]], at);
    FirstErrorAppend(os[..i], [os[i]]);
  }

  // _batch_encode: the outcomes of the encoding threads, in the order of the requests.
  method BatchEncode<I>(outcomes: seq<Encoded<I>>, strict: bool) returns (r: Outcome<(seq<I>, seq<(nat, int)>)>)
    ensures r == if strict && FirstError(outcomes).Raised? then Raised(FirstError(outcomes).error)
                 else Returned((Inputs(outcomes), Errors(outcomes, 0)))
  {
    assert Inputs<I>([]) == [] && Errors<I>([], 0) == [];
    hide Inputs, Errors;
    var batchedInputs: seq<I>, errorList: seq<(nat, int)> := [], [];
    assert outcomes[..0] == [];
    for i := 0 to |outcomes|
      invariant batchedInputs == Inputs(outcomes[..i]) && errorList == Errors(outcomes[..i], 0)
      invariant strict ==> FirstError(outcomes[..i]).Returned?
    {
      OneMore(outcomes, i, 0);
      match outcomes[i]
      case Encoded(x) =>
        batchedInputs := batchedInputs + [x];
      case Refused(e) =>
        if strict {
          FirstErrorAppend(outcomes[..i + 1], outcomes[i + 1..]);
          assert outcomes == outcomes[..i + 1] + outcomes[i + 1..];
          return Raised(e);
        }
        errorList := errorList + [(i, e)];
    }
    assert outcomes[..|outcomes|] == outcomes;
    r := Returned((batchedInputs, errorList));
  }

  method AddErrorList<O>(outputs: seq<Item<O>>, errorList: seq<(nat, int)>) returns (r: seq<Item<O>>)
    ensures r == AddErrors(outputs, errorList)
  {
    r := outputs;
    for i := 0 to |errorList|
      invariant AddErrors(r, errorList[i..]) == AddErrors(outputs, errorList)
    {
      assert errorList[i..][0] == errorList[i] && errorList[i..][1..] == errorList[i + 1..];
      var at, error := errorList[i].0, errorList[i].1;
      r := Insert(r, at, Failed(error));
    }
  }

  // _infer without streaming
  method InferOnce<I, O>(outcomes: seq<Encoded<I>>, strict: bool, engine: seq<I> -> Outcome<seq<O>>)
    returns (r: Outcome<seq<Item<O>>>)
    ensures r == InferBatch(outcomes, strict, engine)
  {
    hide Inputs, Errors, FirstError, AddErrors;
    var encoded := BatchEncode(outcomes, strict);
    match encoded
    case Raised(e) =>
      r := Raised(e);
    case Returned((batchedInputs, errorList)) =>
      var res: seq<O> := [];
      if |batchedInputs| > 0 {
        match engine(batchedInputs) {
          case Raised(e) => return Raised(e);
          case Returned(ys) => res := ys;
        }
      }
      var items := AddErrorList(Outputs(res), errorList);
      r := Returned(items);
  }

  function Resumed<T>(done: seq<T>, rest: Outcome<seq<T>>): Outcome<seq<T>> {
    if rest.Raised? then rest else Returned(done + rest.value)
  }

  lemma {:induction false} InferAllStep<I, O>(done: seq<Item<O>>, os: seq<Encoded<I>>, size: nat, strict: bool,
                                              engine: seq<I> -> Outcome<seq<O>>)
    requires size > 0 && os != []
    ensures var m := if size <= |os| then size else |os|;
      var batch := InferBatch(os[..m], strict, engine);
      Resumed(done, InferAll(os, size, strict, engine)) ==
        if batch.Raised? then batch
        else Resumed(done + batch.value, InferAll(os[m..], size, strict, engine))
  {
    hide InferBatch;
    var m := if size <= |os| then size else |os|;
    var batch := InferBatch(os[..m], strict, engine);
    var rest := InferAll(os[m..], size, strict, engine);
    if batch.Returned? && rest.Returned? {
      assert done + (batch.value + rest.value) == (done + batch.value) + rest.value;
    }
  }

  // infer without streaming (lines 637-646): a batch at a time, or all at once when the size
  // is not positive.  `outcomes` is what encoding makes of each request.
  method Infer<I, O>(outcomes: seq<Encoded<I>>, maxBatchSize: int, strict: bool, engine: seq<I> -> Outcome<seq<O>>)
    returns (r: Outcome<seq<Item<O>>>)
    ensures r == InferAll(outcomes, if maxBatchSize > 0 then maxBatchSize else |outcomes|, strict, engine)
  {
    hide *;
    var size := maxBatchSize;
    if size <= 0 {
      size := |outcomes|;
    }
    var res: seq<Item<O>> := [];
    var i := 0;
    ghost var all := InferAll(outcomes, size, strict, engine);
    ghost var lo := 0;
    Resume(res, outcomes, size, strict, engine);
    while i < |outcomes|
      invariant lo == (if i <= |outcomes| then i else |outcomes|) && 0 <= i && (size > 0 || outcomes == [])
      invariant Resumed(res, InferAll(outcomes[lo..], size, strict, engine)) == all
    {
      var end := if i + size <= |outcomes| then i + size else |outcomes|;
      InferAllStep(res, outcomes[i..], size, strict, engine);
      Sections(outcomes, i, end);
      var batch := InferOnce(outcomes[i..end], strict, engine);
      if batch.Raised? {
        return batch;
      }
      res := res + batch.value;
      i := i + size;
      lo := end;
    }
    assert outcomes[lo..] == [];
    Resume(res, outcomes[lo..], size, strict, engine);
    r := Returned(res);
  }

  lemma {:induction false} Sections<T>(s: seq<T>, i: nat, end: nat)
    requires i <= end <= |s|
    ensures s[i..][..end - i] == s[i..end] && s[i..][end - i..] == s[end..]
  {
  }

  lemma {:induction false} Resume<I, O>(res: seq<Item<O>>, os: seq<Encoded<I>>, size: nat, strict: bool,
                                        engine: seq<I> -> Outcome<seq<O>>)
    requires size > 0 || os == []
    ensures res == [] ==> Resumed(res, InferAll(os, size, strict, engine)) == InferAll(os, size, strict, engine) && os[0..] == os
    ensures os == [] ==> Resumed(res, InferAll(os, size, strict, engine)) == Returned(res)
  {
    hide InferBatch;
    var out := InferAll(os, size, strict, engine);
    if out.Returned? {
      assert [] + out.value == out.value && res + [] == res;
    }
  }
}
