// Which calls of the packer are made, and what leaves each of them: the worker's loop and the
// rounds of the iterable dataset, call by call.
module PackingCalls {
  import opened Sequences
  import opened Packing
  import opened PackingDataset
  import opened IterablePacking
  import opened NextFit
  import opened PackingCollector
  import opened PackingTheorems

  // What call k is given besides chunks[k]: what the call before it did not pack.
  function Carried(first: seq<Item>, chunks: seq<seq<Item>>, k: nat, cap: int, s: Strategy): seq<Item>
    requires k <= |chunks|
  {
    if k == 0 then first
    else MatchedGroup(Carried(first, chunks, k - 1, cap, s) + chunks[k - 1], cap, false, s).1
  }

  // The packs that leave call k; only the last call is a finished one.
  function CallPacks(first: seq<Item>, chunks: seq<seq<Item>>, k: nat, cap: int, s: Strategy): seq<Pack>
    requires k < |chunks|
  {
    MatchedGroup(Carried(first, chunks, k, cap, s) + chunks[k], cap, k == |chunks| - 1, s).0
  }

  lemma {:induction false} CarriedLater(first: seq<Item>, chunks: seq<seq<Item>>, k: nat, cap: int, s: Strategy)
    requires k < |chunks|
    ensures Carried(first, chunks, k + 1, cap, s) ==
      Carried(MatchedGroup(first + chunks[0], cap, false, s).1, chunks[1..], k, cap, s)
  {
    hide MatchedGroup;
    if k == 0 {
      assert Carried(first, chunks, 0, cap, s) == first;
    } else {
      CarriedLater(first, chunks, k - 1, cap, s);
    }
  }

  lemma {:induction false} CallLater(first: seq<Item>, chunks: seq<seq<Item>>, k: nat, cap: int, s: Strategy)
    requires k + 1 < |chunks|
    ensures CallPacks(first, chunks, k + 1, cap, s) ==
      CallPacks(MatchedGroup(first + chunks[0], cap, false, s).1, chunks[1..], k, cap, s)
  {
    hide MatchedGroup;
    CarriedLater(first, chunks, k, cap, s);
  }

  // ---------------------------------------------------------------------------- a worker

  lemma {:induction false} WorkerShift(rank: nat, data: seq<Item>, d: nat, i: nat, input: seq<Item>, batch: nat, cap: int, s: Strategy)
    requires batch > 0
    ensures WorkerMsgs(rank, data, d + i, input, batch, cap, s) == WorkerMsgs(rank, From(data, d), i, input, batch, cap, s)
    decreases if i < |data| then |data| - i else 0, |input|
  {
    hide MatchedGroup, WorkerMsgs;
    var rest := From(data, d);
    assert Slice(data, d + i, d + i + batch) == Slice(rest, i, i + batch);
    var newData := Slice(rest, i, i + batch);
    if input + newData == [] {
      WorkerStops(rank, data, d + i, input, batch, cap, s);
      WorkerStops(rank, rest, i, input, batch, cap, s);
    } else {
      WorkerSends(rank, data, d + i, input, batch, cap, s);
      WorkerSends(rank, rest, i, input, batch, cap, s);
      assert i + batch >= |rest| <==> d + i + batch >= |data|;
      WorkerShift(rank, data, d, i + batch, MatchedGroup(input + newData, cap, i + batch >= |rest|, s).1, batch, cap, s);
    }
  }

  // The messages with packs.
  function Sent(rank: nat, first: seq<Item>, chunks: seq<seq<Item>>, cap: int, s: Strategy): (r: seq<Msg>)
    ensures |r| == |chunks|
  {
    seq(|chunks|, k requires 0 <= k < |chunks| => Msg(rank, CallPacks(first, chunks, k, cap, s), |chunks[k]|))
  }

  lemma {:induction false} FirstSent(rank: nat, first: seq<Item>, chunks: seq<seq<Item>>, cap: int, s: Strategy)
    requires chunks != []
    ensures var (packs, carry) := MatchedGroup(first + chunks[0], cap, |chunks| == 1, s);
      Sent(rank, first, chunks, cap, s) == [Msg(rank, packs, |chunks[0]|)] +
        if |chunks| == 1 then [] else Sent(rank, carry, chunks[1..], cap, s)
  {
    hide MatchedGroup, Carried;
    CarriedFirst(first, chunks, cap, s);
    forall k | 0 <= k < |chunks| - 1
      ensures CallPacks(first, chunks, k + 1, cap, s) ==
        CallPacks(MatchedGroup(first + chunks[0], cap, false, s).1, chunks[1..], k, cap, s) {
      CallLater(first, chunks, k, cap, s);
    }
  }

  // The first message of a worker, and the rest as that of a worker on what is left.
  lemma {:induction false} WorkerFirst(rank: nat, data: seq<Item>, first: seq<Item>, batch: nat, cap: int, s: Strategy)
    requires batch > 0 && data != []
    ensures var newData := if |data| <= batch then data else data[..batch];
      var (packs, carry) := MatchedGroup(first + newData, cap, |data| <= batch, s);
      WorkerMsgs(rank, data, 0, first, batch, cap, s) == [Msg(rank, packs, |newData|)] +
        if |data| <= batch then [Msg(rank, [], -1)] else WorkerMsgs(rank, data[batch..], 0, carry, batch, cap, s)
  {
    hide MatchedGroup, WorkerMsgs;
    var newData := Slice(data, 0, 0 + batch);
    assert newData == if |data| <= batch then data else data[..batch];
    WorkerSends(rank, data, 0, first, batch, cap, s);
    if |data| <= batch {
      EndOfQueue(rank, data, batch, cap, s);
    } else {
      WorkerShift(rank, data, batch, 0, MatchedGroup(first + newData, cap, false, s).1, batch, cap, s);
    }
  }

  lemma {:induction false} WorkerCallsFrom(rank: nat, data: seq<Item>, first: seq<Item>, batch: nat, cap: int, s: Strategy)
    requires batch > 0 && data != []
    ensures WorkerMsgs(rank, data, 0, first, batch, cap, s) ==
      Sent(rank, first, Batches(data, batch), cap, s) + [Msg(rank, [], -1)]
    decreases |data|
  {
    hide MatchedGroup, WorkerMsgs, Sent;
    var chunks, end := Batches(data, batch), [Msg(rank, [], -1)];
    WorkerFirst(rank, data, first, batch, cap, s);
    FirstSent(rank, first, chunks, cap, s);
    if |data| > batch {
      var more := Batches(data[batch..], batch);
      assert more != [] by {
        BatchesOfSome(data[batch..], batch);
      }
      assert chunks == [data[..batch]] + more && chunks[1..] == more;
      hide Batches;
      var (packs, carry) := MatchedGroup(first + data[..batch], cap, false, s);
      WorkerCallsFrom(rank, data[batch..], carry, batch, cap, s);
      Associate([Msg(rank, packs, batch)], Sent(rank, carry, more, cap, s), end);
    } else {
      hide Batches;
      var message := Msg(rank, MatchedGroup(first + data, cap, true, s).0, |data|);
      assert [message] + [] == [message];
    }
  }

  lemma {:induction false} BatchesOfSome(data: seq<Item>, batch: nat)
    requires batch > 0 && data != []
    ensures Batches(data, batch) != []
  {
  }

  lemma {:induction false} CarriedFirst(first: seq<Item>, chunks: seq<seq<Item>>, cap: int, s: Strategy)
    ensures Carried(first, chunks, 0, cap, s) == first
  {
  }

  lemma {:induction false} EndOfQueue(rank: nat, data: seq<Item>, batch: nat, cap: int, s: Strategy)
    requires batch > 0 && batch >= |data|
    ensures WorkerMsgs(rank, data, 0 + batch, [], batch, cap, s) == [Msg(rank, [], -1)]
  {
    var none: seq<Item> := [];
    assert Slice(data, batch, batch + batch) == none && none + none == none;
    WorkerStops(rank, data, batch, [], batch, cap, s);
  }

  // A worker makes one call for every batch, each on what the call before did not pack and the
  // next samples, only the last of them finished; a message has the packs of its call and the
  // number of new samples, and one with -1 ends the queue.
  lemma {:induction false} WorkerCalls(rank: nat, data: seq<Item>, batch: nat, cap: int, s: Strategy)
    requires batch > 0
    ensures var (msgs, chunks) := (WorkerMsgs(rank, data, 0, [], batch, cap, s), Batches(data, batch));
      && |msgs| == |chunks| + 1 && msgs[|chunks|] == Msg(rank, [], -1)
      && forall k :: 0 <= k < |chunks| ==> msgs[k] == Msg(rank, CallPacks([], chunks, k, cap, s), |chunks[k]|)
  {
    if data == [] {
      WorkerStops(rank, data, 0, [], batch, cap, s);
    } else {
      hide WorkerMsgs, Batches, CallPacks;
      WorkerCallsFrom(rank, data, [], batch, cap, s);
    }
  }

  // ---------------------------------------------------------------- the iterable dataset

  // The dataset, `interval` samples at a time, and a last round that falls short.
  function RoundsOf<D>(dataset: seq<D>, interval: nat): (r: seq<seq<D>>)
    requires interval > 0
    ensures r != [] && Concat(r) == dataset
    ensures forall k :: 0 <= k < |r| - 1 ==> |r[k]| == interval
    ensures |r[|r| - 1]| < interval
    decreases |dataset|
  {
    if |dataset| < interval then
      assert Concat([dataset]) == dataset by { ConcatOne(dataset); }
      [dataset]
    else [dataset[..interval]] + RoundsOf(dataset[interval..], interval)
  }

  function EncodedRounds<D>(encode: Encoder<D>, rounds: seq<seq<D>>): (r: seq<seq<Item>>)
    ensures |r| == |rounds|
  {
    seq(|rounds|, k requires 0 <= k < |rounds| => Encoded(encode, rounds[k]))
  }

  function AllCalls(first: seq<Item>, chunks: seq<seq<Item>>, cap: int, s: Strategy): (r: seq<seq<Pack>>)
    ensures |r| == |chunks|
  {
    seq(|chunks|, k requires 0 <= k < |chunks| => CallPacks(first, chunks, k, cap, s))
  }

  lemma {:induction false} RoundsShift<D>(encode: Encoder<D>, dataset: seq<D>, d: nat, pos: nat, data: seq<Item>, interval: nat,
                                          cap: int, s: Strategy)
    requires interval > 0 && d + pos <= |dataset|
    ensures Rounds(encode, dataset, d + pos, data, interval, cap, s) ==
      Rounds(encode, dataset[d..], pos, data, interval, cap, s)
    decreases |dataset| - pos
  {
    hide MatchedGroup, Encoded, Rounds;
    assert Slice(dataset, d + pos, d + pos + interval) == Slice(dataset[d..], pos, pos + interval);
    RoundsStep(encode, dataset, d + pos, data, interval, cap, s);
    RoundsStep(encode, dataset[d..], pos, data, interval, cap, s);
    var round := Slice(dataset[d..], pos, pos + interval);
    if |round| == interval {
      RoundsShift(encode, dataset, d, pos + interval, MatchedGroup(data + Encoded(encode, round), cap, false, s).1, interval, cap, s);
    }
  }

  lemma {:induction false} RoundCallsFrom<D>(encode: Encoder<D>, dataset: seq<D>, first: seq<Item>, interval: nat, cap: int, s: Strategy)
    requires interval > 0
    ensures Rounds(encode, dataset, 0, first, interval, cap, s) ==
      Concat(AllCalls(first, EncodedRounds(encode, RoundsOf(dataset, interval)), cap, s))
    decreases |dataset|
  {
    hide MatchedGroup, Encoded, Rounds, Carried, AllCalls, RoundsOf, Slice, EncodedRounds;
    RoundsOfStep(encode, dataset, interval);
    RoundsStep(encode, dataset, 0, first, interval, cap, s);
    var chunks := EncodedRounds(encode, RoundsOf(dataset, interval));
    FirstOfCalls(first, chunks, cap, s);
    var calls := AllCalls(first, chunks, cap, s);
    assert Concat(calls) == calls[0] + Concat(calls[1..]);
    if |dataset| < interval {
      assert calls[1..] == [];
      assert calls[0] + [] == calls[0];
    } else {
      var carry := MatchedGroup(first + chunks[0], cap, false, s).1;
      RoundsShift(encode, dataset, interval, 0, carry, interval, cap, s);
      RoundCallsFrom(encode, dataset[interval..], carry, interval, cap, s);
    }
  }

  lemma {:induction false} RoundsOfStep<D>(encode: Encoder<D>, dataset: seq<D>, interval: nat)
    requires interval > 0
    ensures Slice(dataset, 0, 0 + interval) == if |dataset| < interval then dataset else dataset[..interval]
    ensures var chunks := EncodedRounds(encode, RoundsOf(dataset, interval));
      && chunks != [] && chunks[0] == Encoded(encode, Slice(dataset, 0, 0 + interval))
      && if |dataset| < interval then |chunks| == 1
         else |chunks| > 1 && chunks[1..] == EncodedRounds(encode, RoundsOf(dataset[interval..], interval))
  {
    hide Encoded;
    var rounds := RoundsOf(dataset, interval);
    if |dataset| >= interval {
      assert rounds[1..] == RoundsOf(dataset[interval..], interval);
    }
  }

  lemma {:induction false} FirstOfCalls(first: seq<Item>, chunks: seq<seq<Item>>, cap: int, s: Strategy)
    requires chunks != []
    ensures AllCalls(first, chunks, cap, s)[0] == MatchedGroup(first + chunks[0], cap, |chunks| == 1, s).0
    ensures var carry := MatchedGroup(first + chunks[0], cap, false, s).1;
      |chunks| > 1 ==> AllCalls(first, chunks, cap, s)[1..] == AllCalls(carry, chunks[1..], cap, s)
  {
    hide MatchedGroup, Carried;
    CarriedFirst(first, chunks, cap, s);
    forall k | 0 <= k < |chunks| - 1
      ensures CallPacks(first, chunks, k + 1, cap, s) ==
        CallPacks(MatchedGroup(first + chunks[0], cap, false, s).1, chunks[1..], k, cap, s) {
      CallLater(first, chunks, k, cap, s);
    }
  }

  // The iterable dataset makes one call for every full round and a finished one for the
  // samples that are left, possibly none, each on what the call before did not pack and the
  // rows of its round; what it yields are the packs of these calls.
  lemma {:induction false} RoundCalls<D>(encode: Encoder<D>, dataset: seq<D>, interval: nat, cap: int, s: Strategy)
    requires interval > 0
    ensures Rounds(encode, dataset, 0, [], interval, cap, s) ==
      Concat(AllCalls([], EncodedRounds(encode, RoundsOf(dataset, interval)), cap, s))
  {
    RoundCallsFrom(encode, dataset, [], interval, cap, s);
  }

  // ------------------------------------------------------------------------- bin packing

  // The packs and the bin that is carried over are the bins, in order.
  lemma {:induction false} BinsInOrder(items: seq<Item>, cap: int, isFinished: bool, s: Strategy)
    requires s.Binpack? && items != []
    ensures var (packs, rest) := MatchedGroup(items, cap, isFinished, s);
      if isFinished || s.bins(items) == [] then packs == s.bins(items) && rest == []
      else packs + [rest] == s.bins(items)
  {
  }

  ghost predicate IsBin(s: Strategy, p: Pack)
    requires s.Binpack?
  {
    exists items :: p in s.bins(items)
  }

  lemma {:induction false} CallSendsBins(items: seq<Item>, cap: int, isFinished: bool, s: Strategy)
    requires s.Binpack?
    ensures forall p :: p in MatchedGroup(items, cap, isFinished, s).0 ==> IsBin(s, p)
  {
    if items != [] {
      BinsInOrder(items, cap, isFinished, s);
      var (packs, rest) := MatchedGroup(items, cap, isFinished, s);
      forall p | p in packs ensures IsBin(s, p) {
        assert p in packs + [rest];
        assert p in s.bins(items);
      }
    }
  }

  // Every pack that a worker sends is a bin of some call.
  lemma {:induction false} WorkerSendsBins(rank: nat, data: seq<Item>, batch: nat, cap: int, s: Strategy, p: Pack)
    requires batch > 0 && s.Binpack? && p in PacksOf(WorkerMsgs(rank, data, 0, [], batch, cap, s))
    ensures IsBin(s, p)
  {
    hide WorkerMsgs, MatchedGroup, IsBin;
    var (msgs, chunks) := (WorkerMsgs(rank, data, 0, [], batch, cap, s), Batches(data, batch));
    WorkerCalls(rank, data, batch, cap, s);
    var k := SentIn(msgs, p);
    if k < |chunks| {
      CallSendsBins(Carried([], chunks, k, cap, s) + chunks[k], cap, k == |chunks| - 1, s);
    }
  }

  lemma {:induction false} SentIn(msgs: seq<Msg>, p: Pack) returns (k: nat)
    requires p in PacksOf(msgs)
    ensures k < |msgs| && p in msgs[k].sequences
  {
    if p in msgs[0].sequences {
      k := 0;
    } else {
      var i := SentIn(msgs[1..], p);
      k := i + 1;
    }
  }

  lemma {:induction false} QueuesSendBins(data: seq<seq<Item>>, rank: nat, batch: nat, cap: int, s: Strategy, p: Pack)
    requires batch > 0 && s.Binpack? && p in AllPacks(Queues(data, rank, batch, cap, s))
    ensures IsBin(s, p)
  {
    hide WorkerMsgs, IsBin, PacksOf;
    if p in PacksOf(WorkerMsgs(rank, data[0], 0, [], batch, cap, s)) {
      WorkerSendsBins(rank, data[0], batch, cap, s, p);
    } else {
      QueuesSendBins(data[1..], rank + 1, batch, cap, s, p);
    }
  }

  // Sequentially, a worker's packs are the next-fit packs of its data.
  lemma {:induction false} WorkerIsNextFit(rank: nat, data: seq<Item>, batch: nat, cap: int, packs: seq<Pack>)
    requires batch > 0
    ensures PacksOf(WorkerMsgs(rank, data, 0, [], batch, cap, Sequential)) == packs <==>
      Concat(packs) == data && NextFitPacks(packs, cap)
  {
    hide WorkerMsgs, PacksOf, MatchedGroup, NextFitPacks;
    BatchingIsIrrelevant(rank, data, batch, cap);
    FinishedCarriesNothing(data, cap, Sequential);
    FinishedExactly(data, packs, cap);
  }
}
