// What a packed dataset is: every sample exactly once, in packs that fit, and how many packs
// the order-preserving strategy needs.
module PackingTheorems {
  import opened Sequences
  import opened Packing
  import opened PackingDataset
  import opened PackingCollector

  // ------------------------------------------------------------------ packs that fit

  // Within the packing length, or a sample on its own.
  predicate Fits(p: Pack, cap: int) {
    Load(p) <= cap || |p| == 1
  }

  predicate AllFit(packs: seq<Pack>, cap: int) {
    forall k :: 0 <= k < |packs| ==> Fits(packs[k], cap)
  }

  lemma {:induction false} AddAllFits(st: Open, items: seq<Item>, cap: int)
    requires AllFit(st.packs, cap) && (st.cur != [] ==> Fits(st.cur, cap))
    ensures var r := AddAll(st, items, cap); AllFit(r.packs, cap) && (r.cur != [] ==> Fits(r.cur, cap))
    decreases |items|
  {
    if items != [] {
      LoadAppend(st.cur, items[0]);
      hide Load;
      AddAllFits(Add(st, items[0], cap), items[1..], cap);
    }
  }

  lemma {:induction false} SequentialFits(items: seq<Item>, cap: int)
    ensures AllFit(MatchedGroup(items, cap, true, Sequential).0, cap)
  {
    AddAllFits(Open([], []), items, cap);
  }

  // ---------------------------------------------------------------- the whole dataset

  function Numbered(lengths: seq<int>, offset: int): (r: seq<Item>)
    ensures |r| == |lengths|
  {
    seq(|lengths|, i requires 0 <= i < |lengths| => Item(offset + i, lengths[i]))
  }

  // The data of each worker: its chunk, numbered from its offset (lines 119-126, 163).
  function ChunkData(chunks: seq<seq<int>>, offset: int): seq<seq<Item>> {
    if chunks == [] then [] else [Numbered(chunks[0], offset)] + ChunkData(chunks[1..], offset + |chunks[0]|)
  }

  function Queues(data: seq<seq<Item>>, rank: nat, batch: nat, cap: int, s: Strategy): seq<seq<Msg>>
    requires batch > 0
  {
    if data == [] then []
    else [WorkerMsgs(rank, data[0], 0, [], batch, cap, s)] + Queues(data[1..], rank + 1, batch, cap, s)
  }

  lemma {:induction false} ChunksAreTheDataset(chunks: seq<seq<int>>, offset: int)
    ensures Concat(ChunkData(chunks, offset)) == Numbered(Concat(chunks), offset)
  {
    if chunks != [] {
      ChunksAreTheDataset(chunks[1..], offset + |chunks[0]|);
      assert Numbered(chunks[0] + Concat(chunks[1..]), offset) ==
        Numbered(chunks[0], offset) + Numbered(Concat(chunks[1..]), offset + |chunks[0]|);
    }
  }

  lemma {:induction false} QueuesConserve(data: seq<seq<Item>>, rank: nat, batch: nat, cap: int, s: Strategy)
    requires batch > 0 && Distributes(s)
    ensures multiset(Concat(AllPacks(Queues(data, rank, batch, cap, s)))) == multiset(Concat(data))
  {
    hide WorkerMsgs, Distributes;
    if data != [] {
      var sent := WorkerMsgs(rank, data[0], 0, [], batch, cap, s);
      var rest := Queues(data[1..], rank + 1, batch, cap, s);
      assert ([sent] + rest)[1..] == rest;
      assert AllPacks([sent] + rest) == PacksOf(sent) + AllPacks(rest);
      assert [] + From(data[0], 0) == data[0];
      WorkerConserves(rank, data[0], 0, [], batch, cap, s);
      QueuesConserve(data[1..], rank + 1, batch, cap, s);
      hide AllPacks, PacksOf, From;
      ConcatAppend(PacksOf(sent), AllPacks(rest));
      assert Concat(data) == data[0] + Concat(data[1..]);
      hide Concat;
    }
  }

  lemma {:induction false} QueuesInOrder(data: seq<seq<Item>>, rank: nat, batch: nat, cap: int)
    requires batch > 0
    ensures Concat(AllPacks(Queues(data, rank, batch, cap, Sequential))) == Concat(data)
    ensures AllFit(AllPacks(Queues(data, rank, batch, cap, Sequential)), cap)
  {
    hide WorkerMsgs, MatchedGroup, Fits;
    if data != [] {
      var sent := WorkerMsgs(rank, data[0], 0, [], batch, cap, Sequential);
      var rest := Queues(data[1..], rank + 1, batch, cap, Sequential);
      QueuesInOrder(data[1..], rank + 1, batch, cap);
      BatchingIsIrrelevant(rank, data[0], batch, cap);
      GroupConserves(data[0], cap, true, Sequential);
      FinishedCarriesNothing(data[0], cap, Sequential);
      SequentialFits(data[0], cap);
      ConcatAppend(PacksOf(sent), AllPacks(rest));
      assert ([sent] + rest)[1..] == rest;
      hide Concat, AllPacks;
      assert Concat(PacksOf(sent)) + [] == Concat(PacksOf(sent));
    }
  }

  lemma {:induction false} IndicesOfConcat(packs: seq<Pack>)
    ensures Concat(Indices(packs)) == seq(|Concat(packs)|, i requires 0 <= i < |Concat(packs)| => Concat(packs)[i].idx)
  {
    if packs != [] {
      IndicesOfConcat(packs[1..]);
      assert Indices(packs) == Indices([packs[0]]) + Indices(packs[1..]);
      ConcatAppend(Indices([packs[0]]), Indices(packs[1..]));
      ConcatOne(Indices([packs[0]])[0]);
      assert Indices([packs[0]]) == [Indices([packs[0]])[0]];
    }
  }

  // Every worker's queue has the form the collector relies on.
  lemma {:induction false} WorkerQueueForm(rank: nat, data: seq<Item>, i: nat, input: seq<Item>, batch: nat, cap: int, s: Strategy)
    requires batch > 0
    ensures WorkerQueue(WorkerMsgs(rank, data, i, input, batch, cap, s))
    ensures forall m :: m in WorkerMsgs(rank, data, i, input, batch, cap, s) ==> m.rank == rank
    decreases if i < |data| then |data| - i else 0, |input|
  {
    hide MatchedGroup, WorkerQueue, WorkerMsgs, Slice;
    var newData := Slice(data, i, i + batch);
    if input + newData == [] {
      WorkerStops(rank, data, i, input, batch, cap, s);
      LastOnly(rank);
    } else {
      WorkerSends(rank, data, i, input, batch, cap, s);
      var (packs, carry) := MatchedGroup(input + newData, cap, i + batch >= |data|, s);
      WorkerQueueForm(rank, data, i + batch, carry, batch, cap, s);
      QueueMore(Msg(rank, packs, |newData|), WorkerMsgs(rank, data, i + batch, carry, batch, cap, s));
    }
  }

  lemma {:induction false} LastOnly(rank: nat)
    ensures WorkerQueue([Msg(rank, [], -1)])
  {
  }

  lemma {:induction false} QueueMore(m: Msg, rest: seq<Msg>)
    requires m.dataLen != -1 && WorkerQueue(rest)
    ensures WorkerQueue([m] + rest)
    ensures (forall m' :: m' in rest ==> m'.rank == m.rank) ==> forall m' :: m' in [m] + rest ==> m'.rank == m.rank
  {
  }

  // The workers' packs hold every sample exactly once; under the sequential strategy in
  // dataset order, and in packs that fit.
  lemma {:induction false} PackedDataset(lengths: seq<int>, chunks: seq<seq<int>>, batch: nat, cap: int, s: Strategy)
    requires batch > 0 && Distributes(s) && Concat(chunks) == lengths
    ensures var packs := AllPacks(Queues(ChunkData(chunks, 0), 0, batch, cap, s));
      && multiset(Concat(packs)) == multiset(Numbered(lengths, 0))
      && (s.Sequential? ==> AllFit(packs, cap) && Concat(packs) == Numbered(lengths, 0))
  {
    var data := ChunkData(chunks, 0);
    ChunksAreTheDataset(chunks, 0);
    QueuesConserve(data, 0, batch, cap, s);
    if s.Sequential? {
      QueuesInOrder(data, 0, batch, cap);
    }
  }

  // ------------------------------------------------------------------ how many packs

  // Any two neighbours are together at least as long as the packing length.
  predicate PairsFull(packs: seq<Pack>, cap: int) {
    forall k :: 0 <= k < |packs| - 1 ==> Load(packs[k]) + Load(packs[k + 1]) >= cap
  }

  function Closed(st: Open): seq<Pack> {
    if st.cur != [] then st.packs + [st.cur] else st.packs
  }

  predicate NextFit(st: Open, cap: int) {
    && PairsFull(Closed(st), cap)
    && (st.cur == [] && st.packs != [] ==> Load(st.packs[|st.packs| - 1]) >= cap)
    && Load(st.cur) >= 0
  }

  lemma {:induction false} PairsSnoc(packs: seq<Pack>, p: Pack, cap: int)
    ensures PairsFull(packs + [p], cap) <==>
      PairsFull(packs, cap) && (packs != [] ==> Load(packs[|packs| - 1]) + Load(p) >= cap)
  {
    hide Load;
    var all := packs + [p];
    if PairsFull(all, cap) {
      forall k | 0 <= k < |packs| - 1 ensures Load(packs[k]) + Load(packs[k + 1]) >= cap {
        assert all[k] == packs[k] && all[k + 1] == packs[k + 1];
      }
      assert packs != [] ==> all[|packs| - 1] == packs[|packs| - 1] && all[|packs| - 1 + 1] == p;
    }
  }

  lemma {:induction false} AddNextFit(st: Open, item: Item, cap: int)
    requires NextFit(st, cap) && item.length >= 0
    ensures NextFit(Add(st, item, cap), cap)
  {
    LoadAppend(st.cur, item);
    LoadAppend([], item);
    assert [] + [item] == [item];
    assert Load([]) == 0;
    PairsSnoc(st.packs, st.cur, cap);
    PairsSnoc(st.packs, st.cur + [item], cap);
    PairsSnoc(st.packs + [st.cur], [item], cap);
    hide Load, PairsFull;
  }

  lemma {:induction false} AddAllNextFit(st: Open, items: seq<Item>, cap: int)
    requires NextFit(st, cap) && forall i :: 0 <= i < |items| ==> items[i].length >= 0
    ensures NextFit(AddAll(st, items, cap), cap)
    decreases |items|
  {
    hide NextFit, Add;
    if items != [] {
      AddNextFit(st, items[0], cap);
      AddAllNextFit(Add(st, items[0], cap), items[1..], cap);
    }
  }

  lemma {:induction false} LoadOfPacks(packs: seq<Pack>)
    ensures Load(Concat(packs)) == Sum(Loads(packs))
  {
    if packs != [] {
      LoadOfPacks(packs[1..]);
      LoadConcat(packs[0], Concat(packs[1..]));
      assert Loads(packs)[1..] == Loads(packs[1..]);
    }
  }

  // Half the packs, times the packing length, is at most the total.
  lemma {:induction false} OneMoreTimes(n: nat, c: int)
    ensures (n + 1) * c == n * c + c
  {
  }

  lemma {:induction false} HalfFull(packs: seq<Pack>, cap: int)
    requires PairsFull(packs, cap) && forall k :: 0 <= k < |packs| ==> Load(packs[k]) >= 0
    ensures (|packs| / 2) * cap <= Sum(Loads(packs))
  {
    hide Load;
    var half := |packs| / 2;
    if |packs| >= 2 {
      var rest := packs[2..];
      assert forall k :: 0 <= k < |rest| ==> rest[k] == packs[k + 2];
      HalfFull(rest, cap);
      assert Loads(packs)[1..][1..] == Loads(rest);
      assert Sum(Loads(packs)) == Load(packs[0]) + Load(packs[1]) + Sum(Loads(rest));
      assert half == |rest| / 2 + 1;
      OneMoreTimes(|rest| / 2, cap);
    } else {
      assert half == 0;
      assert packs != [] ==> Loads(packs)[1..] == [];
    }
  }

  lemma {:induction false} RemoveAt<T>(s: seq<T>, k: nat)
    requires k < |s|
    ensures multiset(s) == multiset(s[..k] + s[k + 1..]) + multiset{s[k]}
  {
    assert s == s[..k] + ([s[k]] + s[k + 1..]);
  }

  lemma {:induction false} LoadWithout(items: seq<Item>, k: nat)
    requires k < |items|
    ensures Load(items) == items[k].length + Load(items[..k] + items[k + 1..])
  {
    assert items == items[..k] + [items[k]] + items[k + 1..];
    LoadConcat(items[..k] + [items[k]], items[k + 1..]);
    LoadAppend(items[..k], items[k]);
    LoadConcat(items[..k], items[k + 1..]);
  }

  lemma {:induction false} LoadIsAMultisetFact(a: seq<Item>, b: seq<Item>)
    requires multiset(a) == multiset(b)
    ensures Load(a) == Load(b)
    decreases |a|
  {
    hide Load;
    if a == [] {
      assert |multiset(b)| == 0;
    } else {
      assert a[0] in multiset(b);
      var k :| 0 <= k < |b| && b[k] == a[0];
      RemoveAt(a, 0);
      RemoveAt(b, k);
      LoadWithout(a, 0);
      LoadWithout(b, k);
      var a', b' := a[..0] + a[0 + 1..], b[..k] + b[k + 1..];
      assert multiset(a') == multiset(a) - multiset{a[0]} && multiset(b') == multiset(b) - multiset{a[0]};
      LoadIsAMultisetFact(a', b');
    }
  }

  lemma {:induction false} LoadsBound(bins: seq<Pack>, cap: int)
    requires forall k :: 0 <= k < |bins| ==> Load(bins[k]) <= cap
    ensures Sum(Loads(bins)) <= |bins| * cap
  {
    hide Load;
    if bins != [] {
      LoadsBound(bins[1..], cap);
      assert Loads(bins)[1..] == Loads(bins[1..]);
      assert |bins| * cap == |bins[1..]| * cap + cap;
    }
  }

  lemma {:induction false} LoadNonNegative(items: seq<Item>)
    requires forall i :: 0 <= i < |items| ==> items[i].length >= 0
    ensures Load(items) >= 0
  {
    if items != [] {
      LoadNonNegative(items[1..]);
      assert Lengths(items)[1..] == Lengths(items[1..]);
    }
  }

  lemma {:induction false} PartsAreItems(packs: seq<Pack>, items: seq<Item>)
    requires Concat(packs) == items && forall i :: 0 <= i < |items| ==> items[i].length >= 0
    ensures forall k :: 0 <= k < |packs| ==> Load(packs[k]) >= 0
  {
    if packs != [] {
      var n := |packs[0]|;
      assert packs[0] == items[..n] && Concat(packs[1..]) == items[n..];
      LoadNonNegative(packs[0]);
      PartsAreItems(packs[1..], items[n..]);
      assert forall k :: 1 <= k < |packs| ==> packs[k] == packs[1..][k - 1];
    }
  }

  // The next-fit bound: m sequential packs satisfy floor(m / 2) * cap <= total, so m is at
  // most twice the number of bins of any packing that fits, plus one.
  lemma {:induction false} NextFitBound(items: seq<Item>, cap: int, bins: seq<Pack>)
    requires cap > 0 && forall i :: 0 <= i < |items| ==> items[i].length >= 0
    requires multiset(Concat(bins)) == multiset(items) && forall k :: 0 <= k < |bins| ==> Load(bins[k]) <= cap
    ensures var packs := MatchedGroup(items, cap, true, Sequential).0;
      && Concat(packs) == items
      && PairsFull(packs, cap)
      && (|packs| / 2) * cap <= Load(items)
      && |packs| <= 2 * |bins| + 1
  {
    hide Load, Add;
    var packs := MatchedGroup(items, cap, true, Sequential).0;
    GroupConserves(items, cap, true, Sequential);
    FinishedCarriesNothing(items, cap, Sequential);
    assert Concat(packs) + [] == Concat(packs);
    StartsNextFit(cap);
    AddAllNextFit(Open([], []), items, cap);
    assert packs == Closed(AddAll(Open([], []), items, cap));
    PartsAreItems(packs, items);
    HalfFull(packs, cap);
    LoadOfPacks(packs);
    LoadOfPacks(bins);
    LoadIsAMultisetFact(Concat(bins), items);
    LoadsBound(bins, cap);
    FewerHalves(|packs| / 2, |bins|, cap);
  }

  lemma {:induction false} StartsNextFit(cap: int)
    ensures NextFit(Open([], []), cap)
  {
  }

  lemma {:induction false} FewerHalves(half: nat, bins: nat, cap: int)
    requires cap > 0 && half * cap <= bins * cap
    ensures half <= bins
  {
    OneMoreTimes(bins, cap);
    assert bins + 1 <= half ==> (bins + 1) * cap <= half * cap;
  }
}
