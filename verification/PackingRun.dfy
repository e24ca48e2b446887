// Building a packed dataset (swift/dataset/packing.py:117-147): the split over the workers,
// their messages in any interleaving, and what the collector makes of them.
module PackingRun {
  import opened Sequences
  import opened Packing
  import opened PackingDataset
  import opened PackingCollector
  import opened PackingTheorems
  import opened PackingCalls

  // ------------------------------------------------------------------------ the split

  // Cut points from 0 to n, as np.linspace gives them; how evenly spaced does not matter.
  predicate Cuts(cuts: seq<nat>, n: nat) {
    && cuts != [] && cuts[0] == 0 && cuts[|cuts| - 1] == n
    && forall i, k :: 0 <= i <= k < |cuts| ==> cuts[i] <= cuts[k]
  }

  function Shards<T>(list: seq<T>, cuts: seq<nat>): (r: seq<seq<T>>)
    requires cuts != []
    ensures |r| == |cuts| - 1
  {
    seq(|cuts| - 1, i requires 0 <= i < |cuts| - 1 => Slice(list, cuts[i], cuts[i + 1]))
  }

  lemma {:induction false} OneShard<T>(list: seq<T>, shards: seq<seq<T>>, a: nat, b: nat)
    requires a <= b <= |list| && Concat(shards) == list[..a]
    ensures Concat(shards + [Slice(list, a, b)]) == list[..b]
  {
    ConcatAppend(shards, [Slice(list, a, b)]);
    ConcatOne(Slice(list, a, b));
    hide Concat;
    assert list[..b] == list[..a] + list[a..b];
  }

  // split_list (swift/utils/utils.py:379-388), contiguous: nothing is lost or reordered.
  method SplitList<T>(list: seq<T>, cuts: seq<nat>) returns (shards: seq<seq<T>>)
    requires Cuts(cuts, |list|)
    ensures shards == Shards(list, cuts) && Concat(shards) == list
  {
    assert Concat<T>([]) == [] && list[..0] == [];
    hide Concat, Slice;
    shards := [];
    for i := 0 to |cuts| - 1
      invariant shards == Shards(list, cuts)[..i]
      invariant cuts[i] <= |list| && Concat(shards) == list[..cuts[i]]
    {
      assert cuts[i] <= cuts[i + 1] <= cuts[|cuts| - 1];
      OneShard(list, shards, cuts[i], cuts[i + 1]);
      shards := shards + [Slice(list, cuts[i], cuts[i + 1])];
    }
    assert list[..|list|] == list;
  }

  // ------------------------------------------------------------------ the whole build

  function Samples(n: nat): (r: seq<int>)
    ensures |r| == n
  {
    seq(n, i => i)
  }

  // The length of a sample; 0 for a number that is none.
  function LengthAt(lengths: seq<int>, i: int): int {
    if 0 <= i < |lengths| then lengths[i] else 0
  }

  // The total length of the samples of a pack.
  function LoadAt(lengths: seq<int>, pack: seq<int>): int {
    if pack == [] then 0 else LengthAt(lengths, pack[0]) + LoadAt(lengths, pack[1..])
  }

  predicate FromDataset(p: Pack, lengths: seq<int>) {
    forall i :: 0 <= i < |p| ==> 0 <= p[i].idx < |lengths| && p[i].length == lengths[p[i].idx]
  }

  lemma {:induction false} LoadIsLoadAt(p: Pack, lengths: seq<int>)
    requires FromDataset(p, lengths)
    ensures Load(p) == LoadAt(lengths, IndicesOf(p))
  {
    if p != [] {
      LoadIsLoadAt(p[1..], lengths);
      assert Lengths(p)[1..] == Lengths(p[1..]);
      assert IndicesOf(p)[1..] == IndicesOf(p[1..]);
    }
  }

  lemma {:induction false} InConcat<T>(xss: seq<seq<T>>, k: nat, i: nat)
    requires k < |xss| && i < |xss[k]|
    ensures xss[k][i] in Concat(xss)
  {
    if k > 0 {
      InConcat(xss[1..], k - 1, i);
    }
  }

  lemma {:induction false} PacksFromDataset(packs: seq<Pack>, lengths: seq<int>)
    requires multiset(Concat(packs)) == multiset(Numbered(lengths, 0))
    ensures forall k :: 0 <= k < |packs| ==> FromDataset(packs[k], lengths)
  {
    forall k, i | 0 <= k < |packs| && 0 <= i < |packs[k]|
      ensures 0 <= packs[k][i].idx < |lengths| && packs[k][i].length == lengths[packs[k][i].idx] {
      InConcat(packs, k, i);
      assert packs[k][i] in multiset(Numbered(lengths, 0));
      assert packs[k][i] in Numbered(lengths, 0);
    }
  }

  // Moving items around moves their numbers around.
  lemma {:induction false} SameIndices(a: seq<Item>, b: seq<Item>)
    requires multiset(a) == multiset(b)
    ensures multiset(IndicesOf(a)) == multiset(IndicesOf(b))
  {
    var number := (x: Item) => x.idx;
    SameMapped(number, a, b);
    assert IndicesOf(a) == Mapped(number, a) && IndicesOf(b) == Mapped(number, b);
  }

  // The messages of each rank arrive in the order in which its worker sends them.
  ghost predicate Arrives(trace: seq<Msg>, queues: seq<seq<Msg>>) {
    && (forall i :: 0 <= i < |trace| ==> trace[i].rank < |queues|)
    && (forall rank {:trigger queues[rank]} :: 0 <= rank < |queues| ==> Project(trace, rank) == queues[rank])
  }

  lemma {:induction false} QueueAt(data: seq<seq<Item>>, first: nat, rank: nat, batch: nat, cap: int, s: Strategy)
    requires batch > 0 && rank < |data|
    ensures var queues := Queues(data, first, batch, cap, s);
      |queues| == |data| && queues[rank] == WorkerMsgs(first + rank, data[rank], 0, [], batch, cap, s)
  {
    hide WorkerMsgs;
    QueueCount(data, first, batch, cap, s);
    if rank > 0 {
      QueueAt(data[1..], first + 1, rank - 1, batch, cap, s);
    }
  }

  lemma {:induction false} QueueCount(data: seq<seq<Item>>, first: nat, batch: nat, cap: int, s: Strategy)
    requires batch > 0
    ensures |Queues(data, first, batch, cap, s)| == |data|
  {
    hide WorkerMsgs;
    if data != [] {
      QueueCount(data[1..], first + 1, batch, cap, s);
    }
  }

  lemma {:induction false} ChunkCount(chunks: seq<seq<int>>, offset: int)
    ensures |ChunkData(chunks, offset)| == |chunks|
  {
    if chunks != [] {
      ChunkCount(chunks[1..], offset + |chunks[0]|);
    }
  }

  // The workers' messages are what the collector relies on.
  lemma {:induction false} ArrivalsInterleave(trace: seq<Msg>, data: seq<seq<Item>>, batch: nat, cap: int, s: Strategy)
    requires batch > 0 && Arrives(trace, Queues(data, 0, batch, cap, s))
    ensures Interleaves(trace, Queues(data, 0, batch, cap, s))
  {
    hide WorkerMsgs, WorkerQueue, Project, Queues;
    var queues := Queues(data, 0, batch, cap, s);
    QueueCount(data, 0, batch, cap, s);
    forall rank | 0 <= rank < |queues| ensures WorkerQueue(queues[rank]) {
      QueueAt(data, 0, rank, batch, cap, s);
      WorkerQueueForm(rank, data[rank], 0, [], batch, cap, s);
    }
  }

  // The samples 0 .. n-1 once each, and the total length of every pack.
  predicate PackedFrom(packedIdx: seq<seq<int>>, packedLength: seq<int>, lengths: seq<int>) {
    && multiset(Concat(packedIdx)) == multiset(Samples(|lengths|))
    && |packedLength| == |packedIdx|
    && forall k :: 0 <= k < |packedIdx| ==> packedLength[k] == LoadAt(lengths, packedIdx[k])
  }

  lemma {:induction false} PacksArePackedFrom(packs: seq<Pack>, lengths: seq<int>)
    requires multiset(Concat(packs)) == multiset(Numbered(lengths, 0))
    ensures PackedFrom(Indices(packs), Loads(packs), lengths)
    ensures Concat(packs) == Numbered(lengths, 0) ==> Concat(Indices(packs)) == Samples(|lengths|)
  {
    PacksFromDataset(packs, lengths);
    IndicesOfConcat(packs);
    SameIndices(Concat(packs), Numbered(lengths, 0));
    assert IndicesOf(Numbered(lengths, 0)) == Samples(|lengths|);
    assert Concat(Indices(packs)) == IndicesOf(Concat(packs));
    forall k | 0 <= k < |packs| ensures Loads(packs)[k] == LoadAt(lengths, Indices(packs)[k]) {
      LoadIsLoadAt(packs[k], lengths);
      assert Indices(packs)[k] == IndicesOf(packs[k]);
    }
  }

  // Every bin of every call is within the packing length, or at least unless it is a single
  // sample.
  ghost predicate BinsWithin(s: Strategy, cap: int) {
    s.Binpack? && forall items, p :: p in s.bins(items) ==> Load(p) <= cap
  }

  ghost predicate BinsFit(s: Strategy, cap: int) {
    s.Binpack? && forall items, p :: p in s.bins(items) ==> Fits(p, cap)
  }

  lemma {:induction false} PacksAreBins(data: seq<seq<Item>>, batch: nat, cap: int, s: Strategy)
    requires batch > 0
    ensures var packs := AllPacks(Queues(data, 0, batch, cap, s));
      && (BinsWithin(s, cap) ==> forall k :: 0 <= k < |packs| ==> Load(packs[k]) <= cap)
      && (BinsFit(s, cap) ==> AllFit(packs, cap))
  {
    hide Queues, AllPacks, Load;
    var packs := AllPacks(Queues(data, 0, batch, cap, s));
    if s.Binpack? {
      forall k | 0 <= k < |packs| ensures IsBin(s, packs[k]) {
        QueuesSendBins(data, 0, batch, cap, s, packs[k]);
      }
    }
  }

  // The split, the workers and the collector together.  For every number of workers, batch
  // size, strategy and interleaving: the packs hold the numbers 0 .. n-1 once each, and the
  // recorded lengths are the packs' own.  Sequentially the numbers come in order, and a pack is
  // within the packing length or a single sample; so it is with bins that are.
  method PackSamples(lengths: seq<int>, cuts: seq<nat>, trace: seq<Msg>, batch: nat, cap: int, s: Strategy)
      returns (packedIdx: seq<seq<int>>, packedLength: seq<int>)
    requires batch > 0 && Distributes(s) && Cuts(cuts, |lengths|)
    requires Arrives(trace, Queues(ChunkData(Shards(lengths, cuts), 0), 0, batch, cap, s))
    ensures PackedFrom(packedIdx, packedLength, lengths)
    ensures s.Sequential? ==> Concat(packedIdx) == Samples(|lengths|)
    ensures s.Sequential? || BinsFit(s, cap) ==>
      forall k :: 0 <= k < |packedIdx| ==> packedLength[k] <= cap || |packedIdx[k]| == 1
    ensures BinsWithin(s, cap) ==> forall k :: 0 <= k < |packedIdx| ==> packedLength[k] <= cap
  {
    hide Queues, AllPacks, Interleaves, Arrives, PackedFrom, Load;
    var chunks := SplitList(lengths, cuts);
    ghost var data := ChunkData(chunks, 0);
    ghost var queues := Queues(data, 0, batch, cap, s);
    ChunkCount(chunks, 0);
    QueueCount(data, 0, batch, cap, s);
    ArrivalsInterleave(trace, data, batch, cap, s);
    packedIdx, packedLength := Collect(|chunks|, trace, queues);
    PackedDataset(lengths, chunks, batch, cap, s);
    PacksAreBins(data, batch, cap, s);
    PacksArePackedFrom(AllPacks(queues), lengths);
  }
}
