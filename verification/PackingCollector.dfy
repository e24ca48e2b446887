// The collector of PackingDataset (swift/dataset/packing.py:117-147): messages of all workers
// arrive through one queue, in any interleaving that keeps each worker's own order.
module PackingCollector {
  import opened Sequences
  import opened Packing
  import opened PackingDataset

  // The messages of one rank, in order of arrival.
  function Project(trace: seq<Msg>, rank: nat): seq<Msg> {
    if trace == [] then []
    else
      var n := |trace| - 1;
      Project(trace[..n], rank) + (if trace[n].rank == rank then [trace[n]] else [])
  }

  // What a worker puts in the queue: packs, and at the very end one message with -1.
  predicate WorkerQueue(queue: seq<Msg>) {
    && queue != []
    && queue[|queue| - 1].dataLen == -1 && queue[|queue| - 1].sequences == []
    && forall i :: 0 <= i < |queue| - 1 ==> queue[i].dataLen != -1
  }

  ghost predicate Interleaves(trace: seq<Msg>, queues: seq<seq<Msg>>) {
    && (forall i :: 0 <= i < |trace| ==> trace[i].rank < |queues|)
    && (forall rank {:trigger queues[rank]} :: 0 <= rank < |queues| ==> Project(trace, rank) == queues[rank] && WorkerQueue(queues[rank]))
  }

  function IndicesOf(p: Pack): (r: seq<int>)
    ensures |r| == |p| && forall k :: 0 <= k < |p| ==> r[k] == p[k].idx
  {
    seq(|p|, k requires 0 <= k < |p| => p[k].idx)
  }

  function Indices(packs: seq<Pack>): seq<seq<int>> {
    seq(|packs|, p requires 0 <= p < |packs| => IndicesOf(packs[p]))
  }

  function Loads(packs: seq<Pack>): (r: seq<int>)
    ensures |r| == |packs|
  {
    seq(|packs|, p requires 0 <= p < |packs| => Load(packs[p]))
  }

  function AllPacks(queues: seq<seq<Msg>>): seq<Pack> {
    if queues == [] then [] else PacksOf(queues[0]) + AllPacks(queues[1..])
  }

  lemma {:induction false} ProjectPrefix(trace: seq<Msg>, pos: nat, rank: nat)
    requires pos <= |trace|
    ensures Project(trace[..pos], rank) <= Project(trace, rank)
  {
    if pos < |trace| {
      var n := |trace| - 1;
      assert trace[..n][..pos] == trace[..pos];
      ProjectPrefix(trace[..n], pos, rank);
    } else {
      assert trace[..pos] == trace;
    }
  }

  lemma {:induction false} ProjectNext(trace: seq<Msg>, pos: nat, rank: nat)
    requires pos < |trace|
    ensures Project(trace[..pos + 1], rank) ==
      Project(trace[..pos], rank) + (if trace[pos].rank == rank then [trace[pos]] else [])
  {
    assert trace[..pos + 1][..pos] == trace[..pos];
  }

  // What has been filed so far, rank by rank.
  ghost predicate Filed(seen: seq<Msg>, idx: seq<seq<seq<int>>>, lengths: seq<seq<int>>) {
    && |idx| == |lengths|
    && forall r: nat :: r < |idx| ==>
         idx[r] == Indices(PacksOf(Project(seen, r))) && lengths[r] == Loads(PacksOf(Project(seen, r)))
  }

  // The ranks whose last message has not been taken.
  ghost predicate Running(running: set<nat>, seen: seq<Msg>, queues: seq<seq<Msg>>) {
    forall r: nat :: r in running <==> r < |queues| && Project(seen, r) != queues[r]
  }

  // The collector's loop.  It stops exactly when every message has been taken.
  method Collect(n: nat, trace: seq<Msg>, ghost queues: seq<seq<Msg>>)
      returns (packedIdx: seq<seq<int>>, packedLength: seq<int>)
    requires n == |queues| && Interleaves(trace, queues)
    ensures packedIdx == Indices(AllPacks(queues))
    ensures packedLength == Loads(AllPacks(queues))
  {
    hide Filed, Running, Interleaves;
    var idx: seq<seq<seq<int>>> := seq(n, _ => []);
    var lengths: seq<seq<int>> := seq(n, _ => []);
    var finished, pos := 0, 0;
    ghost var running := Below(n);
    NothingTaken(trace, queues, idx, lengths);
    while finished < n
      invariant 0 <= pos <= |trace| && |idx| == |lengths| == n
      invariant |running| == n - finished
      invariant Running(running, trace[..pos], queues)
      invariant Filed(trace[..pos], idx, lengths)
      decreases |trace| - pos
    {
      SomethingLeft(trace, queues, pos, running);
      var (rank, sequences, dataLen) := (trace[pos].rank, trace[pos].sequences, trace[pos].dataLen);
      TakeOne(trace, queues, pos, running);
      FileOne(trace, pos, idx, lengths, n);
      pos := pos + 1;
      if dataLen == -1 {
        finished := finished + 1;
        running := running - {rank};
      } else {
        idx := idx[rank := idx[rank] + Indices(sequences)];
        lengths := lengths[rank := lengths[rank] + Loads(sequences)];
      }
    }
    packedIdx, packedLength := Concat(idx), Concat(lengths);
    AllTaken(trace[..pos], queues, running, idx, lengths);
    Chain(queues, idx, lengths);
  }

  lemma {:induction false} NothingTaken(trace: seq<Msg>, queues: seq<seq<Msg>>, idx: seq<seq<seq<int>>>, lengths: seq<seq<int>>)
    requires Interleaves(trace, queues)
    requires |idx| == |lengths| == |queues| && forall r :: 0 <= r < |queues| ==> idx[r] == [] && lengths[r] == []
    ensures Running(Below(|queues|), trace[..0], queues)
    ensures Filed(trace[..0], idx, lengths)
  {
  }

  lemma {:induction false} AllTaken(seen: seq<Msg>, queues: seq<seq<Msg>>, running: set<nat>, idx: seq<seq<seq<int>>>, lengths: seq<seq<int>>)
    requires Running(running, seen, queues) && |running| == 0
    requires Filed(seen, idx, lengths) && |idx| == |queues|
    ensures forall r :: 0 <= r < |queues| ==>
      idx[r] == Indices(PacksOf(queues[r])) && lengths[r] == Loads(PacksOf(queues[r]))
  {
    assert running == {};
  }

  lemma {:induction false} FileOne(trace: seq<Msg>, pos: nat, idx: seq<seq<seq<int>>>, lengths: seq<seq<int>>, n: nat)
    requires pos < |trace| && Filed(trace[..pos], idx, lengths) && |idx| == |lengths| == n && trace[pos].rank < n
    ensures var m := trace[pos];
      && Filed(trace[..pos + 1], idx[m.rank := idx[m.rank] + Indices(m.sequences)],
               lengths[m.rank := lengths[m.rank] + Loads(m.sequences)])
      && (m.sequences == [] ==> Filed(trace[..pos + 1], idx, lengths))
  {
    hide Project, PacksOf, Indices, Loads;
    var m := trace[pos];
    forall r: nat | r < n
      ensures var now := PacksOf(Project(trace[..pos + 1], r));
        && Indices(now) == (if r == m.rank then idx[r] + Indices(m.sequences) else idx[r])
        && Loads(now) == (if r == m.rank then lengths[r] + Loads(m.sequences) else lengths[r])
        && (m.sequences == [] ==> Indices(now) == idx[r] && Loads(now) == lengths[r])
    {
      NextPacks(trace, pos, r);
    }
  }

  // What one message adds to the packs of a rank.
  predicate FiledNext(trace: seq<Msg>, pos: nat, r: nat)
    requires pos < |trace|
  {
    var m, was, now := trace[pos], PacksOf(Project(trace[..pos], r)), PacksOf(Project(trace[..pos + 1], r));
    && (m.rank != r || m.sequences == [] ==> now == was)
    && (m.rank == r ==> Indices(now) == Indices(was) + Indices(m.sequences) && Loads(now) == Loads(was) + Loads(m.sequences))
  }

  lemma {:induction false} NextPacks(trace: seq<Msg>, pos: nat, r: nat)
    requires pos < |trace|
    ensures FiledNext(trace, pos, r)
  {
    var m, before := trace[pos], Project(trace[..pos], r);
    ProjectNext(trace, pos, r);
    if m.rank == r {
      PacksOfAppend(before, [m]);
      OneMessage(m, []);
      assert [m] + [] == [m] && m.sequences + [] == m.sequences;
      assert PacksOf([]) == [];
      hide Project, PacksOf, Indices, Loads;
      FileMore(PacksOf(before), m.sequences);
      assert m.sequences == [] ==> PacksOf(before) + m.sequences == PacksOf(before);
    } else {
      assert before + [] == before;
    }
  }

  lemma {:induction false} FileMore(a: seq<Pack>, b: seq<Pack>)
    ensures Indices(a + b) == Indices(a) + Indices(b)
    ensures Loads(a + b) == Loads(a) + Loads(b)
  {
  }

  lemma {:induction false} SomethingLeft(trace: seq<Msg>, queues: seq<seq<Msg>>, pos: nat, running: set<nat>)
    requires pos <= |trace| && Interleaves(trace, queues) && |running| > 0
    requires Running(running, trace[..pos], queues)
    ensures pos < |trace|
  {
    var r :| r in running;
    assert queues[r] == Project(trace, r);
    assert trace[..|trace|] == trace;
  }

  // A rank is finished exactly when its -1 arrives.
  lemma {:induction false} TakeOne(trace: seq<Msg>, queues: seq<seq<Msg>>, pos: nat, running: set<nat>)
    requires pos < |trace| && Interleaves(trace, queues) && Running(running, trace[..pos], queues)
    ensures var m := trace[pos];
      && m.rank < |queues| && m.rank in running
      && (m.dataLen == -1 ==> m.sequences == [] && Running(running - {m.rank}, trace[..pos + 1], queues))
      && (m.dataLen != -1 ==> Running(running, trace[..pos + 1], queues))
  {
    var m := trace[pos];
    var queue := queues[m.rank];
    forall r: nat | r < |queues|
      ensures Project(trace[..pos + 1], r) == Project(trace[..pos], r) + (if m.rank == r then [m] else []) {
      ProjectNext(trace, pos, r);
    }
    ProjectPrefix(trace, pos + 1, m.rank);
    hide Project;
    var k := |Project(trace[..pos], m.rank)|;
    assert queue[k] == m;
  }

  // itertools.chain.from_iterable over the ranks
  lemma {:induction false} Chain(queues: seq<seq<Msg>>, idx: seq<seq<seq<int>>>, lengths: seq<seq<int>>)
    requires |idx| == |lengths| == |queues|
    requires forall r :: 0 <= r < |queues| ==> idx[r] == Indices(PacksOf(queues[r])) && lengths[r] == Loads(PacksOf(queues[r]))
    ensures Concat(idx) == Indices(AllPacks(queues)) && Concat(lengths) == Loads(AllPacks(queues))
  {
    if queues != [] {
      Chain(queues[1..], idx[1..], lengths[1..]);
      FileMore(PacksOf(queues[0]), AllPacks(queues[1..]));
    }
  }
}
