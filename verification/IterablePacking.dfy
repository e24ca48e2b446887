// IterablePackingDataset (swift/dataset/packing.py:187-304): rounds of samples go to a pool
// of workers, come back in any order, are put back in place and packed.
module IterablePacking {
  import opened Options
  import opened Sequences
  import opened Packing
  import opened PackingDataset

  // What the workers make of a sample: its rows, or none when it is dropped.
  type Encoder<!D> = D -> seq<Item>

  function Encoded<D>(encode: Encoder<D>, data: seq<D>): seq<Item> {
    if data == [] then [] else encode(data[0]) + Encoded(encode, data[1..])
  }

  lemma {:induction false} EncodedAppend<D>(encode: Encoder<D>, a: seq<D>, b: seq<D>)
    ensures Encoded(encode, a + b) == Encoded(encode, a) + Encoded(encode, b)
  {
    if a == [] {
      assert a + b == b;
    } else {
      assert (a + b)[1..] == a[1..] + b;
      EncodedAppend(encode, a[1..], b);
    }
  }

  // The order in which the pool finishes the samples of a round.
  predicate Permutes(order: seq<nat>, n: nat) {
    && |order| == n
    && (forall i :: 0 <= i < n ==> order[i] < n)
    && (forall i, k :: 0 <= i < k < n ==> order[i] != order[k])
  }

  lemma {:induction false} EveryoneCounted(order: seq<nat>, n: nat, i: nat)
    requires Permutes(order, n) && i < n
    ensures i in order
  {
    var seen := Values(order);
    ValuesOf(order);
    if i !in order {
      assert seen <= Below(n) - {i};
      SubsetSize(seen, Below(n) - {i});
    }
  }

  function Values(s: seq<nat>): set<nat> {
    set i | 0 <= i < |s| :: s[i]
  }

  lemma {:induction false} ValuesOf(s: seq<nat>)
    requires forall i, k :: 0 <= i < k < |s| ==> s[i] != s[k]
    ensures |Values(s)| == |s|
  {
    if s != [] {
      var n := |s| - 1;
      ValuesOf(s[..n]);
      assert Values(s) == Values(s[..n]) + {s[n]};
    }
  }

  lemma {:induction false} SubsetSize(a: set<nat>, b: set<nat>)
    requires a <= b
    ensures |a| <= |b|
  {
    assert b == a + (b - a);
  }

  // _fetch_data_out_queue (lines 252-270)
  method FetchDataOutQueue<D>(lastRes: seq<Item>, round: seq<D>, encode: Encoder<D>, order: seq<nat>) returns (data: seq<Item>)
    requires Permutes(order, |round|)
    ensures data == lastRes + Encoded(encode, round)
  {
    var n := |round|;
    var res: seq<seq<Item>> := seq(n, _ => []);
    for k := 0 to n
      invariant |res| == n
      invariant forall i: nat :: i < n ==> res[i] == if i in order[..k] then encode(round[i]) else []
    {
      var i := order[k];
      var rows := encode(round[i]);
      assert order[..k + 1] == order[..k] + [i];
      if rows != [] {
        res := res[i := rows];
      }
    }
    assert order[..n] == order;
    forall i: nat | i < n ensures res[i] == encode(round[i]) {
      EveryoneCounted(order, n, i);
    }
    SlotsInOrder(encode, round, res);
    data := lastRes + Concat(res);
  }

  lemma {:induction false} SlotsInOrder<D>(encode: Encoder<D>, round: seq<D>, res: seq<seq<Item>>)
    requires |res| == |round| && forall i :: 0 <= i < |round| ==> res[i] == encode(round[i])
    ensures Concat(res) == Encoded(encode, round)
  {
    if round != [] {
      SlotsInOrder(encode, round[1..], res[1..]);
    }
  }

  // __iter__ (lines 282-304) on a finite dataset, from position pos on.
  function Rounds<D>(encode: Encoder<D>, dataset: seq<D>, pos: nat, data: seq<Item>, interval: nat, cap: int, s: Strategy): seq<Pack>
    requires interval > 0 && pos <= |dataset|
    decreases |dataset| - pos
  {
    var round := Slice(dataset, pos, pos + interval);
    var finished := |round| != interval;
    var (packs, rest) := MatchedGroup(data + Encoded(encode, round), cap, finished, s);
    if finished then packs
    else packs + Rounds(encode, dataset, pos + interval, rest, interval, cap, s)
  }

  lemma {:induction false} RoundsStep<D>(encode: Encoder<D>, dataset: seq<D>, pos: nat, data: seq<Item>, interval: nat, cap: int, s: Strategy)
    requires interval > 0 && pos <= |dataset|
    ensures var round := Slice(dataset, pos, pos + interval);
      var finished := |round| != interval;
      var (packs, rest) := MatchedGroup(data + Encoded(encode, round), cap, finished, s);
      && (!finished ==> pos + interval <= |dataset|)
      && Rounds(encode, dataset, pos, data, interval, cap, s) ==
           if finished then packs else packs + Rounds(encode, dataset, pos + interval, rest, interval, cap, s)
  {
    hide MatchedGroup, Encoded;
  }

  method Iterate<D>(encode: Encoder<D>, dataset: seq<D>, interval: nat, cap: int, s: Strategy, schedule: (nat, nat) -> seq<nat>)
      returns (rows: seq<Pack>)
    requires interval > 0 && forall round: nat, n: nat :: Permutes(schedule(round, n), n)
    ensures rows == Rounds(encode, dataset, 0, [], interval, cap, s)
  {
    hide MatchedGroup, Encoded, Permutes, Rounds;
    rows := [];
    ghost var all := Rounds(encode, dataset, 0, [], interval, cap, s);
    assert [] + all == all;
    if dataset == [] {
      EmptyDataset(encode, dataset, interval, cap, s);
      return;
    }
    var pos, data, round := 0, [], 0;
    while true
      invariant 0 <= pos <= |dataset|
      invariant rows + Rounds(encode, dataset, pos, data, interval, cap, s) == all
      decreases |dataset| - pos
    {
      var samples := Slice(dataset, pos, pos + interval);
      var finished := |samples| != interval;
      RoundsStep(encode, dataset, pos, data, interval, cap, s);
      data := FetchDataOutQueue(data, samples, encode, schedule(round, |samples|));
      var packs, rest := CalculateMatchedGroup(data, cap, finished, s);
      ghost var sofar := rows;
      rows := rows + packs;
      if finished {
        break;
      }
      Associate(sofar, packs, Rounds(encode, dataset, pos + interval, rest, interval, cap, s));
      pos, data, round := pos + interval, rest, round + 1;
    }
  }

  lemma {:induction false} EmptyDataset<D>(encode: Encoder<D>, dataset: seq<D>, interval: nat, cap: int, s: Strategy)
    requires interval > 0 && dataset == []
    ensures Rounds(encode, dataset, 0, [], interval, cap, s) == []
  {
    assert Slice(dataset, 0, interval) == [];
    assert Encoded(encode, []) == [];
  }

  // Under the sequential strategy the packs do not depend on the interval: they are those
  // of packing everything that was not dropped, in dataset order.
  lemma {:induction false} RoundsAreOnePass<D>(encode: Encoder<D>, dataset: seq<D>, pos: nat, interval: nat, cap: int)
    requires interval > 0 && pos <= |dataset|
    ensures var st := AddAll(Open([], []), Encoded(encode, dataset[..pos]), cap);
      st.packs + Rounds(encode, dataset, pos, st.cur, interval, cap, Sequential)
      == MatchedGroup(Encoded(encode, dataset), cap, true, Sequential).0
    decreases |dataset| - pos
  {
    hide Add, Load, Encoded, Concat;
    var before := Encoded(encode, dataset[..pos]);
    var st := AddAll(Open([], []), before, cap);
    var round := Slice(dataset, pos, pos + interval);
    var j := pos + |round|;
    assert dataset[..j] == dataset[..pos] + round;
    EncodedAppend(encode, dataset[..pos], round);
    CarryOver(before, Encoded(encode, round), cap);
    var input := st.cur + Encoded(encode, round);
    var after := AddAll(Open([], []), input, cap);
    if |round| == interval {
      RoundsAreOnePass(encode, dataset, j, interval, cap);
      var rest := Rounds(encode, dataset, j, after.cur, interval, cap, Sequential);
      assert var st := AddAll(Open([], []), input, cap); MatchedGroup(input, cap, false, Sequential) == (st.packs, st.cur);
      assert Rounds(encode, dataset, pos, st.cur, interval, cap, Sequential) == after.packs + rest;
      hide Rounds, AddAll;
      Associate(st.packs, after.packs, rest);
    } else {
      assert dataset[..j] == dataset;
      GroupFinished(input, cap);
      GroupFinished(Encoded(encode, dataset), cap);
      hide MatchedGroup;
      assert st.packs + (after.packs + [after.cur]) == (st.packs + after.packs) + [after.cur];
    }
  }

  lemma {:induction false} GroupFinished(items: seq<Item>, cap: int)
    ensures var st := AddAll(Open([], []), items, cap);
      MatchedGroup(items, cap, true, Sequential).0 == if st.cur != [] then st.packs + [st.cur] else st.packs
  {
  }

  // One round takes the next samples off the dataset.
  lemma {:induction false} RoundSplits<D>(encode: Encoder<D>, dataset: seq<D>, pos: nat, interval: nat)
    requires pos <= |dataset|
    ensures var round := Slice(dataset, pos, pos + interval);
      && pos + |round| <= |dataset|
      && (|round| != interval ==> dataset[pos + |round|..] == [])
      && Encoded(encode, dataset[pos..]) == Encoded(encode, round) + Encoded(encode, dataset[pos + |round|..])
  {
    hide Encoded;
    var round := Slice(dataset, pos, pos + interval);
    assert dataset[pos..] == round + dataset[pos + |round|..];
    EncodedAppend(encode, round, dataset[pos + |round|..]);
  }

  lemma {:induction false} RoundsConserve<D>(encode: Encoder<D>, dataset: seq<D>, pos: nat, data: seq<Item>, interval: nat, cap: int, s: Strategy)
    requires interval > 0 && pos <= |dataset| && Distributes(s)
    ensures multiset(Concat(Rounds(encode, dataset, pos, data, interval, cap, s))) ==
      multiset(data + Encoded(encode, dataset[pos..]))
    decreases |dataset| - pos
  {
    hide MatchedGroup, Distributes, Concat, Encoded, Rounds, Slice;
    var round := Slice(dataset, pos, pos + interval);
    RoundSplits(encode, dataset, pos, interval);
    var input, left := data + Encoded(encode, round), Encoded(encode, dataset[pos + |round|..]);
    Associate(data, Encoded(encode, round), left);
    var finished := |round| != interval;
    var (packs, rest) := MatchedGroup(input, cap, finished, s);
    GroupConserves(input, cap, finished, s);
    RoundsStep(encode, dataset, pos, data, interval, cap, s);
    if finished {
      FinishedCarriesNothing(input, cap, s);
      NothingEncoded(encode);
      assert input + [] == input && Concat(packs) + [] == Concat(packs);
    } else {
      RoundsConserve(encode, dataset, pos + interval, rest, interval, cap, s);
      var later := Rounds(encode, dataset, pos + interval, rest, interval, cap, s);
      ConcatAppend(packs, later);
      Regroup(Concat(packs), rest, Concat(later), input, left);
    }
  }

  lemma {:induction false} NothingEncoded<D>(encode: Encoder<D>)
    ensures Encoded(encode, []) == []
  {
  }

  // Every sample that was not dropped is emitted exactly once, whatever the interval, the
  // strategy and the order in which the pool finishes; sequentially, in dataset order and in
  // the packs of a single pass.
  lemma {:induction false} IterableEmitsOnce<D>(encode: Encoder<D>, dataset: seq<D>, interval: nat, cap: int, s: Strategy)
    requires interval > 0 && Distributes(s)
    ensures var rows := Rounds(encode, dataset, 0, [], interval, cap, s);
      && multiset(Concat(rows)) == multiset(Encoded(encode, dataset))
      && (s.Sequential? ==>
            rows == MatchedGroup(Encoded(encode, dataset), cap, true, Sequential).0
            && Concat(rows) == Encoded(encode, dataset))
  {
    hide Rounds, Encoded, Concat, MatchedGroup, Distributes;
    RoundsConserve(encode, dataset, 0, [], interval, cap, s);
    assert dataset[0..] == dataset;
    assert [] + Encoded(encode, dataset) == Encoded(encode, dataset);
    if s.Sequential? {
      RoundsAreOnePass(encode, dataset, 0, interval, cap);
      assert dataset[..0] == [];
      NothingEncoded(encode);
      var rows := Rounds(encode, dataset, 0, [], interval, cap, s);
      assert [] + rows == rows;
      GroupConserves(Encoded(encode, dataset), cap, true, s);
      FinishedCarriesNothing(Encoded(encode, dataset), cap, s);
      assert Concat(rows) + [] == Concat(rows);
    }
  }
}
