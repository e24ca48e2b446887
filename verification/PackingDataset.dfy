// PackingDataset (swift/dataset/packing.py:89-176): workers pack chunks of the dataset batch
// by batch and send the packs through one queue; the collector files them by rank.
module PackingDataset {
  import opened Sequences
  import opened Packing

  // (rank, sequences, data_len); a worker's last message has data_len -1.
  datatype Msg = Msg(rank: nat, sequences: seq<Pack>, dataLen: int)

  // create_packed_idx (lines 161-176) from batch position i on.
  function WorkerMsgs(rank: nat, data: seq<Item>, i: nat, input: seq<Item>, batch: nat, cap: int, s: Strategy): seq<Msg>
    requires batch > 0
    decreases if i < |data| then |data| - i else 0, |input|
  {
    var newData := Slice(data, i, i + batch);
    if input + newData == [] then [Msg(rank, [], -1)]
    else
      var (packs, carry) := MatchedGroup(input + newData, cap, i + batch >= |data|, s);
      [Msg(rank, packs, |newData|)] + WorkerMsgs(rank, data, i + batch, carry, batch, cap, s)
  }

  method CreatePackedIdx(rank: nat, data: seq<Item>, batch: nat, cap: int, s: Strategy) returns (sent: seq<Msg>)
    requires batch > 0
    ensures sent == WorkerMsgs(rank, data, 0, [], batch, cap, s)
  {
    hide MatchedGroup, WorkerMsgs;
    sent := [];
    var i, input := 0, [];
    ghost var all := WorkerMsgs(rank, data, 0, [], batch, cap, s);
    assert [] + all == all;
    while true
      invariant i < |data| || input == []
      invariant sent + WorkerMsgs(rank, data, i, input, batch, cap, s) == all
      decreases if i < |data| then |data| - i else 0
    {
      var newData := Slice(data, i, i + batch);
      ghost var was := input;
      input := input + newData;
      if input == [] {
        WorkerStops(rank, data, i, was, batch, cap, s);
        break;
      }
      WorkerSends(rank, data, i, was, batch, cap, s);
      var packs, carry := CalculateMatchedGroup(input, cap, i + batch >= |data|, s);
      var msg := Msg(rank, packs, |newData|);
      ghost var rest := WorkerMsgs(rank, data, i + batch, carry, batch, cap, s);
      assert sent + ([msg] + rest) == (sent + [msg]) + rest;
      i := i + batch;
      input := carry;
      sent := sent + [msg];
    }
    sent := sent + [Msg(rank, [], -1)];
  }

  lemma {:induction false} FinishedCarriesNothing(items: seq<Item>, cap: int, s: Strategy)
    ensures MatchedGroup(items, cap, true, s).1 == []
  {
  }

  lemma {:induction false} WorkerStops(rank: nat, data: seq<Item>, i: nat, input: seq<Item>, batch: nat, cap: int, s: Strategy)
    requires batch > 0 && input + Slice(data, i, i + batch) == []
    ensures WorkerMsgs(rank, data, i, input, batch, cap, s) == [Msg(rank, [], -1)]
    ensures i >= |data| && input == []
  {
  }

  // One more message; the last group leaves nothing to carry over.
  lemma {:induction false} WorkerSends(rank: nat, data: seq<Item>, i: nat, input: seq<Item>, batch: nat, cap: int, s: Strategy)
    requires batch > 0 && input + Slice(data, i, i + batch) != []
    ensures var newData := Slice(data, i, i + batch);
      var (packs, carry) := MatchedGroup(input + newData, cap, i + batch >= |data|, s);
      && WorkerMsgs(rank, data, i, input, batch, cap, s) ==
           [Msg(rank, packs, |newData|)] + WorkerMsgs(rank, data, i + batch, carry, batch, cap, s)
      && (i + batch >= |data| ==> carry == [])
      && (i >= |data| ==> input != [])
  {
    hide MatchedGroup;
    FinishedCarriesNothing(input + Slice(data, i, i + batch), cap, s);
  }

  function PacksOf(msgs: seq<Msg>): seq<Pack>
  {
    if msgs == [] then [] else msgs[0].sequences + PacksOf(msgs[1..])
  }

  lemma {:induction false} PacksOfAppend(a: seq<Msg>, b: seq<Msg>)
    ensures PacksOf(a + b) == PacksOf(a) + PacksOf(b)
  {
    if a == [] {
      assert a + b == b;
    } else {
      assert (a + b)[1..] == a[1..] + b;
      PacksOfAppend(a[1..], b);
    }
  }

  // --------------------------------------------------------- batching does not matter

  // From position i on, with the packer's own open pack as carry-over, the worker sends
  // exactly the packs that packing all its data at once still has to produce.
  lemma {:induction false} WorkerFrom(rank: nat, data: seq<Item>, i: nat, batch: nat, cap: int)
    requires batch > 0 && i <= |data|
    ensures var st := AddAll(Open([], []), data[..i], cap);
      st.packs + PacksOf(WorkerMsgs(rank, data, i, st.cur, batch, cap, Sequential))
      == MatchedGroup(data, cap, true, Sequential).0
    decreases |data| - i
  {
    hide Add, Load, WorkerMsgs, PacksOf;
    var st := AddAll(Open([], []), data[..i], cap);
    var newData := Slice(data, i, i + batch);
    var input := st.cur + newData;
    var j := i + |newData|;
    assert data[..j] == data[..i] + newData;
    CarryOver(data[..i], newData, cap);
    var after := AddAll(Open([], []), input, cap);
    assert AddAll(Open([], []), data[..j], cap) == Open(st.packs + after.packs, after.cur);
    if input == [] {
      WorkerStops(rank, data, i, st.cur, batch, cap, Sequential);
      assert data[..i] == data;
      NothingMore(rank);
      assert st.packs + [] == st.packs;
    } else {
      WorkerSends(rank, data, i, st.cur, batch, cap, Sequential);
      if i + batch >= |data| {
        assert data[..j] == data;
        var (packs, carry) := MatchedGroup(input, cap, true, Sequential);
        WorkerAtEnd(rank, data, i + batch, batch, cap);
        OneMessage(Msg(rank, packs, |newData|), [Msg(rank, [], -1)]);
        NothingMore(rank);
        FinishedPacks(st.packs, after);
      } else {
        WorkerFrom(rank, data, j, batch, cap);
        var rest := WorkerMsgs(rank, data, i + batch, after.cur, batch, cap, Sequential);
        OneMessage(Msg(rank, after.packs, |newData|), rest);
        hide AddAll;
        assert st.packs + (after.packs + PacksOf(rest)) == st.packs + after.packs + PacksOf(rest);
      }
    }
  }

  lemma {:induction false} NothingMore(rank: nat)
    ensures PacksOf([Msg(rank, [], -1)]) == []
  {
    OneMessage(Msg(rank, [], -1), []);
  }

  lemma {:induction false} WorkerAtEnd(rank: nat, data: seq<Item>, i: nat, batch: nat, cap: int)
    requires batch > 0 && i >= |data|
    ensures WorkerMsgs(rank, data, i, [], batch, cap, Sequential) == [Msg(rank, [], -1)]
  {
    var none: seq<Item> := [];
    assert Slice(data, i, i + batch) == none && none + none == none;
    WorkerStops(rank, data, i, [], batch, cap, Sequential);
  }

  lemma {:induction false} OneMessage(m: Msg, rest: seq<Msg>)
    ensures PacksOf([m] + rest) == m.sequences + PacksOf(rest)
  {
    assert ([m] + rest)[1..] == rest;
  }

  lemma {:induction false} FinishedPacks(packs: seq<Pack>, st: Open)
    ensures var closed := if st.cur != [] then st.packs + [st.cur] else st.packs;
      packs + (closed + []) == if st.cur != [] then (packs + st.packs) + [st.cur] else packs + st.packs
  {
  }

  // For every batch size, the packs of the carry-over loop are those of one call on
  // everything.
  lemma {:induction false} BatchingIsIrrelevant(rank: nat, data: seq<Item>, batch: nat, cap: int)
    requires batch > 0
    ensures PacksOf(WorkerMsgs(rank, data, 0, [], batch, cap, Sequential)) == MatchedGroup(data, cap, true, Sequential).0
  {
    WorkerFrom(rank, data, 0, batch, cap);
    hide WorkerMsgs, MatchedGroup;
    assert data[..0] == [];
    var packs := PacksOf(WorkerMsgs(rank, data, 0, [], batch, cap, Sequential));
    assert [] + packs == packs;
  }

  // ------------------------------------------------------------------- conservation

  lemma {:induction false} SequentialConserves(items: seq<Item>, cap: int, isFinished: bool)
    ensures var (packs, rest) := MatchedGroup(items, cap, isFinished, Sequential); Concat(packs) + rest == items
  {
    AddAllKeeps(Open([], []), items, cap);
    var st := AddAll(Open([], []), items, cap);
    NoGroups();
    hide AddAll, Concat, Load;
    LastGroup(st.packs, st.cur);
  }

  lemma {:induction false} BinsHoldAll(items: seq<Item>, s: Strategy)
    requires Distributes(s) && s.Binpack?
    ensures multiset(Concat(s.bins(items))) == multiset(items)
  {
  }

  lemma {:induction false} BinpackConserves(items: seq<Item>, cap: int, isFinished: bool, s: Strategy)
    requires Distributes(s) && s.Binpack?
    ensures var (packs, rest) := MatchedGroup(items, cap, isFinished, s);
      multiset(Concat(packs) + rest) == multiset(items)
  {
    hide Concat, Distributes;
    BinsHoldAll(items, s);
    NoGroups();
    var bins := s.bins(items);
    if bins != [] {
      var n := |bins| - 1;
      assert bins == bins[..n] + [bins[n]];
      LastGroup(bins[..n], bins[n]);
    }
    assert Concat(bins) + [] == Concat(bins);
  }

  lemma {:induction false} GroupConserves(items: seq<Item>, cap: int, isFinished: bool, s: Strategy)
    requires Distributes(s)
    ensures var (packs, rest) := MatchedGroup(items, cap, isFinished, s);
      && multiset(Concat(packs) + rest) == multiset(items)
      && (s.Sequential? ==> Concat(packs) + rest == items)
  {
    hide MatchedGroup, Concat, Distributes;
    if s.Sequential? {
      SequentialConserves(items, cap, isFinished);
    } else {
      BinpackConserves(items, cap, isFinished, s);
    }
  }

  lemma {:induction false} NoGroups()
    ensures Concat<Item>([]) == []
  {
  }

  lemma {:induction false} LastGroup(packs: seq<Pack>, last: Pack)
    ensures Concat(packs + [last]) == Concat(packs) + last && Concat(packs + [last]) + [] == Concat(packs + [last])
  {
    ConcatAppend(packs, [last]);
    ConcatOne(last);
  }

  lemma {:induction false} Regroup<T>(packs: seq<T>, carry: seq<T>, later: seq<T>, input: seq<T>, left: seq<T>)
    requires multiset(packs + carry) == multiset(input) && multiset(later) == multiset(carry + left)
    ensures multiset(packs + later) == multiset(input + left)
  {
    assert multiset(packs + later) == multiset(packs) + multiset(later);
  }

  function From<T>(s: seq<T>, i: nat): seq<T> {
    if i <= |s| then s[i..] else []
  }

  lemma {:induction false} SliceThenRest<T>(s: seq<T>, i: nat, n: nat)
    ensures From(s, i) == Slice(s, i, i + n) + From(s, i + n)
  {
  }

  // Every item handed to a worker is sent in exactly one pack, whatever the strategy.
  lemma {:induction false} WorkerConserves(rank: nat, data: seq<Item>, i: nat, input: seq<Item>, batch: nat, cap: int, s: Strategy)
    requires batch > 0 && Distributes(s)
    ensures multiset(Concat(PacksOf(WorkerMsgs(rank, data, i, input, batch, cap, s)))) == multiset(input + From(data, i))
    decreases if i < |data| then |data| - i else 0, |input|
  {
    hide MatchedGroup, Distributes, Concat, PacksOf, From, WorkerMsgs, Slice;
    var newData := Slice(data, i, i + batch);
    var all, left := input + newData, From(data, i + batch);
    SliceThenRest(data, i, batch);
    Associate(input, newData, left);
    if all == [] {
      WorkerStops(rank, data, i, input, batch, cap, s);
      NothingSent(rank, data, i, batch);
      assert input + From(data, i) == [];
    } else {
      var (packs, carry) := MatchedGroup(all, cap, i + batch >= |data|, s);
      WorkerSends(rank, data, i, input, batch, cap, s);
      WorkerConserves(rank, data, i + batch, carry, batch, cap, s);
      GroupConserves(all, cap, i + batch >= |data|, s);
      var rest := WorkerMsgs(rank, data, i + batch, carry, batch, cap, s);
      OneMessage(Msg(rank, packs, |newData|), rest);
      ConcatAppend(packs, PacksOf(rest));
      Regroup(Concat(packs), carry, Concat(PacksOf(rest)), all, left);
    }
  }

  lemma {:induction false} NothingSent(rank: nat, data: seq<Item>, i: nat, batch: nat)
    requires batch > 0 && Slice(data, i, i + batch) == []
    ensures From(data, i + batch) == [] && Concat(PacksOf([Msg(rank, [], -1)])) == []
  {
    OneMessage(Msg(rank, [], -1), []);
  }
}
