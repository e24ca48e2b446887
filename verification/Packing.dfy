// Sequence packing (swift/dataset/packing.py): the greedy order-preserving packer, its use
// with a carry-over between batches, and the collector of several workers' messages.
module Packing {
  import opened Sequences

  datatype Item = Item(idx: int, length: int)

  type Pack = seq<Item>

  function Lengths(items: seq<Item>): (r: seq<int>)
    ensures |r| == |items|
  {
    seq(|items|, i requires 0 <= i < |items| => items[i].length)
  }

  function Load(items: seq<Item>): int {
    Sum(Lengths(items))
  }

  // The loop state of the sequential strategy: finished packs and the open one.
  datatype Open = Open(packs: seq<Pack>, cur: Pack)

  // One turn of the loop (lines 64-73).
  function Add(st: Open, item: Item, cap: int): Open {
    var room := if st.cur != [] && Load(st.cur) + item.length > cap then Open(st.packs + [st.cur], []) else st;
    var cur := room.cur + [item];
    if Load(cur) >= cap then Open(room.packs + [cur], []) else Open(room.packs, cur)
  }

  function AddAll(st: Open, items: seq<Item>, cap: int): Open
    decreases |items|
  {
    if items == [] then st else AddAll(Add(st, items[0], cap), items[1..], cap)
  }

  // binpacking.to_constant_volume is only known to distribute the items over bins.
  datatype Strategy = Sequential | Binpack(bins: seq<Item> -> seq<Pack>)

  ghost predicate Distributes(s: Strategy) {
    s.Binpack? ==> forall items :: multiset(Concat(s.bins(items))) == multiset(items)
  }

  // calculate_matched_group (lines 55-86): packs, and what is carried over.
  function MatchedGroup(items: seq<Item>, cap: int, isFinished: bool, s: Strategy): (seq<Pack>, seq<Item>) {
    if items == [] then ([], [])
    else
      match s
      case Sequential =>
        var st := AddAll(Open([], []), items, cap);
        if !isFinished then (st.packs, st.cur)
        else if st.cur != [] then (st.packs + [st.cur], [])
        else (st.packs, [])
      case Binpack(bins) =>
        var packs := bins(items);
        if packs != [] && !isFinished then (packs[..|packs| - 1], packs[|packs| - 1]) else (packs, [])
  }

  method CalculateMatchedGroup(items: seq<Item>, cap: int, isFinished: bool, s: Strategy)
      returns (packs: seq<Pack>, rest: seq<Item>)
    ensures (packs, rest) == MatchedGroup(items, cap, isFinished, s)
  {
    if |items| == 0 {
      return [], [];
    }
    if s.Sequential? {
      packs := [];
      var cur: seq<Item>, curLen := [], 0;
      for i := 0 to |items|
        invariant curLen == Load(cur)
        invariant AddAll(Open(packs, cur), items[i..], cap) == AddAll(Open([], []), items, cap)
      {
        ghost var st := Open(packs, cur);
        var item := items[i];
        assert items[i..][0] == item && items[i..][1..] == items[i + 1..];
        if cur != [] && curLen + item.length > cap {
          packs := packs + [cur];
          cur, curLen := [], 0;
        }
        LoadAppend(cur, item);
        cur := cur + [item];
        curLen := curLen + item.length;
        if curLen >= cap {
          packs := packs + [cur];
          cur, curLen := [], 0;
        }
        assert Open(packs, cur) == Add(st, item, cap);
      }
      if isFinished {
        if cur != [] {
          packs := packs + [cur];
        }
        return packs, [];
      }
      return packs, cur;
    }
    packs := s.bins(items);
    if packs != [] && !isFinished {
      packs, rest := packs[..|packs| - 1], packs[|packs| - 1];
    } else {
      rest := [];
    }
  }

  lemma {:induction false} LoadAppend(cur: seq<Item>, item: Item)
    ensures Load(cur + [item]) == Load(cur) + item.length
  {
    assert Lengths(cur + [item]) == Lengths(cur) + [item.length];
    SumAppend(Lengths(cur), [item.length]);
    assert [item.length][1..] == [];
  }

  lemma {:induction false} LoadConcat(a: seq<Item>, b: seq<Item>)
    ensures Load(a + b) == Load(a) + Load(b)
  {
    assert Lengths(a + b) == Lengths(a) + Lengths(b);
    SumAppend(Lengths(a), Lengths(b));
  }

  // ------------------------------------------------------------ the packer by itself

  lemma {:induction false} AddAllAppend(st: Open, a: seq<Item>, b: seq<Item>, cap: int)
    ensures AddAll(st, a + b, cap) == AddAll(AddAll(st, a, cap), b, cap)
    decreases |a|
  {
    hide Add;
    if a == [] {
      assert a + b == b;
    } else {
      assert (a + b)[1..] == a[1..] + b;
      AddAllAppend(Add(st, a[0], cap), a[1..], b, cap);
    }
  }

  // Finished packs are never looked at again.
  lemma {:induction false} AddAllFrame(packs: seq<Pack>, cur: Pack, items: seq<Item>, cap: int)
    ensures var st := AddAll(Open([], cur), items, cap);
      AddAll(Open(packs, cur), items, cap) == Open(packs + st.packs, st.cur)
    decreases |items|
  {
    hide Load;
    if items == [] {
      assert packs + [] == packs;
    } else {
      var st1 := Add(Open([], cur), items[0], cap);
      assert Add(Open(packs, cur), items[0], cap) == Open(packs + st1.packs, st1.cur);
      AddAllFrame(packs + st1.packs, st1.cur, items[1..], cap);
      AddAllFrame(st1.packs, st1.cur, items[1..], cap);
    }
  }

  // The open pack, packed again from nothing, is still just the open pack.
  predicate Reopens(cur: Pack, cap: int) {
    AddAll(Open([], []), cur, cap) == Open([], cur)
  }

  lemma {:induction false} AddReopens(st: Open, item: Item, cap: int)
    requires Reopens(st.cur, cap)
    ensures Reopens(Add(st, item, cap).cur, cap)
  {
    hide Load;
    var st' := Add(st, item, cap);
    var kept := if st'.cur == st.cur + [item] then st.cur else [];
    if st'.cur != [] {
      assert st'.cur == kept + [item];
      AddAllAppend(Open([], []), kept, [item], cap);
      assert [item][1..] == [];
      assert AddAll(Open([], []), [], cap) == Open([], []);
    }
  }

  lemma {:induction false} OpenPackReopens(st: Open, items: seq<Item>, cap: int)
    requires Reopens(st.cur, cap)
    ensures Reopens(AddAll(st, items, cap).cur, cap)
    decreases |items|
  {
    hide Reopens, Add;
    if items != [] {
      AddReopens(st, items[0], cap);
      OpenPackReopens(Add(st, items[0], cap), items[1..], cap);
    }
  }

  // Carrying the open pack over and packing it with the next batch is packing everything
  // at once.
  lemma {:induction false} CarryOver(done: seq<Item>, batch: seq<Item>, cap: int)
    ensures var before := AddAll(Open([], []), done, cap);
      var after := AddAll(Open([], []), before.cur + batch, cap);
      AddAll(Open([], []), done + batch, cap) == Open(before.packs + after.packs, after.cur)
  {
    var before := AddAll(Open([], []), done, cap);
    assert Reopens([], cap);
    OpenPackReopens(Open([], []), done, cap);
    hide Add;
    AddAllAppend(Open([], []), before.cur, batch, cap);
    AddAllAppend(Open([], []), done, batch, cap);
    AddAllFrame(before.packs, before.cur, batch, cap);
  }

  // Order is kept and nothing is lost.
  lemma {:induction false} AddAllKeeps(st: Open, items: seq<Item>, cap: int)
    ensures var r := AddAll(st, items, cap); Concat(r.packs) + r.cur == Concat(st.packs) + st.cur + items
    decreases |items|
  {
    hide Load;
    if items != [] {
      var st' := Add(st, items[0], cap);
      AddKeeps(st, items[0], cap);
      AddAllKeeps(st', items[1..], cap);
      hide Add;
      assert Concat(st.packs) + st.cur + items == (Concat(st.packs) + st.cur + [items[0]]) + items[1..];
    }
  }

  lemma {:induction false} AddKeeps(st: Open, item: Item, cap: int)
    ensures var r := Add(st, item, cap); Concat(r.packs) + r.cur == Concat(st.packs) + st.cur + [item]
  {
    hide Load;
    ConcatAppend(st.packs, [st.cur]);
    ConcatOne(st.cur);
    ConcatAppend(st.packs, [st.cur + [item]]);
    ConcatOne(st.cur + [item]);
    ConcatAppend(st.packs + [st.cur], [[item]]);
    ConcatOne([item]);
    assert [] + [item] == [item];
    hide Concat;
  }
}
