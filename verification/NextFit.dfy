// The order-preserving packer by what it produces: a list of packs is its output exactly when
// every pack was closed for a reason and none was left open too long.
module NextFit {
  import opened Sequences
  import opened Packing

  // As long as items were still added, the pack was below the packing length, and each fitted.
  predicate Filled(p: Pack, cap: int) {
    forall i :: 0 < i < |p| ==> Load(p[..i]) < cap && Load(p[..i]) + p[i].length <= cap
  }

  // Full, or without room for the item that comes next.
  predicate ClosedBefore(p: Pack, next: Pack, cap: int) {
    Load(p) >= cap || (next != [] && Load(p) + next[0].length > cap)
  }

  predicate NextFitPacks(packs: seq<Pack>, cap: int) {
    && (forall k :: 0 <= k < |packs| ==> packs[k] != [] && Filled(packs[k], cap))
    && (forall k :: 0 <= k < |packs| - 1 ==> ClosedBefore(packs[k], packs[k + 1], cap))
  }

  // The pack that is still open has room; without one the last pack is full.
  predicate OpenPack(packs: seq<Pack>, cur: Pack, cap: int) {
    if cur != [] then Load(cur) < cap else packs == [] || Load(packs[|packs| - 1]) >= cap
  }

  function WithOpen(packs: seq<Pack>, cur: Pack): seq<Pack> {
    if cur == [] then packs else packs + [cur]
  }

  predicate NextFitState(st: Open, cap: int) {
    NextFitPacks(WithOpen(st.packs, st.cur), cap) && OpenPack(st.packs, st.cur, cap)
  }

  // ------------------------------------------------------------ the packer's output is one

  lemma {:induction false} NextFitSnoc(packs: seq<Pack>, p: Pack, cap: int)
    ensures NextFitPacks(packs + [p], cap) <==>
      NextFitPacks(packs, cap) && p != [] && Filled(p, cap)
      && (packs != [] ==> ClosedBefore(packs[|packs| - 1], p, cap))
  {
    hide Filled, ClosedBefore;
    var all := packs + [p];
    assert all[|packs|] == p;
    assert packs != [] ==> all[|packs| - 1] == packs[|packs| - 1] && all[|packs| - 1 + 1] == p;
    if NextFitPacks(all, cap) {
      forall k | 0 <= k < |packs| ensures packs[k] != [] && Filled(packs[k], cap) {
        assert all[k] == packs[k];
      }
      forall k | 0 <= k < |packs| - 1 ensures ClosedBefore(packs[k], packs[k + 1], cap) {
        assert all[k] == packs[k] && all[k + 1] == packs[k + 1];
      }
    }
  }

  lemma {:induction false} FilledSnoc(p: Pack, item: Item, cap: int)
    ensures Filled(p + [item], cap) <==>
      Filled(p, cap) && (p != [] ==> Load(p) < cap && Load(p) + item.length <= cap)
  {
    hide Load;
    var all := p + [item];
    assert all[..|p|] == p && all[|p|] == item;
    if Filled(all, cap) {
      forall i | 0 < i < |p| ensures Load(p[..i]) < cap && Load(p[..i]) + p[i].length <= cap {
        assert all[..i] == p[..i] && all[i] == p[i];
      }
    } else {
      forall i | 0 < i < |p| ensures all[..i] == p[..i] && all[i] == p[i] {
      }
    }
  }

  // A pack that was open is closed, and a new one begun.
  lemma {:induction false} BeginPack(packs: seq<Pack>, item: Item, cap: int)
    requires NextFitPacks(packs, cap) && (packs != [] ==> ClosedBefore(packs[|packs| - 1], [item], cap))
    ensures NextFitState(Add(Open(packs, []), item, cap), cap)
  {
    FilledSnoc([], item, cap);
    assert [] + [item] == [item] && Filled([], cap);
    LoadAppend([], item);
    hide Load, Filled;
    NextFitSnoc(packs, [item], cap);
    hide NextFitPacks;
    assert (packs + [[item]])[|packs|] == [item];
  }

  lemma {:induction false} GrowPack(packs: seq<Pack>, cur: Pack, item: Item, cap: int)
    requires NextFitState(Open(packs, cur), cap) && cur != [] && Load(cur) + item.length <= cap
    ensures NextFitState(Add(Open(packs, cur), item, cap), cap)
  {
    FilledSnoc(cur, item, cap);
    hide Load, Filled;
    NextFitSnoc(packs, cur, cap);
    NextFitSnoc(packs, cur + [item], cap);
    hide NextFitPacks;
    assert (cur + [item])[0] == cur[0];
    assert (packs + [cur + [item]])[|packs|] == cur + [item];
  }

  lemma {:induction false} AddNext(st: Open, item: Item, cap: int)
    requires NextFitState(st, cap)
    ensures NextFitState(Add(st, item, cap), cap)
  {
    if st.cur != [] && Load(st.cur) + item.length <= cap {
      GrowPack(st.packs, st.cur, item, cap);
    } else {
      var packs := WithOpen(st.packs, st.cur);
      assert packs != [] ==> ClosedBefore(packs[|packs| - 1], [item], cap);
      BeginPack(packs, item, cap);
      hide Load;
      assert Add(st, item, cap) == Add(Open(packs, []), item, cap);
    }
  }

  lemma {:induction false} AddAllNext(st: Open, items: seq<Item>, cap: int)
    requires NextFitState(st, cap)
    ensures NextFitState(AddAll(st, items, cap), cap)
    decreases |items|
  {
    hide NextFitState, Add;
    if items != [] {
      AddNext(st, items[0], cap);
      AddAllNext(Add(st, items[0], cap), items[1..], cap);
    }
  }

  // ------------------------------------------------------------ and there is only one

  // A filled pack, packed by itself, is one pack, still open when it is not full.
  lemma {:induction false} PackAlone(p: Pack, cap: int)
    requires p != [] && Filled(p, cap)
    ensures AddAll(Open([], []), p, cap) == if Load(p) >= cap then Open([p], []) else Open([], p)
    decreases |p|
  {
    var n := |p| - 1;
    var front, item := p[..n], p[n];
    assert p == front + [item];
    FilledSnoc(front, item, cap);
    AddAllAppend(Open([], []), front, [item], cap);
    assert [item][1..] == [];
    if front == [] {
      assert AddAll(Open([], []), [], cap) == Open([], []) && [] + [item] == [item];
    } else {
      PackAlone(front, cap);
    }
    hide Load, Filled;
    assert AddAll(AddAll(Open([], []), front, cap), [item], cap) == Add(Open([], front), item, cap);
  }

  // Closing a pack that has no room for the next item makes no difference.
  lemma {:induction false} CloseEarly(p: Pack, rest: seq<Item>, cap: int)
    requires p != [] && rest != [] && Load(p) + rest[0].length > cap
    ensures AddAll(Open([], p), rest, cap) == AddAll(Open([p], []), rest, cap)
  {
    hide Load;
    assert [] + [p] == [p];
    assert Add(Open([], p), rest[0], cap) == Add(Open([p], []), rest[0], cap);
  }

  lemma {:induction false} OnlyState(packs: seq<Pack>, cur: Pack, cap: int)
    requires NextFitState(Open(packs, cur), cap)
    ensures AddAll(Open([], []), Concat(packs) + cur, cap) == Open(packs, cur)
    decreases |packs|
  {
    if packs == [] {
      assert Concat(packs) + cur == cur;
      if cur != [] {
        assert WithOpen([], cur)[0] == cur;
        PackAlone(cur, cap);
      }
    } else {
      var p, more := packs[0], packs[1..];
      var rest := Concat(more) + cur;
      FirstPack(packs, cur, cap);
      hide NextFitPacks, Filled, ClosedBefore, OpenPack;
      assert Concat(packs) + cur == p + rest;
      AddAllAppend(Open([], []), p, rest, cap);
      PackAlone(p, cap);
      if Load(p) < cap {
        CloseEarly(p, rest, cap);
      }
      hide Load;
      OnlyState(more, cur, cap);
      AddAllFrame([p], [], rest, cap);
      assert [p] + more == packs;
    }
  }

  lemma {:induction false} FirstPack(packs: seq<Pack>, cur: Pack, cap: int)
    requires NextFitState(Open(packs, cur), cap) && packs != []
    ensures packs[0] != [] && Filled(packs[0], cap)
    ensures NextFitState(Open(packs[1..], cur), cap)
    ensures var rest := Concat(packs[1..]) + cur;
      Load(packs[0]) >= cap || (rest != [] && Load(packs[0]) + rest[0].length > cap)
  {
    hide Load, Filled;
    var all, more := WithOpen(packs, cur), packs[1..];
    var allMore := WithOpen(more, cur);
    assert all == [packs[0]] + allMore;
    DropFirst(packs[0], allMore, cap);
    hide NextFitPacks;
    if allMore != [] {
      assert more != [] ==> Concat(more) == more[0] + Concat(more[1..]) && more[0] == allMore[0];
      assert more == [] ==> Concat(more) + cur == cur;
    }
  }

  lemma {:induction false} DropFirst(p: Pack, more: seq<Pack>, cap: int)
    requires NextFitPacks([p] + more, cap)
    ensures p != [] && Filled(p, cap) && NextFitPacks(more, cap)
    ensures more != [] ==> more[0] != [] && ClosedBefore(p, more[0], cap)
  {
    hide Load, Filled, ClosedBefore;
    var all := [p] + more;
    assert all[0] == p && forall k :: 0 <= k < |more| ==> more[k] == all[k + 1];
    if more != [] {
      assert ClosedBefore(all[0], all[0 + 1], cap);
      assert more[0] == all[0 + 1];
    }
  }

  // The packer after any items: its packs, in order with the open one, are the only ones of
  // this form that hold these items.
  lemma {:induction false} StateExactly(items: seq<Item>, packs: seq<Pack>, cur: Pack, cap: int)
    ensures AddAll(Open([], []), items, cap) == Open(packs, cur) <==>
      Concat(packs) + cur == items && NextFitState(Open(packs, cur), cap)
  {
    var st := AddAll(Open([], []), items, cap);
    AddAllKeeps(Open([], []), items, cap);
    var none: seq<Item> := [];
    assert Concat<Item>([]) == none && none + none + items == items;
    assert NextFitState(Open([], []), cap);
    AddAllNext(Open([], []), items, cap);
    hide NextFitState, AddAll;
    if Concat(packs) + cur == items && NextFitState(Open(packs, cur), cap) {
      OnlyState(packs, cur, cap);
    }
  }

  // A finished call: its packs are exactly the ones that hold the items in order, each closed
  // only when it is full or the next item does not fit.
  lemma {:induction false} FinishedExactly(items: seq<Item>, packs: seq<Pack>, cap: int)
    ensures MatchedGroup(items, cap, true, Sequential) == (packs, []) <==>
      Concat(packs) == items && NextFitPacks(packs, cap)
  {
    var st := AddAll(Open([], []), items, cap);
    StateExactly(items, st.packs, st.cur, cap);
    var result := WithOpen(st.packs, st.cur);
    assert MatchedGroup(items, cap, true, Sequential) == (result, []) by {
      assert items == [] ==> st == Open([], []);
    }
    ConcatWithOpen(st.packs, st.cur);
    if Concat(packs) == items && NextFitPacks(packs, cap) {
      SplitOpen(packs, cap);
      var (front, last) := Opened(packs, cap);
      StateExactly(items, front, last, cap);
    }
  }

  // The last pack is the open one, unless it is full.
  function Opened(packs: seq<Pack>, cap: int): (seq<Pack>, Pack) {
    if packs == [] || Load(packs[|packs| - 1]) >= cap then (packs, []) else (packs[..|packs| - 1], packs[|packs| - 1])
  }

  lemma {:induction false} SplitOpen(packs: seq<Pack>, cap: int)
    requires NextFitPacks(packs, cap)
    ensures var (front, last) := Opened(packs, cap);
      && WithOpen(front, last) == packs && Concat(front) + last == Concat(packs)
      && NextFitState(Open(front, last), cap)
  {
    hide Load, Filled, ClosedBefore;
    var (front, last) := Opened(packs, cap);
    if last == [] {
      assert Concat(packs) + [] == Concat(packs);
    }
    assert WithOpen(front, last) == packs;
    ConcatWithOpen(front, last);
  }

  lemma {:induction false} ConcatWithOpen(packs: seq<Pack>, cur: Pack)
    ensures Concat(WithOpen(packs, cur)) == Concat(packs) + cur
  {
    ConcatAppend(packs, [cur]);
    ConcatOne(cur);
    assert Concat(packs) + [] == Concat(packs);
  }
}
