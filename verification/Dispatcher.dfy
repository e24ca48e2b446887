// The batch dispatcher of swift/dataloader/dispatcher.py: rank 0 pulls one batch for every
// rank and scatters them; each rank stops when it is given None.
//
// A batch is an Option, so that a loader that itself yields None is covered.
module Dispatcher {
  import opened Arithmetic
  import opened Options

  // ----------------------------------------------------------------------- the source

  function Nones<T>(world: nat): seq<Option<T>> {
    seq(world, _ => None)
  }

  // What rank 0 scatters in one round, and what is left (lines 50-53).  Running out part-way
  // drops the batches already pulled.
  function Pull<T>(rest: seq<Option<T>>, world: nat): (seq<Option<T>>, seq<Option<T>>) {
    if |rest| < world then (Nones(world), []) else (rest[..world], rest[world..])
  }

  // All the lists rank 0 scatters: it goes on until it gives itself None.
  function Scattered<T>(rest: seq<Option<T>>, world: nat): seq<seq<Option<T>>>
    requires world > 0
    decreases |rest|
  {
    var (data, rest') := Pull(rest, world);
    if data[0].None? then [data] else [data] + Scattered(rest', world)
  }

  // _skip_batches at rank 0: None when the iterator runs out, which ends rank 0 with an error
  // before its first scatter.
  function Skip<T>(base: seq<Option<T>>, skip: int, world: nat): Option<seq<Option<T>>> {
    if skip <= 0 then Some(base)
    else if skip * world <= |base| then Some(base[skip * world..])
    else None
  }

  // ---------------------------------------------------------------------------- a rank

  datatype RankRun<T> = RankRun(yielded: seq<T>, scatters: nat, stopped: bool)

  // What a rank does with the batches scattered to it.  It has not stopped when it waits for
  // a scatter that never comes.
  function Receive<T>(incoming: seq<Option<T>>): RankRun<T> {
    if incoming == [] then RankRun([], 0, false)
    else match incoming[0]
      case None => RankRun([], 1, true)
      case Some(x) =>
        var r := Receive(incoming[1..]);
        RankRun([x] + r.yielded, r.scatters + 1, r.stopped)
  }

  predicate Square<T>(lists: seq<seq<Option<T>>>, world: nat) {
    forall k :: 0 <= k < |lists| ==> |lists[k]| == world
  }

  function Column<T>(r: nat, world: nat, lists: seq<seq<Option<T>>>): seq<Option<T>>
    requires r < world && Square(lists, world)
  {
    seq(|lists|, k requires 0 <= k < |lists| => lists[k][r])
  }

  // Every rank takes part in every scatter, and they all stop after the last one.
  predicate Together<T>(lists: seq<seq<Option<T>>>, world: nat)
    requires Square(lists, world)
  {
    forall r :: 0 <= r < world ==>
      var run := Receive(Column(r, world, lists)); run.stopped && run.scatters == |lists|
  }

  // --------------------------------------------------------------- stopping together

  predicate AllSome<T>(xs: seq<Option<T>>) {
    forall i :: 0 <= i < |xs| ==> xs[i].Some?
  }

  predicate AllNone<T>(xs: seq<Option<T>>) {
    forall i :: 0 <= i < |xs| ==> xs[i].None?
  }

  // The first group of `world` batches that has a None consists of Nones.
  predicate Uniform<T>(rest: seq<Option<T>>, world: nat)
    requires world > 0
    decreases |rest|
  {
    |rest| < world || AllNone(rest[..world]) || (AllSome(rest[..world]) && Uniform(rest[world..], world))
  }

  lemma {:induction false} ScatteredSquare<T>(rest: seq<Option<T>>, world: nat)
    requires world > 0
    ensures Square(Scattered(rest, world), world) && Scattered(rest, world) != []
    decreases |rest|
  {
    var (data, rest') := Pull(rest, world);
    if data[0].Some? {
      ScatteredSquare(rest', world);
    }
  }

  lemma {:induction false} ReceiveCons<T>(x: Option<T>, incoming: seq<Option<T>>)
    ensures Receive([x] + incoming) ==
      if x.None? then RankRun([], 1, true)
      else var r := Receive(incoming); RankRun([x.value] + r.yielded, r.scatters + 1, r.stopped)
  {
    assert ([x] + incoming)[1..] == incoming;
  }

  lemma {:induction false} ColumnCons<T>(r: nat, world: nat, data: seq<Option<T>>, lists: seq<seq<Option<T>>>)
    requires r < world && |data| == world && Square(lists, world)
    ensures Square([data] + lists, world)
    ensures Column(r, world, [data] + lists) == [data[r]] + Column(r, world, lists)
  {
  }

  // One list followed by others: nobody may stop at it.
  lemma {:induction false} TogetherCons<T>(data: seq<Option<T>>, lists: seq<seq<Option<T>>>, world: nat)
    requires |data| == world && Square(lists, world) && lists != []
    ensures Square([data] + lists, world)
    ensures Together([data] + lists, world) <==> AllSome(data) && Together(lists, world)
  {
    hide Receive, Column;
    assert Square([data] + lists, world);
    forall r | 0 <= r < world
      ensures var run := Receive(Column(r, world, [data] + lists));
        (run.stopped && run.scatters == |lists| + 1) <==>
          data[r].Some? && var rest := Receive(Column(r, world, lists)); rest.stopped && rest.scatters == |lists|
    {
      ColumnCons(r, world, data, lists);
      ReceiveCons(data[r], Column(r, world, lists));
    }
  }

  lemma {:induction false} TogetherLast<T>(data: seq<Option<T>>, world: nat)
    requires |data| == world
    ensures Square([data], world) && (Together([data], world) <==> AllNone(data))
  {
    hide Receive, Column;
    assert Square([data], world);
    forall r | 0 <= r < world
      ensures var run := Receive(Column(r, world, [data])); (run.stopped && run.scatters == 1) <==> data[r].None?
    {
      var none: seq<seq<Option<T>>> := [];
      ColumnCons(r, world, data, none);
      assert [data] + none == [data];
      NothingToReceive(r, world, none);
      ReceiveCons(data[r], Column(r, world, none));
    }
  }

  lemma {:induction false} NothingToReceive<T>(r: nat, world: nat, none: seq<seq<Option<T>>>)
    requires r < world && none == []
    ensures Column(r, world, none) == [] && Receive<T>([]) == RankRun([], 0, false)
  {
  }

  // All ranks take part in the same scatters and stop together exactly when the first group
  // with a None in it is all None.  Otherwise some rank waits for ever.
  lemma {:induction false} StopTogetherExactly<T>(rest: seq<Option<T>>, world: nat)
    requires world > 0
    ensures Square(Scattered(rest, world), world)
    ensures Together(Scattered(rest, world), world) <==> Uniform(rest, world)
    decreases |rest|
  {
    hide Together;
    var (data, rest') := Pull(rest, world);
    ScatteredSquare(rest, world);
    if data[0].None? {
      TogetherLast(data, world);
      assert |rest| >= world ==> rest[..world][0] == data[0];
    } else {
      ScatteredSquare(rest', world);
      StopTogetherExactly(rest', world);
      TogetherCons(data, Scattered(rest', world), world);
    }
  }

  // Two ranks and a loader that yields one batch and then None: rank 1 stops after the first
  // scatter, and rank 0 enters a second one alone.
  lemma {:induction false} RankLeftAlone<T>(x: T)
    ensures var lists := Scattered([Some(x), None], 2);
      && Square(lists, 2) && !Together(lists, 2)
      && Receive(Column(0, 2, lists)) == RankRun([x], 2, true)
      && Receive(Column(1, 2, lists)) == RankRun([], 1, true)
  {
    var first, last, rest := [Some(x), None], Nones<T>(2), [];
    assert first[..2] == first && first[2..] == rest;
    assert Scattered(rest, 2) == [last];
    var lists := Scattered(first, 2);
    assert lists == [first, last];
    assert Column(0, 2, lists) == [Some(x), None] && Column(1, 2, lists) == [None, None];
    assert [Some(x), None][1..] == [None];
    assert [x] + [] == [x];
  }

  // ----------------------------------------------------------------- who gets which batch

  lemma {:induction false} WholeGroups(n: nat, world: nat)
    requires n >= world > 0
    ensures (n - world) / world == n / world - 1
  {
    Division(n - world, n / world - 1, n % world, world);
  }

  // Where the k-th batch of rank r stands.
  function Place(k: nat, world: nat, r: nat): nat {
    k * world + r
  }

  lemma {:induction false} NextPlace(k: nat, world: nat, r: nat)
    ensures k > 0 ==> Place(k, world, r) == world + Place(k - 1, world, r)
    ensures k == 0 ==> Place(k, world, r) == r
  {
  }

  lemma {:induction false} PlaceAfterSkip(skip: nat, k: nat, world: nat, r: nat)
    ensures skip * world + Place(k, world, r) == Place(skip + k, world, r)
  {
  }

  // With no None in it, the iterator is dealt out in whole groups, round robin.
  lemma {:induction false} DealtRoundRobin<T>(rest: seq<Option<T>>, world: nat, r: nat)
    requires world > 0 && r < world && AllSome(rest)
    ensures Square(Scattered(rest, world), world)
    ensures var run := Receive(Column(r, world, Scattered(rest, world)));
      && run.stopped && run.scatters == |rest| / world + 1 == |run.yielded| + 1
      && forall k :: 0 <= k < |run.yielded| ==>
           Place(k, world, r) < |rest| && run.yielded[k] == rest[Place(k, world, r)].value
    decreases |rest|
  {
    hide Receive, Column;
    ScatteredSquare(rest, world);
    var (data, rest') := Pull(rest, world);
    if |rest| < world {
      var none: seq<seq<Option<T>>> := [];
      ColumnCons(r, world, data, none);
      assert [data] + none == [data];
      ReceiveCons(data[r], Column(r, world, none));
      Division(|rest|, 0, |rest|, world);
    } else {
      assert data[0] == rest[0];
      DealtRoundRobin(rest', world, r);
      ColumnCons(r, world, data, Scattered(rest', world));
      ReceiveCons(data[r], Column(r, world, Scattered(rest', world)));
      WholeGroups(|rest|, world);
      var run := Receive(Column(r, world, Scattered(rest, world)));
      hide Place;
      forall k | 0 <= k < |run.yielded|
        ensures Place(k, world, r) < |rest| && run.yielded[k] == rest[Place(k, world, r)].value
      {
        NextPlace(k, world, r);
        if k > 0 {
          assert rest'[Place(k - 1, world, r)] == rest[Place(k, world, r)];
        }
      }
    }
  }

  lemma {:induction false} FewerGroups(n: nat, q: nat, m: nat, at: nat, skip: nat, world: nat)
    requires m < world && n == world * q + m && at == world * skip && at <= n
    ensures q >= skip && (n - at) / world == q - skip && (n - at) % world == m
  {
    MultipleBound(world, skip - q);
    assert world * (skip - q) == at - world * q;
    assert world * (q - skip) == world * q - at;
    Division(n - at, q - skip, m, world);
  }

  lemma {:induction false} TogetherRank<T>(lists: seq<seq<Option<T>>>, world: nat, r: nat)
    requires Square(lists, world) && Together(lists, world) && r < world
    ensures Receive(Column(r, world, lists)).scatters == |lists|
  {
  }

  lemma {:induction false} SomeIsUniform<T>(rest: seq<Option<T>>, world: nat)
    requires world > 0 && AllSome(rest)
    ensures Uniform(rest, world)
    decreases |rest|
  {
    if |rest| >= world {
      SomeIsUniform(rest[world..], world);
    }
  }

  lemma {:induction false} SkipIsDrop<T>(base: seq<Option<T>>, skip: nat, world: nat)
    ensures Skip(base, skip, world) == if skip * world <= |base| then Some(base[skip * world..]) else None
  {
    if skip == 0 {
      assert skip * world == 0 && base[0..] == base;
    }
  }

  lemma {:induction false} AllSomeSuffix<T>(base: seq<Option<T>>, n: nat)
    requires AllSome(base) && n <= |base|
    ensures AllSome(base[n..])
  {
  }

  // What rank r of `world` is dealt from the batches after the first skip * world.
  ghost predicate DealtFrom<T>(base: seq<Option<T>>, skip: nat, world: nat, r: nat, yielded: seq<T>)
    requires world > 0
  {
    && |yielded| == |base| / world - skip
    && forall k :: 0 <= k < |yielded| ==> StandsAt(base, Place(skip + k, world, r), yielded[k])
  }

  predicate StandsAt<T(==)>(base: seq<Option<T>>, i: nat, x: T) {
    i < |base| && base[i] == Some(x)
  }

  lemma {:induction false} DealtAfterSkip<T>(base: seq<Option<T>>, skip: nat, at: nat, world: nat, r: nat, yielded: seq<T>)
    requires world > 0 && r < world && AllSome(base) && at == skip * world <= |base|
    requires |yielded| == |base[at..]| / world
    requires forall k :: 0 <= k < |yielded| ==>
      Place(k, world, r) < |base[at..]| && yielded[k] == base[at..][Place(k, world, r)].value
    ensures |base[at..]| / world == |base| / world - skip
    ensures DealtFrom(base, skip, world, r, yielded)
  {
    hide Place;
    GroupsAfterSkip(|base|, at, skip, world);
    DealtInTurn(base, skip, at, world, r, yielded);
  }

  lemma {:induction false} GroupsAfterSkip(n: nat, at: nat, skip: nat, world: nat)
    requires world > 0 && at == skip * world <= n
    ensures (n - at) / world == n / world - skip
  {
    FewerGroups(n, n / world, n % world, at, skip, world);
  }

  lemma {:induction false} DealtInTurn<T>(base: seq<Option<T>>, skip: nat, at: nat, world: nat, r: nat, yielded: seq<T>)
    requires AllSome(base) && at == skip * world <= |base|
    requires forall k :: 0 <= k < |yielded| ==>
      Place(k, world, r) < |base[at..]| && yielded[k] == base[at..][Place(k, world, r)].value
    ensures forall k :: 0 <= k < |yielded| ==> StandsAt(base, Place(skip + k, world, r), yielded[k])
  {
    hide Place;
    forall k | 0 <= k < |yielded| ensures StandsAt(base, Place(skip + k, world, r), yielded[k]) {
      PlaceAfterSkip(skip, k, world, r);
      IndexInSuffix(base, at, Place(k, world, r));
    }
  }

  lemma {:induction false} IndexInSuffix<T>(base: seq<Option<T>>, at: nat, i: nat)
    requires AllSome(base) && at + i < |base|
    ensures base[at + i] == Some(base[at..][i].value)
  {
  }

  // For every world size and every skip that the iterator can serve, with no None among the
  // batches: all ranks stop together after the same number of scatters, the k-th batch of
  // rank r is the one at (skip + k) * world + r, its `Place`, and so only the last n % world
  // are dropped.
  lemma {:induction false} DispatcherProtocol<T>(base: seq<Option<T>>, skip: nat, world: nat, r: nat)
    requires world > 0 && r < world && AllSome(base)
    ensures Skip(base, skip, world).None? <==> skip * world > |base|
    ensures skip * world <= |base| ==>
      var lists := Scattered(Skip(base, skip, world).value, world);
      && Square(lists, world) && Together(lists, world)
      && |lists| == |base| / world - skip + 1
      && var run := Receive(Column(r, world, lists));
      run.stopped && run.scatters == |lists| && DealtFrom(base, skip, world, r, run.yielded)
  {
    hide *;
    SkipIsDrop(base, skip, world);
    if skip * world <= |base| {
      var rest := base[skip * world..];
      AllSomeSuffix(base, skip * world);
      DealtRoundRobin(rest, world, r);
      SomeIsUniform(rest, world);
      StopTogetherExactly(rest, world);
      TogetherRank(Scattered(rest, world), world, r);
      DealtAfterSkip(base, skip, skip * world, world, r, Receive(Column(r, world, Scattered(rest, world))).yielded);
    }
  }

  // ------------------------------------------------------------------------ the loops

  // An iterator over the base loader.
  class BaseIterator<T> {
    var rest: seq<Option<T>>

    constructor (base: seq<Option<T>>)
      ensures rest == base
    {
      rest := base;
    }

    // next: None is StopIteration.
    method Next() returns (item: Option<Option<T>>)
      modifies this
      ensures if old(rest) == [] then rest == [] && item == None
              else rest == old(rest)[1..] && item == Some(old(rest)[0])
    {
      if rest == [] {
        return None;
      }
      item := Some(rest[0]);
      rest := rest[1..];
    }

    // A list of `count` batches, or None if the iterator stops first.
    method NextMany(count: nat) returns (data: Option<seq<Option<T>>>)
      modifies this
      ensures if count <= |old(rest)| then data == Some(old(rest)[..count]) && rest == old(rest)[count..]
              else data == None && rest == []
    {
      var taken := [];
      for i := 0 to count
        invariant |taken| == i <= |old(rest)| && old(rest) == taken + rest
      {
        var item := Next();
        if item.None? {
          return None;
        }
        taken := taken + [item.value];
      }
      data := Some(taken);
    }
  }

  lemma {:induction false} OneGroupMore(i: nat, skip: nat, world: nat)
    requires i < skip
    ensures (i + 1) * world == i * world + world && i * world + world <= skip * world
  {
    assert (skip - (i + 1)) * world >= 0;
    assert skip * world == (i + 1) * world + (skip - (i + 1)) * world;
  }

  method SkipBatches<T>(baseIter: BaseIterator<T>, skip: int, world: nat) returns (ok: bool)
    modifies baseIter
    ensures ok == Skip(old(baseIter.rest), skip, world).Some?
    ensures ok ==> Some(baseIter.rest) == Skip(old(baseIter.rest), skip, world)
  {
    ghost var base := baseIter.rest;
    ok := true;
    if skip > 0 {
      var i := 0;
      while i < skip
        invariant 0 <= i <= skip && i * world <= |base| && baseIter.rest == base[i * world..]
      {
        var data := baseIter.NextMany(world);
        OneGroupMore(i, skip, world);
        if data.None? {
          return false;
        }
        i := i + 1;
      }
    }
  }

  lemma {:induction false} ReceiveSnoc<T>(a: seq<Option<T>>, x: Option<T>)
    requires !Receive(a).stopped
    ensures Receive(a + [x]) == RankRun(Receive(a).yielded + if x.Some? then [x.value] else [], |a| + 1, x.None?)
  {
    if a == [] {
      assert a + [x] == [x] && [x][1..] == [];
    } else {
      assert (a + [x])[1..] == a[1..] + [x];
      ReceiveSnoc(a[1..], x);
    }
  }

  lemma {:induction false} ColumnSnoc<T>(r: nat, world: nat, lists: seq<seq<Option<T>>>, data: seq<Option<T>>)
    requires r < world && |data| == world && Square(lists, world)
    ensures Square(lists + [data], world)
    ensures Column(r, world, lists + [data]) == Column(r, world, lists) + [data[r]]
    ensures |Column(r, world, lists)| == |lists|
  {
  }

  // One more round at rank 0.
  lemma {:induction false} SourceStep<T>(lists: seq<seq<Option<T>>>, before: seq<Option<T>>, world: nat, yielded: seq<T>)
    requires world > 0 && Square(lists, world)
    requires Receive(Column(0, world, lists)) == RankRun(yielded, |lists|, false)
    ensures var (data, rest) := Pull(before, world);
      && |data| == world && Square(lists + [data], world)
      && lists + Scattered(before, world) ==
           (lists + [data]) + (if data[0].None? then [] else Scattered(rest, world))
      && Receive(Column(0, world, lists + [data])) ==
           RankRun(if data[0].Some? then yielded + [data[0].value] else yielded, |lists| + 1, data[0].None?)
  {
    hide Receive, Column;
    var (data, rest) := Pull(before, world);
    ReceiveSnoc(Column(0, world, lists), data[0]);
    ColumnSnoc(0, world, lists, data);
    assert yielded + [] == yielded;
    if data[0].Some? {
      assert lists + ([data] + Scattered(rest, world)) == (lists + [data]) + Scattered(rest, world);
    }
  }

  // __iter__ at rank 0: `lists` is what it scatters; None is the error of a skip too long.
  method IterateSource<T>(base: seq<Option<T>>, skip: int, world: nat)
    returns (run: Option<RankRun<T>>, lists: seq<seq<Option<T>>>)
    requires world > 0
    ensures run.None? <==> Skip(base, skip, world).None?
    ensures run.Some? ==>
      && lists == Scattered(Skip(base, skip, world).value, world) && Square(lists, world)
      && run.value == Receive(Column(0, world, lists))
  {
    hide Receive, Column, Scattered, Skip;
    lists := [];
    var yielded: seq<T> := [];
    var baseIter := new BaseIterator(base);
    var ok := SkipBatches(baseIter, skip, world);
    if !ok {
      return None, [];
    }
    ghost var all := Scattered(baseIter.rest, world);
    assert [] + all == all;
    NothingToReceive(0, world, lists);
    while true
      invariant Square(lists, world) && lists + Scattered(baseIter.rest, world) == all
      invariant Receive(Column(0, world, lists)) == RankRun(yielded, |lists|, false)
      decreases |baseIter.rest|
    {
      ghost var before := baseIter.rest;
      var next := baseIter.NextMany(world);
      var data := if next.Some? then next.value else Nones(world);
      assert (data, baseIter.rest) == Pull(before, world);
      SourceStep(lists, before, world, yielded);
      lists := lists + [data];
      if data[0].None? {
        assert lists + [] == lists;
        break;
      }
      yielded := yielded + [data[0].value];
    }
    run := Some(RankRun(yielded, |lists|, true));
  }

  // __iter__ at any other rank: `incoming` is what the scatters bring it, in order.
  method IteratePeer<T>(incoming: seq<Option<T>>) returns (run: RankRun<T>)
    ensures run == Receive(incoming)
  {
    var yielded: seq<T> := [];
    var round := 0;
    assert incoming[..0] == [];
    while round < |incoming|
      invariant 0 <= round <= |incoming|
      invariant Receive(incoming[..round]) == RankRun(yielded, round, false)
    {
      ReceiveSnoc(incoming[..round], incoming[round]);
      assert incoming[..round + 1] == incoming[..round] + [incoming[round]];
      if incoming[round].None? {
        StopsThere(incoming, round);
        return RankRun(yielded, round + 1, true);
      }
      yielded := yielded + [incoming[round].value];
      round := round + 1;
    }
    assert incoming[..|incoming|] == incoming;
    run := RankRun(yielded, round, false);
  }

  // A rank that has stopped takes nothing more.
  lemma {:induction false} StopsThere<T>(incoming: seq<Option<T>>, round: nat)
    requires round < |incoming| && Receive(incoming[..round + 1]).stopped
    ensures Receive(incoming) == Receive(incoming[..round + 1])
  {
    assert incoming[..round + 1][1..] == incoming[1..][..round];
    if round > 0 && incoming[0].Some? {
      StopsThere(incoming[1..], round - 1);
    }
  }
}
