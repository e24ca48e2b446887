// Which batches go to which file of an indexed dataset: a file is closed after the batch that
// brings it to the chunk size, and never before or later.
module ShardSizes {
  import opened Sequences
  import opened IndexedDataset

  function BytesOf<T>(c: Codec<T>, group: seq<seq<T>>): Bytes {
    Pickles(c, Concat(group))
  }

  // At least a chunk, but less than one before its last batch.
  predicate Full<T>(c: Codec<T>, group: seq<seq<T>>, chunk: nat) {
    && group != [] && |BytesOf(c, group)| >= chunk
    && |BytesOf(c, group[..|group| - 1])| < chunk
  }

  // The batches, in order, group by group: every group but the last is full, and each file
  // holds the pickles of its group.
  ghost predicate Grouped<T>(c: Codec<T>, st: Store, batches: seq<seq<T>>, groups: seq<seq<seq<T>>>, chunk: nat) {
    && Concat(groups) == batches
    && |groups| == |st.shards| > 0
    && (forall k :: 0 <= k < |groups| ==> st.shards[k] == BytesOf(c, groups[k]))
    && (forall k :: 0 <= k < |groups| - 1 ==> Full(c, groups[k], chunk))
    && |BytesOf(c, groups[|groups| - 1])| < chunk
  }

  ghost predicate Sharded<T(!new)>(c: Codec<T>, st: Store, batches: seq<seq<T>>, chunk: nat) {
    && Shaped(st) && Last(st.idx) == Last(st.shardOffset) + |Last(st.shards)|
    && exists groups :: Grouped(c, st, batches, groups, chunk)
  }

  // ------------------------------------------------------------------- one written batch

  lemma {:induction false} PicklesCons<T>(c: Codec<T>, x: T, items: seq<T>)
    ensures Pickles(c, [x] + items) == c.dumps(x) + Pickles(c, items)
  {
    if items == [] {
      assert [x] + items == [x] && [x][..0] == [];
      assert [] + c.dumps(x) == c.dumps(x) + [];
    } else {
      var n := |items| - 1;
      assert ([x] + items)[..n + 1] == [x] + items[..n];
      PicklesCons(c, x, items[..n]);
      Associate(c.dumps(x), Pickles(c, items[..n]), c.dumps(items[n]));
    }
  }

  lemma {:induction false} PicklesAppend<T>(c: Codec<T>, a: seq<T>, b: seq<T>)
    ensures Pickles(c, a + b) == Pickles(c, a) + Pickles(c, b)
  {
    if a == [] {
      assert a + b == b;
    } else {
      assert a == [a[0]] + a[1..];
      assert a + b == [a[0]] + (a[1..] + b);
      PicklesCons(c, a[0], a[1..]);
      PicklesCons(c, a[0], a[1..] + b);
      PicklesAppend(c, a[1..], b);
      Associate(c.dumps(a[0]), Pickles(c, a[1..]), Pickles(c, b));
    }
  }

  // A batch goes to the last file as a whole.
  lemma {:induction false} AppendAllIs<T>(c: Codec<T>, st: Store, items: seq<T>)
    requires Shaped(st)
    ensures var (st', n) := (AppendAll(c, st, items), |st.shards| - 1);
      && st'.shardOffset == st.shardOffset
      && st'.shards == st.shards[n := st.shards[n] + Pickles(c, items)]
      && Last(st'.idx) == Last(st.idx) + |Pickles(c, items)|
    decreases |items|
  {
    hide Pickles;
    var n := |st.shards| - 1;
    if items == [] {
      NoPickles(c);
      assert st.shards[n] + [] == st.shards[n];
    } else {
      var next := Append(st, c.dumps(items[0]));
      AppendAllIs(c, next, items[1..]);
      assert items == [items[0]] + items[1..];
      PicklesCons(c, items[0], items[1..]);
      Associate(st.shards[n], c.dumps(items[0]), Pickles(c, items[1..]));
    }
  }

  lemma {:induction false} NoPickles<T>(c: Codec<T>)
    ensures Pickles(c, []) == []
  {
  }

  lemma {:induction false} GroupMore<T>(c: Codec<T>, group: seq<seq<T>>, batch: seq<T>)
    ensures BytesOf(c, group + [batch]) == BytesOf(c, group) + Pickles(c, batch)
    ensures (group + [batch])[..|group|] == group
  {
    hide Pickles;
    ConcatAppend(group, [batch]);
    ConcatOne(batch);
    PicklesAppend(c, Concat(group), batch);
  }

  // The last group, with the batch added.
  function Grown<T>(groups: seq<seq<seq<T>>>, batch: seq<T>): (r: seq<seq<seq<T>>>)
    requires groups != []
    ensures |r| == |groups|
  {
    groups[|groups| - 1 := groups[|groups| - 1] + [batch]]
  }

  lemma {:induction false} GrownHolds<T>(groups: seq<seq<seq<T>>>, batch: seq<T>)
    requires groups != []
    ensures Concat(Grown(groups, batch)) == Concat(groups) + [batch]
    ensures Concat(Grown(groups, batch) + [[]]) == Concat(groups) + [batch]
  {
    ConcatLast(groups, [batch]);
    ConcatAppend(Grown(groups, batch), [[]]);
    ConcatOne<seq<T>>([]);
    assert Concat(Grown(groups, batch)) + [] == Concat(Grown(groups, batch));
  }

  // Files and groups before the last file is looked at.
  ghost predicate Unchecked<T>(c: Codec<T>, st: Store, groups: seq<seq<seq<T>>>, chunk: nat) {
    && |groups| == |st.shards| > 0
    && (forall k :: 0 <= k < |groups| ==> st.shards[k] == BytesOf(c, groups[k]))
    && (forall k :: 0 <= k < |groups| - 1 ==> Full(c, groups[k], chunk))
    && var last := groups[|groups| - 1];
    last != [] && |BytesOf(c, last[..|last| - 1])| < chunk
  }

  lemma {:induction false} LastFileGrows<T(!new)>(c: Codec<T>, st: Store, batches: seq<seq<T>>, groups: seq<seq<seq<T>>>, batch: seq<T>,
                                                chunk: nat)
    requires Shaped(st) && Grouped(c, st, batches, groups, chunk)
    ensures Unchecked(c, AppendAll(c, st, batch), Grown(groups, batch), chunk)
  {
    hide BytesOf, AppendAll, Pickles, Concat, Full;
    GroupMore(c, groups[|groups| - 1], batch);
    AppendAllIs(c, st, batch);
  }

  lemma {:induction false} LastFileChecked<T(!new)>(c: Codec<T>, st: Store, groups: seq<seq<seq<T>>>, chunk: nat)
    requires chunk > 0 && Shaped(st) && Last(st.idx) == Last(st.shardOffset) + |Last(st.shards)|
    requires Unchecked(c, st, groups, chunk)
    ensures var st' := Rotate(st, chunk);
      var groups' := if |Last(st.shards)| >= chunk then groups + [[]] else groups;
      && Last(st'.idx) == Last(st'.shardOffset) + |Last(st'.shards)|
      && Grouped(c, st', Concat(groups'), groups', chunk)
  {
    NoBytes(c);
    hide BytesOf, Concat;
    assert |Last(st.shards)| >= chunk ==> Full(c, groups[|groups| - 1], chunk);
    hide Full;
  }

  lemma {:induction false} WriteGroups<T(!new)>(c: Codec<T>, st: Store, batches: seq<seq<T>>, groups: seq<seq<seq<T>>>, batch: seq<T>,
                                              chunk: nat) returns (groups': seq<seq<seq<T>>>)
    requires chunk > 0 && Shaped(st) && Last(st.idx) == Last(st.shardOffset) + |Last(st.shards)|
    requires Grouped(c, st, batches, groups, chunk) && groups != []
    ensures var st' := WriteBatch(c, st, batch, chunk);
      && Last(st'.idx) == Last(st'.shardOffset) + |Last(st'.shards)|
      && Grouped(c, st', batches + [batch], groups', chunk)
  {
    var st1, grown := AppendAll(c, st, batch), Grown(groups, batch);
    LastFileGrows(c, st, batches, groups, batch, chunk);
    AppendAllIs(c, st, batch);
    GrownHolds(groups, batch);
    hide AppendAll, Rotate, Pickles, Unchecked, Grown, BytesOf, Full;
    LastFileChecked(c, st1, grown, chunk);
    groups' := if |Last(st1.shards)| >= chunk then grown + [[]] else grown;
  }

  lemma {:induction false} NoBytes<T>(c: Codec<T>)
    ensures BytesOf(c, []) == []
  {
  }

  lemma {:induction false} WriteSharded<T(!new)>(c: Codec<T>, st: Store, batches: seq<seq<T>>, batch: seq<T>, chunk: nat)
    requires chunk > 0 && Sharded(c, st, batches, chunk)
    ensures Sharded(c, WriteBatch(c, st, batch, chunk), batches + [batch], chunk)
  {
    hide Grouped, WriteBatch;
    var groups :| Grouped(c, st, batches, groups, chunk);
    assert groups != [] by {
      SomeGroup(c, st, batches, groups, chunk);
    }
    var groups' := WriteGroups(c, st, batches, groups, batch, chunk);
  }

  lemma {:induction false} SomeGroup<T>(c: Codec<T>, st: Store, batches: seq<seq<T>>, groups: seq<seq<seq<T>>>, chunk: nat)
    requires Grouped(c, st, batches, groups, chunk)
    ensures groups != []
  {
  }

  // ------------------------------------------------------------------------ every run

  function AddedBatches<T>(events: seq<Event<T>>): seq<seq<T>> {
    if events == [] then []
    else (if events[0].Add? then [events[0].items] else []) + AddedBatches(events[1..])
  }

  lemma {:induction false} StartSharded<T(!new)>(c: Codec<T>, chunk: nat)
    requires chunk > 0
    ensures Sharded(c, EMPTY, [], chunk)
  {
    var groups: seq<seq<seq<T>>> := [[]];
    ConcatOne<seq<T>>([]);
    NoBytes(c);
    assert Grouped(c, EMPTY, [], groups, chunk);
  }

  lemma {:induction false} RunSharded<T(!new)>(c: Codec<T>, b: Builder<T>, events: seq<Event<T>>, chunk: nat, written: seq<seq<T>>)
      returns (written': seq<seq<T>>)
    requires chunk > 0 && Shaped(b.store) && Sharded(c, b.store, written, chunk)
    ensures Sharded(c, Run(c, b, events, chunk).store, written', chunk)
    ensures written' + Run(c, b, events, chunk).queue == written + b.queue + AddedBatches(events)
    decreases |events|
  {
    hide Sharded, WriteBatch;
    written' := written;
    if events == [] {
      assert written + b.queue + [] == written + b.queue;
    } else {
      var now := written;
      var b' := Step(c, b, events[0], chunk);
      var own := if events[0].Add? then [events[0].items] else [];
      if events[0].Write? && b.queue != [] {
        WriteSharded(c, b.store, written, b.queue[0], chunk);
        now := written + [b.queue[0]];
        assert b.queue == [b.queue[0]] + b.queue[1..];
      }
      assert now + b'.queue == written + b.queue + own;
      written' := RunSharded(c, b', events[1..], chunk, now);
      Associate(written + b.queue, own, AddedBatches(events[1..]));
    }
  }

  lemma {:induction false} DrainSharded<T(!new)>(c: Codec<T>, b: Builder<T>, chunk: nat, written: seq<seq<T>>)
    requires chunk > 0 && Shaped(b.store) && Sharded(c, b.store, written, chunk)
    ensures Sharded(c, Drain(c, b, chunk), written + b.queue, chunk)
    decreases |b.queue|
  {
    hide Sharded, WriteBatch;
    if b.queue == [] {
      assert written + b.queue == written;
    } else {
      WriteSharded(c, b.store, written, b.queue[0], chunk);
      DrainSharded(c, Step(c, b, Write, chunk), chunk, written + [b.queue[0]]);
      assert written + b.queue == (written + [b.queue[0]]) + b.queue[1..];
    }
  }

  // At every moment of every run the batches written so far, in order, are grouped into files:
  // each but the last has at least a chunk, and had less before its last batch; the last has
  // less.  At the end these are all the batches that were ever added.
  lemma {:induction false} FilesByChunk<T(!new)>(c: Codec<T>, events: seq<Event<T>>, chunk: nat)
    requires chunk > 0
    ensures var b, all := Run(c, Builder(EMPTY, []), events, chunk), AddedBatches(events);
      && |b.queue| <= |all| && b.queue == all[|all| - |b.queue|..]
      && Sharded(c, b.store, all[..|all| - |b.queue|], chunk)
      && Sharded(c, Drain(c, b, chunk), all, chunk)
  {
    hide Sharded, Run, Drain;
    StartSharded(c, chunk);
    var start: Builder<T> := Builder(EMPTY, []);
    var b, all := Run(c, start, events, chunk), AddedBatches(events);
    var written := RunSharded(c, start, events, chunk, []);
    var none: seq<seq<T>> := [];
    assert none + none + all == all && written + b.queue == all;
    assert written == all[..|all| - |b.queue|];
    DrainSharded(c, b, chunk, written);
  }

  // ------------------------------------------------------------------------ only one way

  lemma {:induction false} LessBytes<T>(c: Codec<T>, a: seq<seq<T>>, b: seq<seq<T>>)
    requires a <= b
    ensures |BytesOf(c, a)| <= |BytesOf(c, b)|
  {
    assert b == a + b[|a|..];
    ConcatAppend(a, b[|a|..]);
    PicklesAppend(c, Concat(a), Concat(b[|a|..]));
  }

  predicate Divided<T>(c: Codec<T>, groups: seq<seq<seq<T>>>, chunk: nat) {
    && groups != [] && (forall k :: 0 <= k < |groups| - 1 ==> Full(c, groups[k], chunk))
    && |BytesOf(c, groups[|groups| - 1])| < chunk
  }

  lemma {:induction false} FirstGroupOnce<T>(c: Codec<T>, g: seq<seq<seq<T>>>, h: seq<seq<seq<T>>>, chunk: nat)
    requires Divided(c, g, chunk) && Divided(c, h, chunk) && Concat(g) == Concat(h)
    ensures |g[0]| >= |h[0]|
  {
    hide BytesOf;
    var a, b, all := g[0], h[0], Concat(g);
    assert a <= all && b <= all;
    assert a == all[..|a|] && b == all[..|b|];
    ConcatOne(a);
    assert |g| == 1 ==> g == [a];
    if |g| > 1 && |a| < |b| {
      assert Full(c, g[0], chunk);
      LessBytes(c, a, b[..|b| - 1]);
      LessBytes(c, b[..|b| - 1], b);
    }
  }

  // The batches can be divided in one way only, so the files are determined.
  lemma {:induction false} DividedOnce<T>(c: Codec<T>, g: seq<seq<seq<T>>>, h: seq<seq<seq<T>>>, chunk: nat)
    requires Divided(c, g, chunk) && Divided(c, h, chunk) && Concat(g) == Concat(h)
    ensures g == h
    decreases |g|
  {
    hide BytesOf;
    FirstGroupOnce(c, g, h, chunk);
    FirstGroupOnce(c, h, g, chunk);
    var all := Concat(g);
    assert g[0] == all[..|g[0]|] && h[0] == all[..|h[0]|];
    assert all[|g[0]|..] == Concat(g[1..]) && all[|h[0]|..] == Concat(h[1..]);
    assert g == [g[0]] + g[1..] && h == [h[0]] + h[1..];
    assert (|g| > 1 ==> Full(c, g[0], chunk)) && (|h| > 1 ==> Full(c, h[0], chunk));
    if |g| > 1 && |h| > 1 {
      assert forall k :: 0 <= k < |g| - 2 ==> g[1..][k] == g[k + 1];
      assert forall k :: 0 <= k < |h| - 2 ==> h[1..][k] == h[k + 1];
      DividedOnce(c, g[1..], h[1..], chunk);
    }
  }
}
