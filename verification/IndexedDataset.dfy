// The sharded on-disk dataset of swift/dataset/indexed_dataset.py.  Files are byte strings;
// pickle is a codec that gives back what it was given and never encodes to nothing.
module IndexedDataset {
  import opened Options
  import opened Sequences

  type Byte = b: int | 0 <= b < 256

  type Bytes = seq<Byte>

  datatype Codec<!T> = Codec(dumps: T -> Bytes, loads: Bytes -> T)

  ghost predicate Lossless<T(!new)>(c: Codec<T>) {
    forall x :: c.loads(c.dumps(x)) == x && c.dumps(x) != []
  }

  // idx_list, shard_offset and the data-*.bin files.
  datatype Store = Store(idx: seq<int>, shardOffset: seq<int>, shards: seq<Bytes>)

  const EMPTY := Store([0], [0], [[]])

  function Last<T>(s: seq<T>): T
    requires s != []
  {
    s[|s| - 1]
  }

  predicate Shaped(st: Store) {
    st.idx != [] && st.shardOffset != [] && |st.shards| == |st.shardOffset|
  }

  function Append(st: Store, bytes: Bytes): (r: Store)
    requires Shaped(st)
    ensures Shaped(r)
  {
    var n := |st.shards| - 1;
    st.(idx := st.idx + [Last(st.idx) + |bytes|], shards := st.shards[n := st.shards[n] + bytes])
  }

  function AppendAll<T>(c: Codec<T>, st: Store, items: seq<T>): (r: Store)
    requires Shaped(st)
    ensures Shaped(r)
    decreases |items|
  {
    if items == [] then st else AppendAll(c, Append(st, c.dumps(items[0])), items[1..])
  }

  // A shard that has reached the chunk size is closed and a new file opened (lines 42-50).
  function Rotate(st: Store, chunk: nat): (r: Store)
    requires Shaped(st)
    ensures Shaped(r)
  {
    var offset := Last(st.idx) - Last(st.shardOffset);
    if offset >= chunk then
      st.(shardOffset := st.shardOffset + [Last(st.shardOffset) + offset], shards := st.shards + [[]])
    else st
  }

  // One turn of _write_worker (lines 32-50).
  function WriteBatch<T>(c: Codec<T>, st: Store, items: seq<T>, chunk: nat): (r: Store)
    requires Shaped(st)
    ensures Shaped(r)
  {
    Rotate(AppendAll(c, st, items), chunk)
  }

  // ------------------------------------------------------------------- the reader

  // bisect.bisect_right on an increasing list
  function BisectRight(s: seq<int>, v: int): (r: nat)
    ensures r <= |s|
    ensures r > 0 ==> s[r - 1] <= v
    ensures forall i :: r <= i < |s| ==> s[i] > v
  {
    if s == [] then 0 else if Last(s) <= v then |s| else BisectRight(s[..|s| - 1], v)
  }

  predicate Increasing(s: seq<int>) {
    forall i, k :: 0 <= i < k < |s| ==> s[i] < s[k]
  }

  method Bisect(s: seq<int>, v: int) returns (lo: nat)
    requires Increasing(s)
    ensures lo == BisectRight(s, v)
  {
    lo := 0;
    var hi := |s|;
    while lo < hi
      invariant 0 <= lo <= hi <= |s|
      invariant forall i :: 0 <= i < lo ==> s[i] <= v
      invariant forall i :: hi <= i < |s| ==> s[i] > v
      decreases hi - lo
    {
      var mid := (lo + hi) / 2;
      if v < s[mid] {
        hi := mid;
      } else {
        lo := mid + 1;
      }
    }
    BisectUnique(s, v, lo);
  }

  lemma {:induction false} BisectUnique(s: seq<int>, v: int, lo: nat)
    requires lo <= |s|
    requires forall i :: 0 <= i < lo ==> s[i] <= v
    requires forall i :: lo <= i < |s| ==> s[i] > v
    ensures BisectRight(s, v) == lo
  {
    if s != [] && Last(s) > v {
      BisectUnique(s[..|s| - 1], v, lo);
    }
  }

  // BinReader.read_buffer (lines 84-87).  An empty file has no memory map to read.
  function ReadBuffer(file: Bytes, offset: int, size: int): Option<Bytes> {
    if file == [] || offset < 0 || size < 0 || offset + size > |file| then None
    else Some(file[offset..offset + size])
  }

  // __getitem__ (lines 122-129); None where it raises.
  function GetItem<T>(c: Codec<T>, st: Store, index: int): Option<T>
    requires Shaped(st)
  {
    var n := |st.idx| - 1;
    if index < 0 && n == 0 then None
    else
      var i := if index < 0 then index % n else index;
      if i >= n then None
      else
        var k := BisectRight(st.shardOffset, st.idx[i]);
        if k == 0 then None
        else
          match ReadBuffer(st.shards[k - 1], st.idx[i] - st.shardOffset[k - 1], st.idx[i + 1] - st.idx[i])
          case None => None
          case Some(buffer) => Some(c.loads(buffer))
  }

  method ReadItem<T>(c: Codec<T>, st: Store, index: int) returns (item: Option<T>)
    requires Shaped(st) && Increasing(st.shardOffset)
    ensures item == GetItem(c, st, index)
  {
    hide BisectRight, ReadBuffer;
    var n := |st.idx| - 1;
    var i := index;
    if i < 0 {
      if n == 0 {
        return None;
      }
      i := i % n;
    }
    if i >= n {
      return None;
    }
    var k := Bisect(st.shardOffset, st.idx[i]);
    if k == 0 {
      return None;
    }
    var offset := st.shardOffset[k - 1];
    var buffer := ReadBuffer(st.shards[k - 1], st.idx[i] - offset, st.idx[i + 1] - st.idx[i]);
    if buffer.None? {
      return None;
    }
    return Some(c.loads(buffer.value));
  }

  // ---------------------------------------------------------------- the invariant

  // Item i lies whole in the shard that bisection finds for it.
  predicate ItemStored<T>(c: Codec<T>, st: Store, items: seq<T>, i: nat)
    requires Shaped(st) && |st.idx| == |items| + 1 && i < |items|
  {
    var k, size := BisectRight(st.shardOffset, st.idx[i]), |c.dumps(items[i])|;
    && st.idx[i + 1] == st.idx[i] + size
    && k > 0
    && var at := st.idx[i] - st.shardOffset[k - 1];
    at + size <= |st.shards[k - 1]| && st.shards[k - 1][at..at + size] == c.dumps(items[i])
  }

  ghost predicate Holds<T>(c: Codec<T>, st: Store, items: seq<T>) {
    && Shaped(st) && |st.idx| == |items| + 1 && st.idx[0] == 0 && st.shardOffset[0] == 0
    && Increasing(st.shardOffset) && Increasing(st.idx)
    && Last(st.idx) == Last(st.shardOffset) + |Last(st.shards)|
    && (forall k :: 0 <= k < |st.shards| - 1 ==> st.shardOffset[k + 1] == st.shardOffset[k] + |st.shards[k]|)
    && (forall i :: 0 <= i < |items| ==> ItemStored(c, st, items, i))
    && Concat(st.shards) == Pickles(c, items)
  }

  function Pickles<T>(c: Codec<T>, items: seq<T>): Bytes {
    if items == [] then [] else Pickles(c, items[..|items| - 1]) + c.dumps(items[|items| - 1])
  }

  lemma {:induction false} ConcatLast<T>(xss: seq<seq<T>>, more: seq<T>)
    requires xss != []
    ensures Concat(xss[|xss| - 1 := xss[|xss| - 1] + more]) == Concat(xss) + more
  {
    var n := |xss| - 1;
    assert xss == xss[..n] + [xss[n]];
    assert xss[n := xss[n] + more] == xss[..n] + [xss[n] + more];
    ConcatAppend(xss[..n], [xss[n]]);
    ConcatAppend(xss[..n], [xss[n] + more]);
    ConcatOne(xss[n]);
    ConcatOne(xss[n] + more);
    Associate(Concat(xss[..n]), xss[n], more);
  }

  lemma {:induction false} OldStaysStored<T(!new)>(c: Codec<T>, st: Store, items: seq<T>, x: T, i: nat)
    requires Shaped(st) && |st.idx| == |items| + 1 && i < |items| && ItemStored(c, st, items, i)
    requires Increasing(st.idx) && Last(st.shardOffset) <= Last(st.idx) && Increasing(st.shardOffset)
    ensures ItemStored(c, Append(st, c.dumps(x)), items + [x], i)
  {
    hide BisectRight;
    var st', n := Append(st, c.dumps(x)), |st.shards| - 1;
    var k, size := BisectRight(st.shardOffset, st.idx[i]), |c.dumps(items[i])|;
    var at := st.idx[i] - st.shardOffset[k - 1];
    assert st'.shards[k - 1][at..at + size] == st.shards[k - 1][at..at + size];
  }

  lemma {:induction false} NewIsStored<T(!new)>(c: Codec<T>, st: Store, items: seq<T>, x: T)
    requires Shaped(st) && |st.idx| == |items| + 1 && Increasing(st.shardOffset)
    requires Last(st.idx) == Last(st.shardOffset) + |Last(st.shards)|
    ensures ItemStored(c, Append(st, c.dumps(x)), items + [x], |items|)
  {
    BisectUnique(st.shardOffset, Last(st.idx), |st.shardOffset|);
    hide BisectRight;
    var n := |st.shards| - 1;
    var shard := st.shards[n];
    assert (shard + c.dumps(x))[|shard|..|shard| + |c.dumps(x)|] == c.dumps(x);
  }

  lemma {:induction false} AppendStores<T(!new)>(c: Codec<T>, st: Store, items: seq<T>, x: T)
    requires Lossless(c) && Holds(c, st, items)
    ensures forall i :: 0 <= i < |items| + 1 ==> ItemStored(c, Append(st, c.dumps(x)), items + [x], i)
  {
    hide Concat, Pickles, Lossless, ItemStored, BisectRight;
    NewIsStored(c, st, items, x);
    forall i | 0 <= i < |items| ensures ItemStored(c, Append(st, c.dumps(x)), items + [x], i) {
      OldStaysStored(c, st, items, x, i);
    }
  }

  lemma {:induction false} AppendHolds<T(!new)>(c: Codec<T>, st: Store, items: seq<T>, x: T)
    requires Lossless(c) && Holds(c, st, items)
    ensures Holds(c, Append(st, c.dumps(x)), items + [x])
  {
    AppendStores(c, st, items, x);
    assert c.dumps(x) != [];
    hide ItemStored, Lossless, BisectRight;
    var st' := Append(st, c.dumps(x));
    ConcatLast(st.shards, c.dumps(x));
    assert (items + [x])[..|items|] == items;
    hide Concat;
  }

  lemma {:induction false} AppendAllHolds<T(!new)>(c: Codec<T>, st: Store, items: seq<T>, more: seq<T>)
    requires Lossless(c) && Holds(c, st, items)
    ensures Holds(c, AppendAll(c, st, more), items + more)
    decreases |more|
  {
    hide Append, Lossless, Holds;
    HoldsShaped(c, st, items);
    if more == [] {
      assert items + more == items;
    } else {
      AppendHolds(c, st, items, more[0]);
      AppendAllHolds(c, Append(st, c.dumps(more[0])), items + [more[0]], more[1..]);
      assert items + more == (items + [more[0]]) + more[1..];
    }
  }

  lemma {:induction false} HoldsShaped<T(!new)>(c: Codec<T>, st: Store, items: seq<T>)
    requires Holds(c, st, items)
    ensures Shaped(st)
  {
  }

  lemma {:induction false} StoredAcrossShards<T(!new)>(c: Codec<T>, st: Store, st': Store, items: seq<T>, i: nat)
    requires Shaped(st) && |st.idx| == |items| + 1 && i < |items| && ItemStored(c, st, items, i)
    requires Increasing(st.idx) && st' == st.(shardOffset := st.shardOffset + [Last(st.idx)], shards := st.shards + [[]])
    ensures Shaped(st') && ItemStored(c, st', items, i)
  {
    var so := st.shardOffset;
    assert st'.shardOffset[..|so|] == so;
    assert BisectRight(st'.shardOffset, st.idx[i]) == BisectRight(so, st.idx[i]);
    hide BisectRight;
  }

  lemma {:induction false} RotateHolds<T(!new)>(c: Codec<T>, st: Store, items: seq<T>, chunk: nat)
    requires chunk > 0 && Lossless(c) && Holds(c, st, items)
    ensures Holds(c, Rotate(st, chunk), items)
  {
    hide ItemStored, BisectRight, Lossless, Concat, Pickles;
    var st' := Rotate(st, chunk);
    if st' != st {
      forall i | 0 <= i < |items| ensures ItemStored(c, st', items, i) {
        StoredAcrossShards(c, st, st', items, i);
      }
      ConcatAppend(st.shards, [[]]);
      ConcatOne<Byte>([]);
      assert Concat(st.shards) + [] == Concat(st.shards);
    }
  }

  lemma {:induction false} WriteHolds<T(!new)>(c: Codec<T>, st: Store, items: seq<T>, more: seq<T>, chunk: nat)
    requires chunk > 0 && Lossless(c) && Holds(c, st, items)
    ensures Holds(c, WriteBatch(c, st, more, chunk), items + more)
  {
    hide Holds, Lossless, AppendAll, Rotate;
    HoldsShaped(c, st, items);
    AppendAllHolds(c, st, items, more);
    RotateHolds(c, AppendAll(c, st, more), items + more, chunk);
  }

  // What the reader gives for every index: the item, counted from the end and around when
  // negative; an error past the end and for an empty dataset.
  lemma {:induction false} ReaderAgrees<T(!new)>(c: Codec<T>, st: Store, items: seq<T>, index: int)
    requires Lossless(c) && Holds(c, st, items)
    ensures GetItem(c, st, index) ==
      if 0 <= index < |items| then Some(items[index])
      else if index < 0 && |items| > 0 then Some(items[index % |items|])
      else None
  {
    hide Concat, Pickles, BisectRight;
    var n := |items|;
    if n > 0 && index < n {
      var i := if index < 0 then index % n else index;
      assert ItemStored(c, st, items, i);
      assert c.loads(c.dumps(items[i])) == items[i] && c.dumps(items[i]) != [];
    }
  }

  // ------------------------------------------------- the writer thread and its queue

  datatype Event<T> = Add(items: seq<T>) | Write

  datatype Builder<T> = Builder(store: Store, queue: seq<seq<T>>)

  function Step<T>(c: Codec<T>, b: Builder<T>, e: Event<T>, chunk: nat): (r: Builder<T>)
    requires Shaped(b.store)
    ensures Shaped(r.store)
  {
    match e
    case Add(items) => b.(queue := b.queue + [items])
    case Write => if b.queue == [] then b else Builder(WriteBatch(c, b.store, b.queue[0], chunk), b.queue[1..])
  }

  function Run<T>(c: Codec<T>, b: Builder<T>, events: seq<Event<T>>, chunk: nat): (r: Builder<T>)
    requires Shaped(b.store)
    ensures Shaped(r.store)
    decreases |events|
  {
    if events == [] then b else Run(c, Step(c, b, events[0], chunk), events[1..], chunk)
  }

  // finalize (lines 58-62): the writer empties the queue.
  function Drain<T>(c: Codec<T>, b: Builder<T>, chunk: nat): (r: Store)
    requires Shaped(b.store)
    ensures Shaped(r)
    decreases |b.queue|
  {
    if b.queue == [] then b.store else Drain(c, Step(c, b, Write, chunk), chunk)
  }

  function Added<T>(events: seq<Event<T>>): seq<T> {
    if events == [] then []
    else (if events[0].Add? then events[0].items else []) + Added(events[1..])
  }

  lemma {:induction false} StepHolds<T(!new)>(c: Codec<T>, b: Builder<T>, e: Event<T>, chunk: nat, written: seq<T>) returns (written': seq<T>)
    requires chunk > 0 && Lossless(c) && Holds(c, b.store, written)
    ensures Holds(c, Step(c, b, e, chunk).store, written')
    ensures written' + Concat(Step(c, b, e, chunk).queue) ==
      written + Concat(b.queue) + (if e.Add? then e.items else [])
  {
    hide Holds, Lossless, WriteBatch;
    HoldsShaped(c, b.store, written);
    written' := written;
    if e.Add? {
      ConcatAppend(b.queue, [e.items]);
      ConcatOne(e.items);
    } else if b.queue != [] {
      written' := written + b.queue[0];
      WriteHolds(c, b.store, written, b.queue[0], chunk);
    }
  }

  lemma {:induction false} RunHolds<T(!new)>(c: Codec<T>, b: Builder<T>, events: seq<Event<T>>, chunk: nat, written: seq<T>)
      returns (written': seq<T>)
    requires chunk > 0 && Lossless(c) && Holds(c, b.store, written)
    ensures Holds(c, Run(c, b, events, chunk).store, written')
    ensures written' + Concat(Run(c, b, events, chunk).queue) == written + Concat(b.queue) + Added(events)
    decreases |events|
  {
    hide Holds, Lossless, Concat, Step;
    HoldsShaped(c, b.store, written);
    written' := written;
    if events != [] {
      var now := StepHolds(c, b, events[0], chunk, written);
      written' := RunHolds(c, Step(c, b, events[0], chunk), events[1..], chunk, now);
    }
  }

  lemma {:induction false} DrainHolds<T(!new)>(c: Codec<T>, b: Builder<T>, chunk: nat, written: seq<T>)
    requires chunk > 0 && Lossless(c) && Holds(c, b.store, written)
    ensures Shaped(b.store) && Holds(c, Drain(c, b, chunk), written + Concat(b.queue))
    decreases |b.queue|
  {
    hide Holds, Lossless, WriteBatch;
    HoldsShaped(c, b.store, written);
    if b.queue == [] {
      assert written + [] == written;
    } else {
      var now := StepHolds(c, b, Write, chunk, written);
      assert written + Concat(b.queue) + [] == written + Concat(b.queue);
      DrainHolds(c, Step(c, b, Write, chunk), chunk, now);
    }
  }

  // However add_items and the writer thread interleave, and whatever the chunk size, the
  // finished dataset reads back as the list of all items ever added.
  lemma {:induction false} DatasetIsTheList<T(!new)>(c: Codec<T>, events: seq<Event<T>>, chunk: nat, index: int)
    requires chunk > 0 && Lossless(c)
    ensures var items, st := Added(events), Drain(c, Run(c, Builder(EMPTY, []), events, chunk), chunk);
      && Holds(c, st, items)
      && GetItem(c, st, index) ==
           if 0 <= index < |items| then Some(items[index])
           else if index < 0 && |items| > 0 then Some(items[index % |items|])
           else None
  {
    assert Holds(c, EMPTY, []);
    hide Holds, Lossless, GetItem;
    var b := Run(c, Builder(EMPTY, []), events, chunk);
    var written := RunHolds(c, Builder(EMPTY, []), events, chunk, []);
    DrainHolds(c, b, chunk, written);
    assert [] + Concat<T>([]) + Added(events) == Added(events);
    ReaderAgrees(c, Drain(c, b, chunk), Added(events), index);
  }

  // -------------------------------------------------------------------- the object

  class IndexedDatasetBuilder<T(!new)> {
    const codec: Codec<T>
    const chunkSize: nat
    var idxList: seq<int>
    var shardOffset: seq<int>
    var binFiles: seq<Bytes>
    var nShard: nat
    var queue: seq<seq<T>>

    function Abs(): Builder<T>
      reads this
    {
      Builder(Store(idxList, shardOffset, binFiles), queue)
    }

    ghost predicate Valid()
      reads this
    {
      Shaped(Abs().store) && nShard == |binFiles|
    }

    constructor (codec: Codec<T>, chunkSize: nat)
      ensures Valid() && Abs() == Builder(EMPTY, []) && this.codec == codec && this.chunkSize == chunkSize
    {
      this.codec, this.chunkSize := codec, chunkSize;
      idxList, shardOffset, binFiles, nShard, queue := [0], [0], [[]], 1, [];
    }

    method AddItems(items: seq<T>)
      requires Valid()
      modifies this
      ensures Valid() && Abs() == Step(codec, old(Abs()), Add(items), chunkSize)
    {
      queue := queue + [items];
    }

    // The loop over one batch (lines 35-40): index entries and the bytes to be written.
    static method PickleAll(c: Codec<T>, ghost st: Store, idxList: seq<int>, items: seq<T>) returns (idx: seq<int>, binBuffer: Bytes)
      requires Shaped(st) && idxList == st.idx
      ensures idx != []
      ensures var n := |st.shards| - 1;
        AppendAll(c, st, items) == st.(idx := idx, shards := st.shards[n := st.shards[n] + binBuffer])
    {
      idx, binBuffer := idxList, [];
      ghost var n := |st.shards| - 1;
      assert st.shards[n] + binBuffer == st.shards[n];
      assert st.shards[n := st.shards[n]] == st.shards;
      assert items[0..] == items;
      for i := 0 to |items|
        invariant idx != []
        invariant AppendAll(c, st.(idx := idx, shards := st.shards[n := st.shards[n] + binBuffer]), items[i..])
                  == AppendAll(c, st, items)
      {
        var itemBuffer := c.dumps(items[i]);
        assert items[i..][0] == items[i] && items[i..][1..] == items[i + 1..];
        ghost var here := st.(idx := idx, shards := st.shards[n := st.shards[n] + binBuffer]);
        Associate(st.shards[n], binBuffer, itemBuffer);
        binBuffer := binBuffer + itemBuffer;
        idx := idx + [Last(idx) + |itemBuffer|];
        assert Append(here, itemBuffer) == st.(idx := idx, shards := st.shards[n := st.shards[n] + binBuffer]);
      }
    }

    // One turn of the writer thread.
    method WriteOne()
      requires Valid() && queue != []
      modifies this
      ensures Valid() && Abs() == Step(codec, old(Abs()), Write, chunkSize)
    {
      hide AppendAll;
      var items := queue[0];
      queue := queue[1..];
      var n := |binFiles| - 1;
      var idx, binBuffer := PickleAll(codec, Abs().store, idxList, items);
      idxList := idx;
      binFiles := binFiles[n := binFiles[n] + binBuffer];
      var offset := Last(idxList) - Last(shardOffset);
      if offset >= chunkSize {
        shardOffset := shardOffset + [Last(shardOffset) + offset];
        nShard := nShard + 1;
        binFiles := binFiles + [[]];
      }
    }

    method Finalize() returns (st: Store)
      requires Valid()
      modifies this
      ensures Valid() && queue == [] && st == Abs().store == Drain(codec, old(Abs()), chunkSize)
    {
      while queue != []
        invariant Valid() && Drain(codec, Abs(), chunkSize) == Drain(codec, old(Abs()), chunkSize)
        decreases |queue|
      {
        WriteOne();
      }
      st := Store(idxList, shardOffset, binFiles);
    }
  }
}
