// The request pool behind infer_async (swift/infer_engine/transformers_engine.py, lines 142-167).
// Arriving requests wait in a queue; a fetch drains the queue into a pool keyed by a hash
// of (request_config, adapter_request) and takes one batch of the oldest key.
module RequestPool {
  import opened Arithmetic
  import opened Options

  // `key` stands for the hash; `hook` for pre_infer_hook, which is not hashed; `body` for the
  // request and the queue its answer goes to.
  datatype Request = Request(key: string, hook: int, body: int)

  // One entry of the dictionary: the arguments of the first request, then all that wait.
  datatype Task = Task(key: string, hook: int, data: seq<Request>)

  datatype Batch = Batch(hook: int, data: seq<Request>)

  // A Python dictionary keeps its keys in order of insertion, so the pool is a sequence.
  datatype State = State(queue: seq<Request>, pool: seq<Task>)

  // ------------------------------------------------------------------------- the steps

  function Store(pool: seq<Task>, r: Request): seq<Task> {
    if pool == [] then [Task(r.key, r.hook, [r])]
    else if pool[0].key == r.key then [pool[0].(data := pool[0].data + [r])] + pool[1..]
    else [pool[0]] + Store(pool[1..], r)
  }

  function StoreAll(pool: seq<Task>, rs: seq<Request>): seq<Task>
    decreases |rs|
  {
    if rs == [] then pool else StoreAll(Store(pool, rs[0]), rs[1..])
  }

  // How many of n waiting requests one batch takes.
  function Portion(n: nat, max: int): nat {
    if max <= 0 || n <= max then n else max
  }

  function TakeFirst(pool: seq<Task>, max: int): (seq<Task>, Option<Batch>) {
    if pool == [] then ([], None)
    else
      var t := pool[0];
      var m := Portion(|t.data|, max);
      (if m == |t.data| then pool[1..] else [t.(data := t.data[m..])] + pool[1..],
       Some(Batch(t.hook, t.data[..m])))
  }

  function Fetch(st: State, max: int): (State, Option<Batch>) {
    var (pool, batch) := TakeFirst(StoreAll(st.pool, st.queue), max);
    (State([], pool), batch)
  }

  datatype Event = Arrive(r: Request) | Poll

  function Run(st: State, events: seq<Event>, max: int): (State, seq<Batch>)
    decreases |events|
  {
    if events == [] then (st, [])
    else match events[0]
      case Arrive(r) => Run(st.(queue := st.queue + [r]), events[1..], max)
      case Poll =>
        var (st', batch) := Fetch(st, max);
        var (end, rest) := Run(st', events[1..], max);
        (end, (if batch.Some? then [batch.value] else []) + rest)
  }

  // ------------------------------------------------------- what is where, key by key

  function Of(key: string, rs: seq<Request>): seq<Request> {
    if rs == [] then [] else (if rs[0].key == key then [rs[0]] else []) + Of(key, rs[1..])
  }

  function Waiting(pool: seq<Task>): seq<Request> {
    if pool == [] then [] else pool[0].data + Waiting(pool[1..])
  }

  function Served(batches: seq<Batch>): seq<Request> {
    if batches == [] then [] else batches[0].data + Served(batches[1..])
  }

  function Arrivals(events: seq<Event>): seq<Request> {
    if events == [] then []
    else (if events[0].Arrive? then [events[0].r] else []) + Arrivals(events[1..])
  }

  function Keys(pool: seq<Task>): set<string> {
    if pool == [] then {} else {pool[0].key} + Keys(pool[1..])
  }

  predicate OneKey(key: string, rs: seq<Request>) {
    forall i :: 0 <= i < |rs| ==> rs[i].key == key
  }

  // No entry is empty, an entry holds requests of its key only, and no key has two entries.
  predicate Sound(pool: seq<Task>) {
    pool == [] || (
      && pool[0].data != [] && OneKey(pool[0].key, pool[0].data)
      && pool[0].key !in Keys(pool[1..]) && Sound(pool[1..]))
  }

  predicate GoodBatch(b: Batch, max: int) {
    b.data != [] && OneKey(b.data[0].key, b.data) && (max > 0 ==> |b.data| <= max)
  }

  predicate GoodBatches(batches: seq<Batch>, max: int) {
    forall i :: 0 <= i < |batches| ==> GoodBatch(batches[i], max)
  }

  lemma {:induction false} OfAppend(key: string, a: seq<Request>, b: seq<Request>)
    ensures Of(key, a + b) == Of(key, a) + Of(key, b)
  {
    if a == [] {
      assert a + b == b;
    } else {
      assert (a + b)[1..] == a[1..] + b && (a + b)[0] == a[0];
      OfAppend(key, a[1..], b);
      var own := if a[0].key == key then [a[0]] else [];
      assert own + (Of(key, a[1..]) + Of(key, b)) == (own + Of(key, a[1..])) + Of(key, b);
    }
  }

  lemma {:induction false} OfOneKey(key: string, rs: seq<Request>, own: string)
    requires OneKey(own, rs)
    ensures Of(key, rs) == if key == own then rs else []
  {
    if rs != [] {
      OfOneKey(key, rs[1..], own);
      assert rs == [rs[0]] + rs[1..];
    }
  }

  lemma {:induction false} ForeignKey(key: string, pool: seq<Task>)
    requires Sound(pool) && key !in Keys(pool)
    ensures Of(key, Waiting(pool)) == []
  {
    if pool != [] {
      OfAppend(key, pool[0].data, Waiting(pool[1..]));
      OfOneKey(key, pool[0].data, pool[0].key);
      ForeignKey(key, pool[1..]);
    }
  }

  lemma {:induction false} StoreSound(pool: seq<Task>, r: Request)
    requires Sound(pool)
    ensures Sound(Store(pool, r)) && Keys(Store(pool, r)) == Keys(pool) + {r.key}
  {
    if pool != [] {
      if pool[0].key != r.key {
        StoreSound(pool[1..], r);
      }
    }
  }

  lemma {:induction false} StoreKeeps(pool: seq<Task>, r: Request, key: string)
    requires Sound(pool)
    ensures Of(key, Waiting(Store(pool, r))) == Of(key, Waiting(pool)) + Of(key, [r])
  {
    hide Of;
    if pool == [] {
      assert [r] + [] == [r];
      OfNone(key);
    } else {
      var first, rest := pool[0], pool[1..];
      OfAppend(key, first.data, Waiting(rest));
      if first.key == r.key {
        OfAppend(key, first.data + [r], Waiting(rest));
        OfAppend(key, first.data, [r]);
        OfOneKey(key, [r], r.key);
        if key == r.key {
          ForeignKey(key, rest);
        }
      } else {
        StoreKeeps(rest, r, key);
        OfAppend(key, first.data, Waiting(Store(rest, r)));
      }
    }
  }

  lemma {:induction false} OfNone(key: string)
    ensures Of(key, []) == []
  {
  }

  lemma {:induction false} StoreAllKeeps(pool: seq<Task>, rs: seq<Request>, key: string)
    requires Sound(pool)
    ensures Sound(StoreAll(pool, rs))
    ensures Of(key, Waiting(StoreAll(pool, rs))) == Of(key, Waiting(pool)) + Of(key, rs)
    decreases |rs|
  {
    hide Sound, Store, Waiting;
    if rs != [] {
      StoreSound(pool, rs[0]);
      StoreKeeps(pool, rs[0], key);
      StoreAllKeeps(Store(pool, rs[0]), rs[1..], key);
      assert rs == [rs[0]] + rs[1..];
      OfAppend(key, [rs[0]], rs[1..]);
    }
  }

  // A fetch moves a non-empty batch of one key, and takes nothing else.
  lemma {:induction false} TakeFirstKeeps(pool: seq<Task>, max: int, key: string)
    requires Sound(pool) && pool != []
    ensures var (pool', batch) := TakeFirst(pool, max);
      && Sound(pool') && batch.Some? && GoodBatch(batch.value, max)
      && Of(key, batch.value.data) + Of(key, Waiting(pool')) == Of(key, Waiting(pool))
  {
    var t := pool[0];
    var m := Portion(|t.data|, max);
    var (pool', batch) := TakeFirst(pool, max);
    var taken, left, more := t.data[..m], t.data[m..], Waiting(pool[1..]);
    assert t.data == taken + left && taken[0] == t.data[0];
    hide Of, Keys;
    OfAppend(key, taken, left);
    OfAppend(key, t.data, more);
    if m == |t.data| {
      assert taken == t.data;
    } else {
      assert pool'[1..] == pool[1..] && pool'[0].data == left;
      OfAppend(key, left, more);
      assert Of(key, taken) + (Of(key, left) + Of(key, more)) == (Of(key, taken) + Of(key, left)) + Of(key, more);
    }
  }

  lemma {:induction false} FetchKeeps(st: State, max: int, key: string)
    requires Sound(st.pool)
    ensures var (st', batch) := Fetch(st, max);
      && Sound(st'.pool) && st'.queue == []
      && (batch.None? <==> st.queue == [] && st.pool == [])
      && (batch.Some? ==> GoodBatch(batch.value, max))
      && (if batch.Some? then Of(key, batch.value.data) else []) + Of(key, Waiting(st'.pool))
         == Of(key, Waiting(st.pool)) + Of(key, st.queue)
  {
    hide Sound, Store, GoodBatch;
    StoreAllKeeps(st.pool, st.queue, key);
    StoreAllEmpty(st.pool, st.queue);
    var pool := StoreAll(st.pool, st.queue);
    if pool != [] {
      TakeFirstKeeps(pool, max, key);
    }
  }

  lemma {:induction false} StoreAllEmpty(pool: seq<Task>, rs: seq<Request>)
    ensures StoreAll(pool, rs) == [] <==> pool == [] && rs == []
    decreases |rs|
  {
    if rs != [] {
      StoreAllEmpty(Store(pool, rs[0]), rs[1..]);
    }
  }

  lemma {:induction false} ServedCons(b: Batch, rest: seq<Batch>)
    ensures Served([b] + rest) == b.data + Served(rest)
  {
    assert ([b] + rest)[1..] == rest;
  }

  lemma {:induction false} RunPoll(st: State, events: seq<Event>, max: int)
    requires events != [] && events[0].Poll?
    ensures var (st', batch) := Fetch(st, max);
      var (end, rest) := Run(st', events[1..], max);
      Run(st, events, max) == (end, (if batch.Some? then [batch.value] else []) + rest)
    ensures Arrivals(events) == Arrivals(events[1..])
  {
    hide Fetch;
    assert [] + Arrivals(events[1..]) == Arrivals(events[1..]);
  }

  lemma {:induction false} Regroup<T>(b: seq<T>, s: seq<T>, w: seq<T>, q: seq<T>, w': seq<T>, before: seq<T>, a: seq<T>)
    requires s + w + q == w' + [] + a && b + w' == before
    ensures b + s + w + q == before + a
  {
    assert b + s + w + q == b + (s + w + q);
    assert b + (w' + [] + a) == (b + w') + a;
  }

  // Over every run of arrivals and fetches: the requests of a key are, in order of arrival,
  // those already served, then those in the pool, then those in the queue.  Nothing is lost,
  // repeated or reordered within a key, and every batch is non-empty, of one key and within
  // the bound.
  lemma {:induction false} EachRequestOnce(st: State, events: seq<Event>, max: int, key: string)
    requires Sound(st.pool)
    ensures var (end, batches) := Run(st, events, max);
      && Sound(end.pool) && GoodBatches(batches, max)
      && Of(key, Served(batches)) + Of(key, Waiting(end.pool)) + Of(key, end.queue)
         == Of(key, Waiting(st.pool)) + Of(key, st.queue) + Of(key, Arrivals(events))
    decreases |events|
  {
    hide Sound, Fetch, Waiting, GoodBatch, Of;
    if events == [] {
      OfNone(key);
    } else {
      hide Run, Arrivals;
      var rest := Arrivals(events[1..]);
      if events[0].Arrive? {
        var r := events[0].r;
        assert Run(st, events, max) == Run(st.(queue := st.queue + [events[0].r]), events[1..], max);
        assert Arrivals(events) == [events[0].r] + Arrivals(events[1..]);
        EachRequestOnce(st.(queue := st.queue + [r]), events[1..], max, key);
        OfAppend(key, st.queue, [r]);
        OfAppend(key, [r], rest);
      } else {
        var (st', batch) := Fetch(st, max);
        RunPoll(st, events, max);
        FetchKeeps(st, max, key);
        EachRequestOnce(st', events[1..], max, key);
        OfNone(key);
        var (end, later) := Run(st', events[1..], max);
        var now := if batch.Some? then [batch.value] else [];
        var taken := if batch.Some? then Of(key, batch.value.data) else [];
        assert Of(key, Served(now + later)) == taken + Of(key, Served(later)) by {
          if batch.Some? {
            ServedCons(batch.value, later);
            OfAppend(key, batch.value.data, Served(later));
          } else {
            assert now + later == later && taken + Of(key, Served(later)) == Of(key, Served(later));
          }
        }
        Regroup(taken, Of(key, Served(later)), Of(key, Waiting(end.pool)), Of(key, end.queue),
          Of(key, Waiting(st'.pool)), Of(key, Waiting(st.pool)) + Of(key, st.queue), Of(key, rest));
      }
    }
  }

  // -------------------------------------------------------------- emptying the pool

  // The batches of one entry: equal portions, the last one possibly smaller.
  function Chunks(t: Task, max: int): (r: seq<Batch>)
    decreases |t.data|
  {
    var m := Portion(|t.data|, max);
    if t.data == [] then []
    else if m == |t.data| then [Batch(t.hook, t.data)]
    else [Batch(t.hook, t.data[..m])] + Chunks(t.(data := t.data[m..]), max)
  }

  function Drained(pool: seq<Task>, max: int): seq<Batch> {
    if pool == [] then [] else Chunks(pool[0], max) + Drained(pool[1..], max)
  }

  function Polls(n: nat): seq<Event> {
    if n == 0 then [] else [Poll] + Polls(n - 1)
  }

  // ceil(n / max), or one fetch for everything when the size is unlimited.
  function Rounds(n: nat, max: int): nat {
    if n == 0 then 0 else if max <= 0 then 1 else (n + max - 1) / max
  }

  function RoundsOf(pool: seq<Task>, max: int): nat {
    if pool == [] then 0 else Rounds(|pool[0].data|, max) + RoundsOf(pool[1..], max)
  }

  lemma {:induction false} DivStep(n: nat, max: nat)
    requires 0 < max < n
    ensures (n + max - 1) / max == 1 + (n - max + max - 1) / max
  {
    var q, r := (n - 1) / max, (n - 1) % max;
    Division(n - 1 + max, q + 1, r, max);
  }

  lemma {:induction false} ChunkCount(t: Task, max: int)
    ensures |Chunks(t, max)| == Rounds(|t.data|, max)
    decreases |t.data|
  {
    var n := |t.data|;
    if max > 0 && 0 < n <= max {
      Division(n + max - 1, 1, n - 1, max);
    } else if max > 0 && n > max {
      ChunkCount(t.(data := t.data[max..]), max);
      DivStep(n, max);
    }
  }

  lemma {:induction false} DrainedStep(pool: seq<Task>, max: int)
    requires Sound(pool) && pool != []
    ensures var (pool', batch) := TakeFirst(pool, max);
      batch.Some? && Drained(pool, max) == [batch.value] + Drained(pool', max)
  {
    var t := pool[0];
    var m := Portion(|t.data|, max);
    var (pool', batch) := TakeFirst(pool, max);
    if m == |t.data| {
      assert t.data[..m] == t.data;
    } else {
      assert pool'[1..] == pool[1..];
      var rest := Chunks(pool'[0], max);
      assert ([batch.value] + rest) + Drained(pool[1..], max) == [batch.value] + (rest + Drained(pool[1..], max));
    }
  }

  lemma {:induction false} PollsRun(st: State, n: nat, max: int)
    requires n > 0
    ensures var (st', batch) := Fetch(st, max);
      var (end, rest) := Run(st', Polls(n - 1), max);
      Run(st, Polls(n), max) == (end, (if batch.Some? then [batch.value] else []) + rest)
  {
    RunPoll(st, Polls(n), max);
    assert Polls(n)[1..] == Polls(n - 1);
  }

  lemma {:induction false} FetchIsFirst(st: State, max: int)
    requires Sound(st.pool) && Drained(StoreAll(st.pool, st.queue), max) != []
    ensures var (st', batch) := Fetch(st, max);
      && batch.Some? && Sound(st'.pool)
      && Drained(StoreAll(st.pool, st.queue), max) == [batch.value] + Drained(StoreAll(st'.pool, st'.queue), max)
  {
    hide Sound, Store, Chunks, TakeFirst;
    StoreAllKeeps(st.pool, st.queue, "");
    FetchKeeps(st, max, "");
    DrainedStep(StoreAll(st.pool, st.queue), max);
  }

  // With no further arrivals, n fetches give the first n batches of the drained order: key
  // after key by first arrival, each key in full portions.
  lemma {:induction false} FetchesDrain(st: State, n: nat, max: int)
    requires Sound(st.pool)
    requires n <= |Drained(StoreAll(st.pool, st.queue), max)|
    ensures var (end, batches) := Run(st, Polls(n), max);
      var all := Drained(StoreAll(st.pool, st.queue), max);
      && batches == all[..n]
      && all[n..] == Drained(StoreAll(end.pool, end.queue), max)
      && Sound(end.pool)
    decreases n
  {
    hide Sound, Fetch, StoreAll, Drained;
    if n > 0 {
      hide Run;
      var all := Drained(StoreAll(st.pool, st.queue), max);
      var (st', batch) := Fetch(st, max);
      FetchIsFirst(st, max);
      PollsRun(st, n, max);
      FetchesDrain(st', n - 1, max);
      ConsParts(batch.value, Drained(StoreAll(st'.pool, st'.queue), max), n);
    }
  }

  lemma {:induction false} ConsParts(b: Batch, rest: seq<Batch>, n: nat)
    requires 0 < n <= |rest| + 1
    ensures ([b] + rest)[..n] == [b] + rest[..n - 1] && ([b] + rest)[n..] == rest[n - 1..]
  {
  }

  lemma {:induction false} DrainedEmpty(pool: seq<Task>, max: int)
    requires Sound(pool)
    ensures |Drained(pool, max)| == RoundsOf(pool, max)
    ensures Drained(pool, max) == [] <==> pool == []
  {
    if pool != [] {
      ChunkCount(pool[0], max);
      DrainedEmpty(pool[1..], max);
    }
  }

  // The pool empties in exactly the sum over its keys of ceil(n_k / max) fetches: after fewer
  // something is left, after that many nothing is, and the next fetch returns None.
  lemma {:induction false} PoolEmptiesExactly(st: State, n: nat, max: int)
    requires Sound(st.pool)
    requires n <= RoundsOf(StoreAll(st.pool, st.queue), max)
    ensures var (end, batches) := Run(st, Polls(n), max);
      && |batches| == n
      && (end.pool == [] && end.queue == [] <==> n == RoundsOf(StoreAll(st.pool, st.queue), max))
      && (Fetch(end, max).1.None? <==> n == RoundsOf(StoreAll(st.pool, st.queue), max))
  {
    hide Sound, Fetch, Run, Drained, RoundsOf;
    StoreAllKeeps(st.pool, st.queue, "");
    DrainedEmpty(StoreAll(st.pool, st.queue), max);
    FetchesDrain(st, n, max);
    var (end, batches) := Run(st, Polls(n), max);
    StoreAllKeeps(end.pool, end.queue, "");
    DrainedEmpty(StoreAll(end.pool, end.queue), max);
    StoreAllEmpty(end.pool, end.queue);
    FetchKeeps(end, max, "");
  }

  // What n_k is: an entry holds exactly the waiting requests of its key.
  lemma {:induction false} EntryHoldsItsKey(pool: seq<Task>, i: nat)
    requires Sound(pool) && i < |pool|
    ensures pool[i].data == Of(pool[i].key, Waiting(pool)) && pool[i].key in Keys(pool)
  {
    var key := pool[i].key;
    OfAppend(key, pool[0].data, Waiting(pool[1..]));
    OfOneKey(key, pool[0].data, pool[0].key);
    if i == 0 {
      ForeignKey(key, pool[1..]);
    } else {
      EntryHoldsItsKey(pool[1..], i - 1);
    }
  }

  // ------------------------------------------------------- what the pool does not promise

  // pre_infer_hook is not part of the key, and the arguments kept are those of the first
  // arrival: a batch can run under the hook of a request that is not in it.
  lemma {:induction false} HookOfAnotherRequest()
    ensures var a, b := Request("k", 1, 1), Request("k", 2, 2);
      Run(State([a, b], []), Polls(2), 1) == (State([], []), [Batch(1, [a]), Batch(1, [b])])
  {
    var a, b := Request("k", 1, 1), Request("k", 2, 2);
    var both, one := Task("k", 1, [a, b]), Task("k", 1, [b]);
    assert [a, b][1..] == [b] && [b][1..] == [] && [a] + [b] == [a, b];
    assert Store([], a) == [Task("k", 1, [a])];
    assert Store([Task("k", 1, [a])], b) == [both];
    assert StoreAll([both], []) == [both];
    assert StoreAll([Task("k", 1, [a])], [b]) == [both];
    assert StoreAll([], [a, b]) == [both];
    assert [a, b][..1] == [a] && [a, b][1..] == [b];
    assert both.(data := [b]) == one && [one] + [] == [one] && [both][1..] == [];
    assert TakeFirst([both], 1) == ([one], Some(Batch(1, [a])));
    assert Fetch(State([a, b], []), 1) == (State([], [one]), Some(Batch(1, [a])));
    assert StoreAll([one], []) == [one] && [b][..1] == [b];
    assert Fetch(State([], [one]), 1) == (State([], []), Some(Batch(1, [b])));
    PollsRun(State([a, b], []), 2, 1);
    PollsRun(State([], [one]), 1, 1);
    assert Run(State([], []), Polls(0), 1) == (State([], []), []);
    assert [Batch(1, [b])] + [] == [Batch(1, [b])];
    assert [Batch(1, [a])] + [Batch(1, [b])] == [Batch(1, [a]), Batch(1, [b])];
  }

  // ------------------------------------------------------------------------ the object

  lemma {:induction false} StoreAt(pool: seq<Task>, r: Request, i: nat)
    requires i <= |pool| && forall j :: 0 <= j < i ==> pool[j].key != r.key
    requires i < |pool| ==> pool[i].key == r.key
    ensures Store(pool, r) ==
      if i < |pool| then pool[i := pool[i].(data := pool[i].data + [r])] else pool + [Task(r.key, r.hook, [r])]
  {
    if pool != [] && i > 0 {
      StoreAt(pool[1..], r, i - 1);
      assert pool == [pool[0]] + pool[1..];
    }
  }

  class TransformersEngine {
    const maxBatchSize: int
    var queue: seq<Request>
    var taskPool: seq<Task>

    function Abs(): State
      reads this
    {
      State(queue, taskPool)
    }

    constructor (maxBatchSize: int)
      ensures this.maxBatchSize == maxBatchSize && Abs() == State([], [])
    {
      this.maxBatchSize := maxBatchSize;
      queue, taskPool := [], [];
    }

    // infer_async (lines 522-526)
    method Put(r: Request)
      modifies this
      ensures Abs() == State(old(queue) + [r], old(taskPool))
    {
      queue := queue + [r];
    }

    // The body of the draining loop (lines 147-152)
    method StoreRequest(r: Request)
      modifies this`taskPool
      ensures taskPool == Store(old(taskPool), r)
    {
      var i := 0;
      while i < |taskPool| && taskPool[i].key != r.key
        invariant 0 <= i <= |taskPool| && forall j :: 0 <= j < i ==> taskPool[j].key != r.key
      {
        i := i + 1;
      }
      StoreAt(taskPool, r, i);
      if i == |taskPool| {
        taskPool := taskPool + [Task(r.key, r.hook, [])];
      }
      assert [] + [r] == [r];
      taskPool := taskPool[i := taskPool[i].(data := taskPool[i].data + [r])];
      assert taskPool == Store(old(taskPool), r);
    }

    // _fetch_infer_requests (lines 146-167)
    method FetchInferRequests() returns (batch: Option<Batch>)
      modifies this
      ensures (Abs(), batch) == Fetch(old(Abs()), maxBatchSize)
    {
      while queue != []
        invariant StoreAll(taskPool, queue) == StoreAll(old(taskPool), old(queue))
        decreases |queue|
      {
        var r := queue[0];
        queue := queue[1..];
        StoreRequest(r);
      }
      if |taskPool| == 0 {
        return None;
      }
      ghost var stored := taskPool;
      var t := taskPool[0];
      var size := maxBatchSize;
      if size <= 0 {
        size := |t.data|;
      }
      var cut := if size <= |t.data| then size else |t.data|;
      var data, remain := t.data[..cut], t.data[cut..];
      if remain != [] {
        taskPool := taskPool[0 := Task(t.key, t.hook, remain)];
      } else {
        taskPool := taskPool[1..];
      }
      batch := Some(Batch(t.hook, data));
      assert cut == Portion(|t.data|, maxBatchSize);
      assert [t.(data := t.data[cut..])] + stored[1..] == stored[0 := t.(data := t.data[cut..])];
    }
  }
}
