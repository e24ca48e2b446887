// When every batch of the request pool runs under the hook of its own requests.
module RequestHooks {
  import opened Options
  import opened RequestPool

  // Requests of one key carry one hook: a caller can see to this before submitting.
  predicate OneHookPerKey(rs: seq<Request>) {
    forall i, j :: 0 <= i < |rs| && 0 <= j < |rs| && rs[i].key == rs[j].key ==> rs[i].hook == rs[j].hook
  }

  predicate OwnHook(b: Batch) {
    forall i :: 0 <= i < |b.data| ==> b.data[i].hook == b.hook
  }

  predicate OwnHooks(batches: seq<Batch>) {
    forall i :: 0 <= i < |batches| ==> OwnHook(batches[i])
  }

  // ------------------------------------------------------------- it is enough

  predicate Among(some: seq<Request>, rs: seq<Request>) {
    forall i :: 0 <= i < |some| ==> some[i] in rs
  }

  // The entry's hook is that of every request of its key, and it holds only such requests.
  predicate Agrees(t: Task, rs: seq<Request>) {
    && Among(t.data, rs) && OneKey(t.key, t.data)
    && forall i :: 0 <= i < |rs| && rs[i].key == t.key ==> rs[i].hook == t.hook
  }

  predicate AllAgree(pool: seq<Task>, rs: seq<Request>) {
    forall i :: 0 <= i < |pool| ==> Agrees(pool[i], rs)
  }

  lemma {:induction false} StoreAgrees(pool: seq<Task>, r: Request, rs: seq<Request>)
    requires OneHookPerKey(rs) && AllAgree(pool, rs) && r in rs
    ensures AllAgree(Store(pool, r), rs)
  {
    if pool != [] {
      assert Agrees(pool[0], rs);
      if pool[0].key != r.key {
        StoreAgrees(pool[1..], r, rs);
      }
    }
  }

  lemma {:induction false} StoreAllAgree(pool: seq<Task>, some: seq<Request>, rs: seq<Request>)
    requires OneHookPerKey(rs) && AllAgree(pool, rs) && Among(some, rs)
    ensures AllAgree(StoreAll(pool, some), rs)
    decreases |some|
  {
    if some != [] {
      StoreAgrees(pool, some[0], rs);
      StoreAllAgree(Store(pool, some[0]), some[1..], rs);
    }
  }

  lemma {:induction false} TakeFirstAgrees(pool: seq<Task>, max: int, rs: seq<Request>)
    requires AllAgree(pool, rs)
    ensures var (pool', batch) := TakeFirst(pool, max);
      AllAgree(pool', rs) && (batch.Some? ==> OwnHook(batch.value))
  {
    if pool != [] {
      assert Agrees(pool[0], rs);
      forall i | 0 <= i < |pool[0].data| ensures pool[0].data[i].hook == pool[0].hook {
        assert pool[0].data[i] in rs;
      }
    }
  }

  lemma {:induction false} AmongParts(a: seq<Request>, b: seq<Request>, rs: seq<Request>)
    requires Among(a + b, rs)
    ensures Among(a, rs) && Among(b, rs)
  {
    forall i | 0 <= i < |a| ensures a[i] in rs {
      assert (a + b)[i] == a[i];
    }
    forall i | 0 <= i < |b| ensures b[i] in rs {
      assert (a + b)[|a| + i] == b[i];
    }
  }

  lemma {:induction false} RunKeepsHooks(st: State, events: seq<Event>, max: int, rs: seq<Request>)
    requires OneHookPerKey(rs) && AllAgree(st.pool, rs)
    requires Among(st.queue, rs) && Among(Arrivals(events), rs)
    ensures OwnHooks(Run(st, events, max).1)
    decreases |events|
  {
    hide OneHookPerKey, AllAgree, OwnHook, Store, TakeFirst;
    if events != [] {
      if events[0].Arrive? {
        AmongParts([events[0].r], Arrivals(events[1..]), rs);
        RunKeepsHooks(st.(queue := st.queue + [events[0].r]), events[1..], max, rs);
      } else {
        var (st', batch) := Fetch(st, max);
        RunPoll(st, events, max);
        StoreAllAgree(st.pool, st.queue, rs);
        TakeFirstAgrees(StoreAll(st.pool, st.queue), max, rs);
        RunKeepsHooks(st', events[1..], max, rs);
      }
    }
  }

  // ------------------------------------------------------------- and it is needed

  function Arrives(rs: seq<Request>): seq<Event> {
    if rs == [] then [] else [Arrive(rs[0])] + Arrives(rs[1..])
  }

  // First every request arrives, then the batches are fetched.
  lemma {:induction false} ArriveFirst(queue: seq<Request>, rs: seq<Request>, n: nat, max: int)
    ensures Run(State(queue, []), Arrives(rs) + Polls(n), max) == Run(State(queue + rs, []), Polls(n), max)
    ensures Arrivals(Arrives(rs) + Polls(n)) == rs
    decreases |rs|
  {
    var events := Arrives(rs) + Polls(n);
    if rs == [] {
      assert events == Polls(n) && queue + rs == queue;
      NoArrivals(n);
    } else {
      assert events == [Arrive(rs[0])] + (Arrives(rs[1..]) + Polls(n));
      assert events[1..] == Arrives(rs[1..]) + Polls(n);
      assert (queue + [rs[0]]) + rs[1..] == queue + rs;
      ArriveFirst(queue + [rs[0]], rs[1..], n, max);
    }
  }

  lemma {:induction false} NoArrivals(n: nat)
    ensures Arrivals(Polls(n)) == []
  {
    if n > 0 {
      NoArrivals(n - 1);
      assert Polls(n)[1..] == Polls(n - 1);
    }
  }

  // Every request of an entry is in one of its batches, under the entry's hook.
  lemma {:induction false} InSomeChunk(t: Task, max: int, r: Request) returns (i: nat)
    requires r in t.data
    ensures i < |Chunks(t, max)| && r in Chunks(t, max)[i].data && Chunks(t, max)[i].hook == t.hook
    decreases |t.data|
  {
    var m := Portion(|t.data|, max);
    if m == |t.data| || r in t.data[..m] {
      i := 0;
    } else {
      assert t.data == t.data[..m] + t.data[m..];
      var k := InSomeChunk(t.(data := t.data[m..]), max, r);
      i := k + 1;
    }
  }

  lemma {:induction false} ChunksAreDrained(pool: seq<Task>, max: int, e: nat, i: nat)
    requires e < |pool| && i < |Chunks(pool[e], max)|
    ensures Chunks(pool[e], max)[i] in Drained(pool, max)
  {
    if e > 0 {
      ChunksAreDrained(pool[1..], max, e - 1, i);
    }
  }

  lemma {:induction false} EntryOf(pool: seq<Task>, key: string) returns (e: nat)
    requires key in Keys(pool)
    ensures e < |pool| && pool[e].key == key
  {
    if pool[0].key == key {
      e := 0;
    } else {
      var k := EntryOf(pool[1..], key);
      e := k + 1;
    }
  }

  lemma {:induction false} StoreAllKeys(pool: seq<Task>, rs: seq<Request>, r: Request)
    requires Sound(pool) && (r in rs || r.key in Keys(pool))
    ensures r.key in Keys(StoreAll(pool, rs))
    decreases |rs|
  {
    if rs != [] {
      StoreSound(pool, rs[0]);
      StoreAllKeys(Store(pool, rs[0]), rs[1..], r);
    }
  }

  lemma {:induction false} OfHolds(key: string, rs: seq<Request>, i: nat)
    requires i < |rs| && rs[i].key == key
    ensures rs[i] in Of(key, rs)
  {
    if i > 0 {
      OfHolds(key, rs[1..], i - 1);
    }
  }

  // The entry of a key holds all requests of the key, so its one hook must be theirs.
  lemma {:induction false} EntryHook(rs: seq<Request>, max: int, i: nat, e: nat)
    requires i < |rs| && var pool := StoreAll([], rs);
      e < |pool| && pool[e].key == rs[i].key && OwnHooks(Drained(pool, max))
    ensures rs[i].hook == StoreAll([], rs)[e].hook
  {
    hide StoreAll, Chunks, Drained;
    var pool, key := StoreAll([], rs), rs[i].key;
    StoreAllKeeps([], rs, key);
    EntryHoldsItsKey(pool, e);
    OfHolds(key, rs, i);
    assert Of(key, Waiting([])) + Of(key, rs) == Of(key, rs) by {
      OfNone(key);
    }
    var c := InSomeChunk(pool[e], max, rs[i]);
    ChunksAreDrained(pool, max, e, c);
    assert OwnHook(Chunks(pool[e], max)[c]);
  }

  lemma {:induction false} DrainShowsHooks(rs: seq<Request>, max: int)
    requires OwnHooks(Drained(StoreAll([], rs), max))
    ensures OneHookPerKey(rs)
  {
    hide StoreAll, Drained, OwnHooks, Keys;
    forall i, j | 0 <= i < |rs| && 0 <= j < |rs| && rs[i].key == rs[j].key ensures rs[i].hook == rs[j].hook {
      assert Sound([]);
      StoreAllKeys([], rs, rs[i]);
      var e := EntryOf(StoreAll([], rs), rs[i].key);
      EntryHook(rs, max, i, e);
      EntryHook(rs, max, j, e);
    }
  }

  // However the arrivals and the fetches interleave, every batch runs under the hook of each
  // of its requests, if and only if requests of one key carry one hook.
  lemma {:induction false} OwnHooksExactly(rs: seq<Request>, max: int)
    ensures (forall events :: Arrivals(events) == rs ==> OwnHooks(Run(State([], []), events, max).1))
      <==> OneHookPerKey(rs)
  {
    hide OneHookPerKey, OwnHooks, Run, Drained, Arrivals, StoreAll;
    if OneHookPerKey(rs) {
      forall events | Arrivals(events) == rs ensures OwnHooks(Run(State([], []), events, max).1) {
        RunKeepsHooks(State([], []), events, max, rs);
      }
    } else {
      var all := Drained(StoreAll([], rs), max);
      ArriveFirst([], rs, |all|, max);
      assert [] + rs == rs && Sound([]);
      FetchesDrain(State(rs, []), |all|, max);
      assert all[..|all|] == all;
      if OwnHooks(all) {
        DrainShowsHooks(rs, max);
      }
      assert !OwnHooks(Run(State([], []), Arrives(rs) + Polls(|all|), max).1);
    }
  }
}
