// Which requests a fetch takes: the first ones, in order of arrival, of the key that came first.
module RequestOrder {
  import opened RequestPool
  import opened Options

  // Where a key first occurs.
  function FirstAt(key: string, rs: seq<Request>): (i: nat)
    ensures i <= |rs|
    ensures forall k :: 0 <= k < i ==> rs[k].key != key
    ensures i < |rs| ==> rs[i].key == key
  {
    if rs == [] || rs[0].key == key then 0 else 1 + FirstAt(key, rs[1..])
  }

  // -------------------------------------------------------------------- the order of keys

  lemma {:induction false} StoreOrder(pool: seq<Task>, r: Request)
    ensures |pool| <= |Store(pool, r)| <= |pool| + 1
    ensures forall i :: 0 <= i < |pool| ==> Store(pool, r)[i].key == pool[i].key && Store(pool, r)[i].hook == pool[i].hook
    ensures |Store(pool, r)| > |pool| <==> r.key !in Keys(pool)
    ensures |Store(pool, r)| > |pool| ==> Store(pool, r)[|pool|].key == r.key && Store(pool, r)[|pool|].hook == r.hook
  {
    if pool != [] && pool[0].key != r.key {
      StoreOrder(pool[1..], r);
    }
  }

  lemma {:induction false} FirstAtSnoc(key: string, rs: seq<Request>, r: Request)
    ensures FirstAt(key, rs + [r]) == if FirstAt(key, rs) < |rs| || r.key == key then FirstAt(key, rs) else |rs| + 1
  {
    if rs != [] && rs[0].key != key {
      assert (rs + [r])[1..] == rs[1..] + [r] && (rs + [r])[0] == rs[0];
      FirstAtSnoc(key, rs[1..], r);
    }
  }

  // Entries keep their places; new ones come after them, by first arrival, with the hook of
  // that first request.
  ghost predicate ByArrival(was: seq<Task>, pool: seq<Task>, rs: seq<Request>) {
    && |was| <= |pool|
    && (forall i :: 0 <= i < |was| ==> pool[i].key == was[i].key && pool[i].hook == was[i].hook)
    && (forall i :: |was| <= i < |pool| ==> FromFirst(pool[i], rs))
    && (forall i, k :: |was| <= i < k < |pool| ==> FirstAt(pool[i].key, rs) < FirstAt(pool[k].key, rs))
    && (forall k :: 0 <= k < |rs| ==> rs[k].key in Keys(pool))
  }

  predicate FromFirst(t: Task, rs: seq<Request>) {
    var i := FirstAt(t.key, rs);
    i < |rs| && t.hook == rs[i].hook
  }

  lemma {:induction false} StoreAllSnoc(pool: seq<Task>, rs: seq<Request>, r: Request)
    ensures StoreAll(pool, rs + [r]) == Store(StoreAll(pool, rs), r)
    decreases |rs|
  {
    hide Store;
    if rs == [] {
      assert rs + [r] == [r] && [r][1..] == [];
    } else {
      assert (rs + [r])[1..] == rs[1..] + [r] && (rs + [r])[0] == rs[0];
      StoreAllSnoc(Store(pool, rs[0]), rs[1..], r);
    }
  }

  lemma {:induction false} KeyIsIn(pool: seq<Task>, key: string)
    ensures key in Keys(pool) <==> exists i :: 0 <= i < |pool| && pool[i].key == key
  {
    if pool != [] {
      KeyIsIn(pool[1..], key);
      assert forall i :: 0 < i < |pool| ==> pool[1..][i - 1] == pool[i];
    }
  }

  lemma {:induction false} KeysByArrival(pool: seq<Task>, rs: seq<Request>)
    ensures ByArrival(pool, StoreAll(pool, rs), rs)
    decreases |rs|
  {
    if rs != [] {
      var n := |rs| - 1;
      var before, r := rs[..n], rs[n];
      assert rs == before + [r];
      KeysByArrival(pool, before);
      StoreAllSnoc(pool, before, r);
      hide Store, StoreAll;
      OneMoreArrival(pool, StoreAll(pool, before), before, r);
    }
  }

  lemma {:induction false} StoredKeys(pool: seq<Task>, r: Request)
    ensures Keys(Store(pool, r)) == Keys(pool) + {r.key}
  {
    if pool != [] && pool[0].key != r.key {
      StoredKeys(pool[1..], r);
    }
  }

  lemma {:induction false} EntryStays(t: Task, t': Task, rs: seq<Request>, r: Request)
    requires FromFirst(t, rs) && t'.key == t.key && t'.hook == t.hook
    ensures FromFirst(t', rs + [r]) && FirstAt(t'.key, rs + [r]) == FirstAt(t.key, rs) < |rs|
  {
    FirstAtSnoc(t.key, rs, r);
  }

  lemma {:induction false} NewEntry(t: Task, rs: seq<Request>, r: Request)
    requires t.key == r.key && t.hook == r.hook && forall k :: 0 <= k < |rs| ==> rs[k].key != r.key
    ensures FromFirst(t, rs + [r]) && FirstAt(t.key, rs + [r]) == |rs|
  {
    FirstAtSnoc(r.key, rs, r);
  }

  lemma {:induction false} OneMoreArrival(was: seq<Task>, pool: seq<Task>, rs: seq<Request>, r: Request)
    requires ByArrival(was, pool, rs)
    ensures ByArrival(was, Store(pool, r), rs + [r])
  {
    StoreOrder(pool, r);
    StoredKeys(pool, r);
    var pool' := Store(pool, r);
    assert |pool'| > |pool| ==> forall k :: 0 <= k < |rs| ==> rs[k].key != r.key;
    hide Store, FirstAt, FromFirst;
    forall i | |was| <= i < |pool'|
      ensures FromFirst(pool'[i], rs + [r])
      ensures FirstAt(pool'[i].key, rs + [r]) == if i < |pool| then FirstAt(pool[i].key, rs) else |rs|
      ensures i < |pool| ==> FirstAt(pool[i].key, rs) < |rs|
    {
      if i < |pool| {
        EntryStays(pool[i], pool'[i], rs, r);
      } else {
        NewEntry(pool'[i], rs, r);
      }
    }
  }

  // ---------------------------------------------------------------------- the batch taken

  // A fetch takes of the first key in the pool, or of the first request when the pool is
  // empty; of all that waits under that key it takes the first `max`, or everything when there
  // is no limit or less is waiting.
  lemma {:induction false} FetchTakes(st: State, max: int)
    requires Sound(st.pool) && (st.pool != [] || st.queue != [])
    ensures var key := if st.pool != [] then st.pool[0].key else st.queue[0].key;
      var own := Of(key, Waiting(st.pool)) + Of(key, st.queue);
      var batch := Fetch(st, max).1;
      && batch.Some? && batch.value.data <= own && own != []
      && |batch.value.data| == (if 0 < max < |own| then max else |own|)
      && (st.pool != [] ==> batch.value.hook == st.pool[0].hook)
      && (st.pool == [] ==> batch.value.hook == st.queue[0].hook)
  {
    var pool := StoreAll(st.pool, st.queue);
    var key := if st.pool != [] then st.pool[0].key else st.queue[0].key;
    StoreAllKeeps(st.pool, st.queue, key);
    StoreAllEmpty(st.pool, st.queue);
    KeysByArrival(st.pool, st.queue);
    if st.pool == [] {
      assert FromFirst(pool[0], st.queue);
      FirstOfAll(pool, st.queue);
    }
    EntryHoldsItsKey(pool, 0);
    hide StoreAll, Waiting, Of;
    assert Sound(pool) && pool[0].data != [];
  }

  lemma {:induction false} FirstOfAll(pool: seq<Task>, rs: seq<Request>)
    requires rs != [] && pool != [] && ByArrival([], pool, rs)
    ensures pool[0].key == rs[0].key && FirstAt(pool[0].key, rs) == 0
  {
    assert rs[0].key in Keys(pool);
    KeyIsIn(pool, rs[0].key);
    var i :| 0 <= i < |pool| && pool[i].key == rs[0].key;
    assert FirstAt(pool[i].key, rs) == 0;
  }
}
