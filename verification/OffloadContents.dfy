// What the handlers give back, in terms of the events alone: every tensor taken back has the
// device, type, shape and elements of the last tensor that was pushed at its place.
module OffloadContents {
  import opened Options
  import opened OffloadModel
  import opened OffloadSession
  import opened OffloadTheorems

  predicate PushesAt(e: Event, slot: Tag) {
    e.Push? && e.slot == slot
  }

  // events[j] is the last push at that place before events[k].
  predicate LastPush(events: seq<Event>, k: nat, slot: Tag, j: int)
    requires k <= |events|
  {
    0 <= j < k && PushesAt(events[j], slot) && forall m :: j < m < k ==> !PushesAt(events[m], slot)
  }

  // The tensor that events[k] takes back is the one that was last pushed there.
  ghost predicate GivesBack(events: seq<Event>, k: nat, out: Output)
    requires k < |events| && events[k].Pop?
  {
    exists j :: LastPush(events, k, events[k].slot, j) &&
      var t := events[j].save.tensor;
      && out.Loaded?
      && out.data == t.data
      && out.shape == t.key.shape
      && out.dtype == t.key.dtype
      && out.device == t.key.device
  }

  ghost predicate AllGivenBack(events: seq<Event>, outs: seq<Output>) {
    |outs| == |events| && forall k :: 0 <= k < |events| && events[k].Pop? ==> GivesBack(events, k, outs[k])
  }

  // The schedule remembers the last push at every place.
  ghost predicate Remembers(past: seq<Event>, s: Schedule) {
    forall slot: Tag :: 0 <= slot.group < |s.saves| && slot.index < |s.saves[slot.group]| ==>
      exists j :: LastPush(past, |past|, slot, j) && past[j].save == s.saves[slot.group][slot.index]
  }

  lemma {:induction false} StillLast(past: seq<Event>, e: Event, slot: Tag, j: int)
    requires LastPush(past, |past|, slot, j) && !PushesAt(e, slot)
    ensures LastPush(past + [e], |past| + 1, slot, j) && (past + [e])[j] == past[j]
  {
  }

  lemma {:induction false} NextRemembers(L: nat, past: seq<Event>, s: Schedule, e: Event)
    requires WellFormed(L, s) && Legal(L, s, e) && Remembers(past, s)
    ensures Remembers(past + [e], Next(L, s, e))
  {
    var s', now := Next(L, s, e), past + [e];
    hide CoherentSaves, LastPush;
    forall slot: Tag | 0 <= slot.group < |s'.saves| && slot.index < |s'.saves[slot.group]|
      ensures exists j :: LastPush(now, |now|, slot, j) && now[j].save == s'.saves[slot.group][slot.index]
    {
      if PushesAt(e, slot) {
        assert LastPush(now, |now|, slot, |past|) by {
          PushedLast(past, e, slot);
        }
      } else {
        assert slot.group < |s.saves| && slot.index < |s.saves[slot.group]|;
        var j :| LastPush(past, |past|, slot, j) && past[j].save == s.saves[slot.group][slot.index];
        StillLast(past, e, slot, j);
      }
    }
  }

  lemma {:induction false} PushedLast(past: seq<Event>, e: Event, slot: Tag)
    requires PushesAt(e, slot)
    ensures LastPush(past + [e], |past| + 1, slot, |past|)
  {
  }

  lemma {:induction false} PopGivesBack(L: nat, past: seq<Event>, s: Schedule, e: Event, later: seq<Event>)
    requires WellFormed(L, s) && Legal(L, s, e) && Remembers(past, s) && e.Pop?
    ensures GivesBack(past + ([e] + later), |past|, Expected(L, s, e))
  {
    hide CoherentSaves;
    var j :| LastPush(past, |past|, e.slot, j) && past[j].save == s.saves[e.slot.group][e.slot.index];
    var events := past + ([e] + later);
    assert LastPush(events, |past|, events[|past|].slot, j);
  }

  lemma {:induction false} ExpectedGivesBack(L: nat, past: seq<Event>, s: Schedule, events: seq<Event>)
    requires WellFormed(L, s) && LegalRun(L, s, events) && Remembers(past, s)
    ensures |ExpectedOutputs(L, s, events)| == |events|
    ensures forall k :: 0 <= k < |events| && events[k].Pop? ==>
      GivesBack(past + events, |past| + k, ExpectedOutputs(L, s, events)[k])
    decreases |events|
  {
    hide WellFormed, Legal, Next, Expected, Remembers, GivesBack;
    if events != [] {
      var e, later := events[0], events[1..];
      assert events == [e] + later;
      NextRemembers(L, past, s, e);
      ExpectedGivesBack(L, past + [e], Next(L, s, e), later);
      assert (past + [e]) + later == past + events;
      if e.Pop? {
        PopGivesBack(L, past, s, e, later);
      }
      forall k | 0 <= k < |events| && events[k].Pop?
        ensures GivesBack(past + events, |past| + k, ExpectedOutputs(L, s, events)[k])
      {
        assert k > 0 ==> events[k] == later[k - 1] && |past + [e]| + (k - 1) == |past| + k;
      }
    }
  }

  lemma {:induction false} RunGivesBack(L: nat, events: seq<Event>)
    requires LegalRun(L, START, events)
    ensures AllGivenBack(events, ExpectedOutputs(L, START, events))
  {
    hide GivesBack;
    ExpectedGivesBack(L, [], START, events);
    assert [] + events == events;
  }

  // On every legal run of either handler, a tensor that is taken back is, field by field, the
  // last one that was pushed at its place.
  lemma {:induction false} BothGiveBack(L: nat, N: nat, N': nat, events: seq<Event>)
    requires 1 <= N <= L && LegalRun(L, START, events)
    ensures var async := RunAsync(AsyncRun(AsyncInit(L, N), map[]), events);
      async.Some? && AllGivenBack(events, async.value.1)
    ensures var sync := RunSync(SyncRun(SyncInit(N'), map[]), events);
      sync.Some? && AllGivenBack(events, sync.value.1)
  {
    hide AllGivenBack, RunAsync, RunSync;
    RunGivesBack(L, events);
    AsyncHandlerIsTransparent(L, N, events);
    AsyncRefinesSync(L, N, N', events);
  }
}
