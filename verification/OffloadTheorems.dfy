// What every legal run of the offload handlers gives: the asynchronous handler never fails
// an assertion, gives every saved tensor back unchanged, returns to its initial state after
// each training step, and so is indistinguishable from the synchronous one.
module OffloadTheorems {
  import opened Options
  import opened OffloadWindow
  import opened OffloadModel
  import opened OffloadSession
  import opened OffloadProofs

  ghost predicate Tracks(L: nat, N: nat, r: AsyncRun, s: Schedule)
    requires N > 0
  {
    WellFormed(L, s) && Mirrors(L, N, r.handler, s) && Packs(r.packed, s)
  }

  lemma {:induction false} AsyncStepTracks(L: nat, N: nat, r: AsyncRun, s: Schedule, e: Event)
    requires 1 <= N <= L && Tracks(L, N, r, s) && Legal(L, s, e)
    ensures AsyncStep(r, e).Some?
    ensures AsyncStep(r, e).value.1 == Expected(L, s, e)
    ensures Tracks(L, N, AsyncStep(r, e).value.0, Next(L, s, e))
  {
    hide Mirrors, Packs, HandleFor, CoherentSaves, AsyncPush, AsyncPop, AsyncCommitForward, AsyncCommitBackward;
    match e {
      case Push(_, _) => PushStep(L, N, r.handler, s, e);
      case CommitForward => CommitForwardStep(L, N, r.handler, s);
      case CommitBackward => CommitBackwardStep(L, N, r.handler, s);
      case Pop(slot) => PopStep(L, N, r, s, e);
    }
    PacksStep(L, r.packed, AsyncStep(r, e).value.0.packed, s, e);
  }

  lemma {:induction false} AsyncRunTracks(L: nat, N: nat, r: AsyncRun, s: Schedule, events: seq<Event>)
    requires 1 <= N <= L && Tracks(L, N, r, s) && LegalRun(L, s, events)
    ensures RunAsync(r, events).Some?
    ensures RunAsync(r, events).value.1 == ExpectedOutputs(L, s, events)
    ensures Tracks(L, N, RunAsync(r, events).value.0, After(L, s, events))
    decreases |events|
  {
    hide Tracks, AsyncStep, Next, Expected, Legal;
    if events != [] {
      TracksWellFormed(L, N, r, s);
      AsyncStepTracks(L, N, r, s, events[0]);
      AsyncRunTracks(L, N, AsyncStep(r, events[0]).value.0, Next(L, s, events[0]), events[1..]);
    }
  }

  lemma {:induction false} TracksWellFormed(L: nat, N: nat, r: AsyncRun, s: Schedule)
    requires N > 0 && Tracks(L, N, r, s)
    ensures WellFormed(L, s)
  {
  }

  lemma {:induction false} InitMirrors(L: nat, N: nat)
    requires 1 <= N <= L
    ensures Mirrors(L, N, AsyncInit(L, N), START)
  {
    hide Window;
    assert forall tag :: !Known(START, tag);
    hide Known;
  }

  lemma {:induction false} OnlyInitMirrorsStart(L: nat, N: nat, h: Async)
    requires 1 <= N <= L && Mirrors(L, N, h, START)
    ensures h == AsyncInit(L, N)
  {
    hide Window;
    assert forall tag :: !Known(START, tag);
    hide Known;
    assert SentSoFar(L, N, START) == 0;
    assert forall g :: g !in h.copies;
    assert forall tag :: tag !in h.states && tag !in h.bufs;
    assert h.states == map[] && h.bufs == map[] && h.copies == map[];
  }

  // Over any number of training steps, with any tensors saved: no assertion fails, every
  // tensor_pop shows what was pushed, and between steps the handler is as it was built.
  lemma {:induction false} AsyncHandlerIsTransparent(L: nat, N: nat, events: seq<Event>)
    requires 1 <= N <= L && LegalRun(L, START, events)
    ensures var run := RunAsync(AsyncRun(AsyncInit(L, N), map[]), events);
      && run.Some?
      && run.value.1 == ExpectedOutputs(L, START, events)
      && (After(L, START, events) == START ==> run.value.0.handler == AsyncInit(L, N))
  {
    var r := AsyncRun(AsyncInit(L, N), map[]);
    InitMirrors(L, N);
    AsyncRunTracks(L, N, r, START, events);
    if After(L, START, events) == START {
      OnlyInitMirrorsStart(L, N, RunAsync(r, events).value.0.handler);
    }
  }

  // With nothing to offload (N = 0) the very first commit already fails: the lower bound on
  // N is necessary.
  lemma {:induction false} NoGroupsFails(L: nat)
    requires L > 0
    ensures LegalRun(L, START, [CommitForward])
    ensures RunAsync(AsyncRun(AsyncInit(L, 0), map[]), [CommitForward]).None?
  {
    assert [CommitForward][1..] == [];
  }

  // --------------------------------------------------------- the synchronous handler

  predicate SyncStateFor(N: nat, slot: Tag, save: Save, state: SyncState) {
    state == if slot.group < N && save.offload then Copied(Offload(save.tensor)) else Kept(save.tensor)
  }

  ghost predicate SyncMirrors(N: nat, r: SyncRun, s: Schedule) {
    && 0 <= s.group < |s.saves|
    && r.handler.groups == N && r.handler.current == s.group
    && r.handler.count == (if s.pass.Forward? then |s.saves[s.group]| else 0)
    && (forall slot :: slot in r.handler.states <==> LiveSlot(s, slot))
    && (forall slot :: LiveSlot(s, slot) ==>
          SyncStateFor(N, slot, s.saves[slot.group][slot.index], r.handler.states[slot]))
    && (forall slot :: LiveSlot(s, slot) ==> slot in r.packed && r.packed[slot] == Tagged(slot))
  }

  lemma {:induction false} SyncPushTracks(L: nat, N: nat, r: SyncRun, s: Schedule, e: Event)
    requires WellFormed(L, s) && SyncMirrors(N, r, s) && e.Push? && Legal(L, s, e)
    ensures SyncStep(r, e).Some? && SyncMirrors(N, SyncStep(r, e).value.0, Next(L, s, e))
  {
    var s' := Next(L, s, e);
    hide CoherentSaves;
    assert !LiveSlot(s, e.slot);
    forall slot ensures LiveSlot(s', slot) <==> LiveSlot(s, slot) || slot == e.slot {
    }
    forall slot | LiveSlot(s, slot)
      ensures s'.saves[slot.group][slot.index] == s.saves[slot.group][slot.index] {
    }
    hide LiveSlot, SyncStateFor;
  }

  lemma {:induction false} NoSlots(saves: seq<Save>)
    ensures AllSlots(saves) == {} <==> saves == []
  {
    if saves != [] {
      assert 0 in AllSlots(saves);
    }
  }

  lemma {:induction false} SyncCommitTracks(L: nat, N: nat, r: SyncRun, s: Schedule, e: Event)
    requires WellFormed(L, s) && SyncMirrors(N, r, s) && Legal(L, s, e)
    requires e.CommitForward? || e.CommitBackward?
    ensures SyncStep(r, e).Some? && SyncMirrors(N, SyncStep(r, e).value.0, Next(L, s, e))
  {
    hide CoherentSaves;
    var s' := Next(L, s, e);
    if s' == START {
      NoSlots(s.saves[0]);
      assert forall slot :: !LiveSlot(s, slot);
    } else {
      assert forall slot :: LiveSlot(s', slot) <==> LiveSlot(s, slot);
      assert forall slot :: LiveSlot(s, slot) ==> s'.saves[slot.group] == s.saves[slot.group];
      hide LiveSlot, SyncStateFor;
    }
  }

  lemma {:induction false} SyncPopTracks(L: nat, N: nat, r: SyncRun, s: Schedule, e: Event)
    requires WellFormed(L, s) && SyncMirrors(N, r, s) && Legal(L, s, e) && e.Pop?
    ensures SyncStep(r, e).Some? && SyncMirrors(N, SyncStep(r, e).value.0, Next(L, s, e))
    ensures SyncStep(r, e).value.1 == Expected(L, s, e)
  {
    hide CoherentSaves;
    assert LiveSlot(s, e.slot);
  }

  lemma {:induction false} SyncStepTracks(L: nat, N: nat, r: SyncRun, s: Schedule, e: Event)
    requires WellFormed(L, s) && SyncMirrors(N, r, s) && Legal(L, s, e)
    ensures SyncStep(r, e).Some?
    ensures SyncStep(r, e).value.1 == Expected(L, s, e)
    ensures SyncMirrors(N, SyncStep(r, e).value.0, Next(L, s, e))
  {
    hide SyncMirrors, CoherentSaves;
    match e {
      case Push(_, _) => SyncPushTracks(L, N, r, s, e);
      case Pop(_) => SyncPopTracks(L, N, r, s, e);
      case _ => SyncCommitTracks(L, N, r, s, e);
    }
  }

  lemma {:induction false} SyncRunTracks(L: nat, N: nat, r: SyncRun, s: Schedule, events: seq<Event>)
    requires WellFormed(L, s) && SyncMirrors(N, r, s) && LegalRun(L, s, events)
    ensures RunSync(r, events).Some?
    ensures RunSync(r, events).value.1 == ExpectedOutputs(L, s, events)
    ensures SyncMirrors(N, RunSync(r, events).value.0, After(L, s, events))
    decreases |events|
  {
    hide SyncMirrors, SyncStep, Legal, Expected, CoherentSaves;
    if events != [] {
      SyncStepTracks(L, N, r, s, events[0]);
      SyncRunTracks(L, N, SyncStep(r, events[0]).value.0, Next(L, s, events[0]), events[1..]);
    }
  }

  // The asynchronous handler refines the synchronous one: on every legal run they return
  // the same contents, however many groups either of them offloads.
  lemma {:induction false} AsyncRefinesSync(L: nat, N: nat, N': nat, events: seq<Event>)
    requires 1 <= N <= L && LegalRun(L, START, events)
    ensures var async := RunAsync(AsyncRun(AsyncInit(L, N), map[]), events);
      var sync := RunSync(SyncRun(SyncInit(N'), map[]), events);
      async.Some? && sync.Some? && async.value.1 == sync.value.1
    ensures After(L, START, events) == START ==>
      RunSync(SyncRun(SyncInit(N'), map[]), events).value.0.handler == SyncInit(N')
  {
    AsyncHandlerIsTransparent(L, N, events);
    var r := SyncRun(SyncInit(N'), map[]);
    SyncRunTracks(L, N', r, START, events);
    if After(L, START, events) == START {
      assert RunSync(r, events).value.0.handler.states == map[];
    }
  }

  // What the synchronous handler holds after any legal run: one state for each tensor that has
  // not been taken back, a host copy in the offloaded groups and the tensor itself elsewhere.
  lemma {:induction false} SyncCopiesExactly(L: nat, N: nat, events: seq<Event>)
    requires LegalRun(L, START, events)
    ensures var run := RunSync(SyncRun(SyncInit(N), map[]), events);
      run.Some? && var h, s := run.value.0.handler, After(L, START, events);
      && (forall slot :: slot in h.states <==> LiveSlot(s, slot))
      && (forall slot :: slot in h.states ==>
            (h.states[slot].Copied? <==> slot.group < N && s.saves[slot.group][slot.index].offload))
  {
    SyncRunTracks(L, N, SyncRun(SyncInit(N), map[]), START, events);
  }

  // ------------------------------------------------------------ what is held, and when

  // Groups of which some tensor is referenced on the device: by a live state or a buffer.
  function HeldGroups(h: Async): set<int> {
    (set tag | tag in h.states && h.states[tag].OnDevice? :: tag.group) +
    (set tag | tag in h.bufs && h.bufs[tag].Some? :: tag.group)
  }

  // Exactly the groups with live tensors whose window has not closed, and those that the
  // schedule never sends.
  lemma {:induction false} HeldExactly(L: nat, N: nat, h: Async, s: Schedule, g: nat)
    requires 1 <= N <= L && WellFormed(L, s) && Mirrors(L, N, h, s)
    ensures g in HeldGroups(h) <==>
      (exists tag :: Live(s, tag) && tag.group == g) && (g >= Passed(L, N, s.group) || !Sends(L, N, g))
  {
    hide Window, Sends, CoherentSaves, TensorAt, Known;
    PassedIsWindowCount(L, N, s.group);
    if tag :| Live(s, tag) && tag.group == g {
      assert tag in h.states;
      if g >= Passed(L, N, s.group) || !Sends(L, N, g) {
        assert h.states[tag].OnDevice? || h.bufs[tag].Some?;
      }
    }
  }

  // A host copy of group g exists exactly from the forward commit that sends it to the
  // backward commit that brings it back; by SendsAfterPushes and WindowAfterGroup the first
  // comes after its last push and the second before its first pop when N < L.
  lemma {:induction false} HostCopySpan(L: nat, N: nat, h: Async, s: Schedule, g: nat)
    requires 1 <= N <= L && WellFormed(L, s) && Mirrors(L, N, h, s) && g < N
    ensures g in h.copies <==>
      if s.pass.Forward? then SendAt(L, N, g) < s.group else Window(L, N, g) < s.group
  {
    hide StatesHold, BufsHold, CoherentSaves, Window;
    PassedIsWindowCount(L, N, s.group);
  }

  ghost predicate AtMostTwoGroups(h: Async) {
    exists a, b :: HeldGroups(h) <= {a, b}
  }

  ghost function Final(L: nat, N: nat, events: seq<Event>): Async
    requires 1 <= N <= L && LegalRun(L, START, events)
  {
    AsyncHandlerIsTransparent(L, N, events);
    RunAsync(AsyncRun(AsyncInit(L, N), map[]), events).value.0.handler
  }

  lemma {:induction false} FinalMirrors(L: nat, N: nat, events: seq<Event>)
    requires 1 <= N <= L && LegalRun(L, START, events)
    ensures Mirrors(L, N, Final(L, N, events), After(L, START, events))
  {
    hide Mirrors, Packs;
    InitMirrors(L, N);
    assert Packs(map[], START) by { NoSlotPacks(); }
    AsyncRunTracks(L, N, AsyncRun(AsyncInit(L, N), map[]), START, events);
  }

  lemma {:induction false} NoSlotPacks()
    ensures Packs(map[], START)
  {
  }

  lemma {:induction false} HeldGroupsAreLive(L: nat, N: nat, h: Async, s: Schedule, g: int)
    requires 1 <= N <= L && WellFormed(L, s) && Mirrors(L, N, h, s) && g in HeldGroups(h)
    ensures 0 <= g <= s.group && g < L
  {
    hide CoherentSaves, Window, StateOf;
    var tag: Tag :| tag.group == g && (tag in h.states || tag in h.bufs);
    assert Live(s, tag);
  }

  lemma {:induction false} FewGroupsHeld(L: nat, N: nat, h: Async, s: Schedule)
    requires 1 <= N <= L && WellFormed(L, s) && Mirrors(L, N, h, s)
    requires N == L - 1 || L <= 2 || (N == 3 && L == 3)
    ensures AtMostTwoGroups(h)
  {
    hide Mirrors, CoherentSaves, Window, HeldGroups;
    var c := s.group;
    PassedIsWindowCount(L, N, c);
    SendsAfterPushes(L, N);
    var pair := if L <= 2 then (0, 1) else if N == L - 1 then (c - 1, c) else if c == 0 then (0, 0) else (1, 2);
    forall g | g in HeldGroups(h) ensures g in {pair.0, pair.1} {
      HeldGroupsAreLive(L, N, h, s, g);
      HeldExactly(L, N, h, s, g);
      if L > 2 && N == L - 1 && c >= 2 {
        InstalledWindow(L, c - 2);
      } else if L > 2 && N == L {
        WholeModelWindow(L, 0);
      }
    }
    assert HeldGroups(h) <= {pair.0, pair.1};
  }

  // One tensor saved in each layer.
  function One(g: int): Save {
    Save(Tensor(Key(0, g, 0, [], []), []), true)
  }

  function Ones(n: nat): seq<seq<Save>> {
    seq(n, g => [One(g)])
  }

  // Fill the layers from c up to n and stop before the commit of layer n.
  function Fill(c: nat, n: nat): seq<Event>
    requires c <= n
    decreases n - c
  {
    [Push(Tag(c, 0), One(c))] + if c == n then [] else [CommitForward] + Fill(c + 1, n)
  }

  lemma {:induction false} FillIsLegal(L: nat, c: nat, n: nat)
    requires c <= n < L
    ensures var s := Schedule(Forward, c, Ones(c) + [[]], {});
      && WellFormed(L, s)
      && LegalRun(L, s, Fill(c, n))
      && After(L, s, Fill(c, n)) == Schedule(Forward, n, Ones(n + 1), {})
    decreases n - c
  {
    var s := Schedule(Forward, c, Ones(c) + [[]], {});
    var e := Push(Tag(c, 0), One(c));
    var s1 := Schedule(Forward, c, Ones(c + 1), {});
    assert s.saves[c] + [One(c)] == [One(c)] && s.saves[c := [One(c)]] == Ones(c + 1);
    assert Legal(L, s, e) && Next(L, s, e) == s1;
    if c == n {
      assert Fill(c, n) == [e] && [e][1..] == [];
    } else {
      var rest := Fill(c + 1, n);
      FillIsLegal(L, c + 1, n);
      assert Fill(c, n)[1..] == [CommitForward] + rest && ([CommitForward] + rest)[1..] == rest;
      assert Next(L, s1, CommitForward) == Schedule(Forward, c + 1, Ones(c + 1) + [[]], {});
    }
  }

  ghost predicate AlwaysAtMostTwo(L: nat, N: nat)
    requires 1 <= N <= L
  {
    forall events :: LegalRun(L, START, events) ==> AtMostTwoGroups(Final(L, N, events))
  }

  // "At most two activation groups in GPU memory" (lines 529-533) holds in every reachable
  // state of the installed configuration N = L - 1, and of almost no other.
  lemma {:induction false} TwoGroupsExactly(L: nat, N: nat)
    requires 1 <= N <= L
    ensures AlwaysAtMostTwo(L, N) <==> N == L - 1 || L <= 2 || (N == 3 && L == 3)
  {
    hide Mirrors, AtMostTwoGroups;
    if N == L - 1 || L <= 2 || (N == 3 && L == 3) {
      forall events | LegalRun(L, START, events) ensures AtMostTwoGroups(Final(L, N, events)) {
        FinalMirrors(L, N, events);
        FewGroupsHeld(L, N, Final(L, N, events), After(L, START, events));
      }
    } else {
      var events := Fill(0, L - 1);
      FillIsLegal(L, 0, L - 1);
      assert Ones(0) + [[]] == [[]];
      FinalMirrors(L, N, events);
      ThreeGroupsHeld(L, N, Final(L, N, events));
    }
  }

  lemma {:induction false} ThreeGroupsHeld(L: nat, N: nat, h: Async)
    requires 1 <= N <= L && N != L - 1 && L > 2 && !(N == 3 && L == 3)
    requires Mirrors(L, N, h, Schedule(Forward, L - 1, Ones(L), {}))
    ensures !AtMostTwoGroups(h)
  {
    hide Mirrors, Window, HeldGroups, Sends;
    var s := Schedule(Forward, L - 1, Ones(L), {});
    SendsAfterPushes(L, N);
    WindowLast(L, N);
    PassedIsWindowCount(L, N, L - 1);
    var first := if N == L then 1 else N - 1;
    forall g | first <= g < first + 3 ensures g in HeldGroups(h) {
      assert SlotsOf(s.saves[g]) == [0];
      assert Live(s, Tag(g, 0));
      HeldExactly(L, N, h, s, g);
    }
    assert first in HeldGroups(h) && first + 1 in HeldGroups(h) && first + 2 in HeldGroups(h);
  }
}
